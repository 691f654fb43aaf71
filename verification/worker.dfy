/** The worker object of app.py:28-98: its configuration, its two control
    flags, the signals it has emitted, and `run` over an abstract job folder. */
module Worker {
  import opened FillSpec
  import opened RandomText
  import FillProperties

  /** The job folder on disk, as `run` sees it. */
  class Directory {
    var present: bool
    var files: map<string, string>

    /** A folder that does not exist holds no files. */
    ghost predicate Valid()
      reads this
    {
      present || files == map[]
    }

    function View(): Folder
      reads this
    {
      Folder(present, files)
    }

    /** The job folder before `run` has created it. */
    constructor ()
      ensures Valid() && View() == Absent
    {
      present, files := false, map[];
    }

    /** `os.makedirs(folder_path)`, called when the folder is missing. */
    method MakeDirs()
      requires Valid() && !present
      modifies this
      ensures Valid() && View() == FillSpec.MakeDirs(old(View()))
    {
      present, files := true, map[];
    }

    /** `open(name, 'w').write(data)` that succeeded: the file holds exactly `data`. */
    method Write(name: string, data: string)
      requires Valid() && present
      modifies this
      ensures Valid() && View() == old(View()).(files := old(files)[name := data])
    {
      files := files[name := data];
    }

    /** `delete_directory` (app.py:23-25). */
    method Delete()
      requires Valid()
      modifies this
      ensures Valid() && View() == Absent
    {
      if present {
        present, files := false, map[];
      }
    }
  }

  class DiskFillerWorker {
    const folderPath: string
    const targetSizeMb: int
    const chunkSizeMb: int
    const driveLetter: string
    var stopFlag: bool
    var pauseFlag: bool
    /** Every signal emitted so far, in order. */
    var events: seq<Event>

    function FlagState(): Flags
      reads this
    {
      Flags(stopFlag, pauseFlag)
    }

    function Config(): Job
    {
      Job(folderPath, targetSizeMb, chunkSizeMb)
    }

    constructor (folderPath: string, targetSizeMb: int, chunkSizeMb: int, driveLetter: string)
      ensures this.folderPath == folderPath && this.targetSizeMb == targetSizeMb
      ensures this.chunkSizeMb == chunkSizeMb && this.driveLetter == driveLetter
      ensures FlagState() == Flags(false, false) && events == []
    {
      this.folderPath := folderPath;
      this.targetSizeMb := targetSizeMb;
      this.chunkSizeMb := chunkSizeMb;
      this.driveLetter := driveLetter;
      stopFlag := false;
      pauseFlag := false;
      events := [];
    }

    method Stop()
      modifies this
      ensures stopFlag && pauseFlag == old(pauseFlag) && events == old(events)
    {
      stopFlag := true;
    }

    method Pause()
      modifies this
      ensures pauseFlag && stopFlag == old(stopFlag) && events == old(events)
    {
      pauseFlag := true;
    }

    /** Clears the pause flag; waking the waiting worker is the next wait of the oracle. */
    method Resume()
      modifies this
      ensures !pauseFlag && stopFlag == old(stopFlag) && events == old(events)
    {
      pauseFlag := false;
    }

    /** The controller calls that reach the worker before one of its flag checks. */
    method Deliver(calls: seq<Control>)
      modifies this
      ensures FlagState() == ApplyCalls(old(FlagState()), calls) && events == old(events)
    {
      for i := 0 to |calls|
        invariant ApplyCalls(old(FlagState()), calls) == ApplyCalls(FlagState(), calls[i..])
        invariant events == old(events)
      {
        assert calls[i..][1..] == calls[i + 1..];
        match calls[i]
        case Stop => Stop();
        case Pause => Pause();
        case Resume => Resume();
      }
      assert calls[|calls|..] == [];
    }

    /** The `while self.pause_flag` wait of `run`: logs "Paused." and waits,
        the i-th wait returning after the controller's calls `waits[i]`;
        `resumed` is false when no wake-up is left and the flag is still set. */
    method WaitWhilePaused(waits: seq<seq<Control>>) returns (resumed: bool)
      modifies this
      ensures var p := PauseLoop(old(FlagState()), waits);
              && FlagState() == p.flags
              && resumed == p.resumed
              && events == old(events) + Repeat(Log(PausedMsg), p.logged)
    {
      var w := 0;
      while pauseFlag
        invariant 0 <= w <= |waits|
        invariant events == old(events) + Repeat(Log(PausedMsg), w)
        invariant var p := PauseLoop(old(FlagState()), waits);
                  var q := PauseLoop(FlagState(), waits[w..]);
                  p.flags == q.flags && p.resumed == q.resumed && p.logged == w + q.logged
        decreases |waits| - w
      {
        events := events + [Log(PausedMsg)];
        if w == |waits| {
          assert waits[w..] == [];
          return false;
        }
        assert waits[w..][0] == waits[w];
        assert waits[w..][1..] == waits[w + 1..];
        Deliver(waits[w]);
        w := w + 1;
      }
      resumed := true;
    }

    /** The `try` block of `run`: write file number `count`, count it, report
        it, then check the free space; `broke` when the loop must end. */
    method TryWrite(dir: Directory, data: string, written: nat, count: nat, round: Round)
      returns (total: nat, newCount: nat, broke: bool, exit: Exit)
      requires chunkSizeMb > 0 && dir.Valid() && dir.present
      modifies this, dir
      ensures dir.Valid() && (!broke ==> dir.present)
      ensures var r := Attempt(Config(), data, Fill(old(FlagState()), old(dir.View()), written, count, old(events)), round);
              var now := Fill(FlagState(), dir.View(), total, newCount, events);
              if broke then r == Exited(LoopEnd(now, exit)) else r == Continue(now)
    {
      ghost var before := Fill(FlagState(), dir.View(), written, count, events);
      total, newCount, broke, exit := written, count, false, TargetReached;
      var name := FileName(count);
      var path := JoinPath(folderPath, name);
      match round.write {
        case WriteFailed(e) =>
          events := events + [Log(WriteErrorMsg(path, e))];
          broke, exit := true, WriteError;
        case Written =>
          dir.Write(name, data);
          total := written + chunkSizeMb;
          newCount := count + 1;
          events := events + [Log(CreatedMsg(path, chunkSizeMb, total))];
          events := events + [Progress(Min(total, targetSizeMb))];
          ghost var next := Fill(FlagState(), dir.View(), total, newCount, events);
          assert events == before.events + [Log(CreatedMsg(path, chunkSizeMb, total)), Progress(Min(total, targetSizeMb))];
          assert Attempt(Config(), data, before, round) == CheckSpace(next, path, round.usage);
          match round.usage {
            case UsageFailed(e) =>
              events := events + [Log(WriteErrorMsg(path, e))];
              broke, exit := true, UsageError;
            case Free(bytes) =>
              if bytes < LowSpaceFloor {
                events := events + [Log(LowSpaceMsg)];
                dir.Delete();
                broke, exit := true, LowSpace;
              }
          }
      }
    }

    /** The `while total_written < target_size_mb` loop of `run`, from
        nothing written; the stop branch (which returns from `run`) and every
        `break` end it, and `exit` says which way it ended. */
    method WriteLoop(dir: Directory, data: string, oracle: nat -> Round) returns (exit: Exit)
      requires chunkSizeMb > 0 && dir.Valid() && dir.present
      modifies this, dir
      ensures dir.Valid()
      ensures var r := Loop(Config(), data, Fill(old(FlagState()), old(dir.View()), 0, 0, old(events)), oracle);
              && FlagState() == r.fill.flags
              && dir.View() == r.fill.folder
              && events == r.fill.events
              && exit == r.exit
    {
      var totalWritten: nat := 0;
      var fileCount: nat := 0;
      ghost var start := Fill(FlagState(), dir.View(), 0, 0, events);
      exit := TargetReached;
      while totalWritten < targetSizeMb
        invariant Loop(Config(), data, start, oracle)
               == Loop(Config(), data, Fill(FlagState(), dir.View(), totalWritten, fileCount, events), oracle)
        invariant exit == TargetReached
        invariant dir.Valid() && dir.present
        decreases targetSizeMb - totalWritten
      {
        ghost var s := Fill(FlagState(), dir.View(), totalWritten, fileCount, events);
        assert Loop(Config(), data, s, oracle) == match Step(Config(), data, s, oracle(fileCount))
          case Continue(next) => Loop(Config(), data, next, oracle)
          case Exited(e) => e;
        var round := oracle(fileCount);
        Deliver(round.calls);
        if stopFlag {
          events := events + [Log(StoppingMsg)];
          dir.Delete();
          events := events + [Stopped];
          assert Step(Config(), data, s, round)
              == Exited(LoopEnd(Fill(FlagState(), dir.View(), totalWritten, fileCount, events), StopRequested));
          return StopRequested;
        }
        var resumed := WaitWhilePaused(round.waits);
        if !resumed {
          assert Step(Config(), data, s, round)
              == Exited(LoopEnd(Fill(FlagState(), dir.View(), totalWritten, fileCount, events), StillPaused));
          return StillPaused;
        }
        ghost var checked := Fill(FlagState(), dir.View(), totalWritten, fileCount, events);
        assert Step(Config(), data, s, round) == Attempt(Config(), data, checked, round);
        var broke, reason;
        totalWritten, fileCount, broke, reason := TryWrite(dir, data, totalWritten, fileCount, round);
        if broke {
          exit := reason;
          assert Loop(Config(), data, start, oracle) == LoopEnd(Fill(FlagState(), dir.View(), totalWritten, fileCount, events), exit);
          break;
        }
        assert Loop(Config(), data, s, oracle) == Loop(Config(), data, Fill(FlagState(), dir.View(), totalWritten, fileCount, events), oracle);
      }
    }

    /** `run`: create the folder, generate the block, run the write loop,
        then log completion, delete the folder and emit `completed` unless the
        loop stopped. Returns false when the worker is left waiting on the
        pause condition with no wake-up to come (the thread never finishes). */
    method Run(dir: Directory, draw: nat -> nat, oracle: nat -> Round) returns (finished: bool)
      requires chunkSizeMb > 0 && dir.Valid()
      modifies this, dir
      ensures var r := RunFrom(Config(), GenerateRandomText(chunkSizeMb, draw),
                               Fill(old(FlagState()), FillSpec.MakeDirs(old(dir.View())), 0, 0, old(events)), oracle);
              && FlagState() == r.fill.flags
              && dir.View() == r.fill.folder
              && events == r.fill.events
              && finished == (r.exit != StillPaused)
      ensures finished ==> !dir.present && dir.files == map[]
      ensures finished ==> Terminals(events) == Terminals(old(events)) + 1
                           && |events| > 0 && events[|events| - 1].IsTerminal()
      ensures !finished ==> Terminals(events) == Terminals(old(events))
    {
      if !dir.present {
        dir.MakeDirs();
      }
      var data := GenerateRandomText(chunkSizeMb, draw);
      ghost var start := Fill(FlagState(), dir.View(), 0, 0, events);
      assert start == Fill(old(FlagState()), FillSpec.MakeDirs(old(dir.View())), 0, 0, old(events));
      FillProperties.RunOutcome(Config(), data, start, oracle);
      var exit := WriteLoop(dir, data, oracle);
      if exit == StopRequested {
        return true;
      }
      if exit == StillPaused {
        return false;
      }
      events := events + [Log(CompletedMsg)];
      dir.Delete();
      events := events + [Completed];
      finished := true;
    }
  }
}
