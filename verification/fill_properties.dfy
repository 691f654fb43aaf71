/** What one run of the worker guarantees, proved about the reference
    semantics in `FillSpec` (and so about `Worker.DiskFillerWorker.Run`,
    which is proved equal to it). */
module FillProperties {
  import opened Decimal
  import opened FillSpec

  // ---------------------------------------------------------------------
  // Arithmetic on the counters
  // ---------------------------------------------------------------------

  lemma MulMonotone(a: int, b: int, c: int)
    requires a <= b && c >= 0
    ensures a * c <= b * c
  {
    assert b * c - a * c == (b - a) * c;
  }

  lemma MulSucc(k: int, c: int)
    ensures (k + 1) * c == k * c + c
  {
  }

  /** Another chunk is still needed while `k` chunks fall short of `t`. */
  lemma CeilDivAbove(k: nat, c: int, t: int)
    requires c > 0 && k * c < t
    ensures k + 1 <= CeilDiv(t, c)
  {
    var x := t + c - 1;
    var q := x / c;
    assert x == q * c + x % c && 0 <= x % c < c;
    if q <= k {
      MulMonotone(q, k, c);
      assert false;
    }
  }

  /** `k` chunks that cover `t` are at least ceil(t / c) chunks. */
  lemma CeilDivBelow(k: nat, c: int, t: int)
    requires c > 0 && t <= k * c
    ensures CeilDiv(t, c) <= k
  {
    var x := t + c - 1;
    var q := x / c;
    assert x == q * c + x % c && 0 <= x % c < c;
    if q >= k + 1 {
      MulMonotone(k + 1, q, c);
      assert false;
    }
  }

  // ---------------------------------------------------------------------
  // File names
  // ---------------------------------------------------------------------

  /** Distinct counters name distinct files. */
  lemma FileNameInjective(a: nat, b: nat)
    requires FileName(a) == FileName(b)
    ensures a == b
  {
    var x, y := NatToString(a), NatToString(b);
    assert |x| == |y|;
    assert x == FileName(a)[7..7 + |x|];
    assert y == FileName(b)[7..7 + |y|];
    NatToStringInjective(a, b);
  }

  /** A file name is "filler_", the counter's decimal numeral (digits that
      denote the counter, no leading zero), then ".txt". */
  lemma FileNameFormat(n: nat)
    ensures var name := FileName(n);
            && |name| >= 12 && name[..7] == "filler_" && name[|name| - 4..] == ".txt"
            && var digits := name[7..|name| - 4];
               && (forall i :: 0 <= i < |digits| ==> '0' <= digits[i] <= '9')
               && DecimalValue(digits) == n
               && (|digits| >= 2 ==> digits[0] != '0')
  {
    var name := FileName(n);
    NatToStringValue(n);
    assert name[7..|name| - 4] == NatToString(n);
  }

  /** `os.path.join` keeps the folder as a prefix and the name as a suffix,
      with exactly one separator between them when the folder is not empty. */
  lemma JoinPathFormat(folder: string, name: string)
    ensures var path := JoinPath(folder, name);
            && |folder| + |name| <= |path| <= |folder| + |name| + 1
            && path[..|folder|] == folder && path[|path| - |name|..] == name
            && (folder != [] ==> path[|path| - |name| - 1] == '/')
            && (folder != [] && folder[|folder| - 1] != '/' ==> |path| == |folder| + |name| + 1)
            && (folder == [] || folder[|folder| - 1] == '/' ==> |path| == |folder| + |name|)
  {
  }

  lemma {:induction false} FilesNamedMembers(lo: nat, hi: nat, k: nat)
    ensures FileName(k) in FilesNamed(lo, hi) <==> lo <= k < hi
    decreases hi - lo
  {
    if lo < hi {
      FilesNamedMembers(lo + 1, hi, k);
      if FileName(k) == FileName(lo) {
        FileNameInjective(k, lo);
      }
    }
  }

  /** The names `filler_lo.txt` .. `filler_{hi-1}.txt` are `hi - lo` different names. */
  lemma {:induction false} FilesNamedCount(lo: nat, hi: nat)
    requires lo <= hi
    ensures |FilesNamed(lo, hi)| == hi - lo
    decreases hi - lo
  {
    if lo < hi {
      FilesNamedCount(lo + 1, hi);
      FilesNamedMembers(lo + 1, hi, lo);
    }
  }

  /** Writing files `lo` .. `hi - 1` adds exactly those names, each holding the
      block, and leaves every other file as it was. */
  lemma {:induction false} WithFilesContents(files: map<string, string>, data: string, lo: nat, hi: nat)
    ensures WithFiles(files, data, lo, hi).Keys == files.Keys + FilesNamed(lo, hi)
    ensures forall k :: lo <= k < hi ==>
              FileName(k) in WithFiles(files, data, lo, hi) && WithFiles(files, data, lo, hi)[FileName(k)] == data
    ensures forall n :: n in files && n !in FilesNamed(lo, hi) ==> WithFiles(files, data, lo, hi)[n] == files[n]
    decreases hi - lo
  {
    if lo < hi {
      var next := files[FileName(lo) := data];
      WithFilesContents(next, data, lo + 1, hi);
      FilesNamedMembers(lo + 1, hi, lo);
      forall n | n in files && n !in FilesNamed(lo, hi)
        ensures WithFiles(files, data, lo, hi)[n] == files[n]
      {
        assert n != FileName(lo) && n !in FilesNamed(lo + 1, hi);
      }
    }
  }

  // ---------------------------------------------------------------------
  // Sequences of events
  // ---------------------------------------------------------------------

  lemma {:induction false} EventsAppend(a: seq<Event>, b: seq<Event>)
    ensures Progresses(a + b) == Progresses(a) + Progresses(b)
    ensures Terminals(a + b) == Terminals(a) + Terminals(b)
    decreases |a|
  {
    if a == [] {
      assert a + b == b;
    } else {
      assert (a + b)[0] == a[0];
      assert (a + b)[1..] == a[1..] + b;
      EventsAppend(a[1..], b);
    }
  }

  lemma EventsOne(a: Event)
    ensures Progresses([a]) == (if a.Progress? then [a.value] else [])
    ensures Terminals([a]) == (if a.IsTerminal() then 1 else 0)
  {
    assert [a][1..] == [];
  }

  lemma EventsPair(a: Event, b: Event)
    ensures Progresses([a, b]) == Progresses([a]) + Progresses([b])
    ensures Terminals([a, b]) == Terminals([a]) + Terminals([b])
  {
    EventsAppend([a], [b]);
    assert [a] + [b] == [a, b];
  }

  lemma {:induction false} RepeatedLogs(m: string, n: nat)
    ensures |Repeat(Log(m), n)| == n
    ensures forall i :: 0 <= i < n ==> Repeat(Log(m), n)[i] == Log(m)
    ensures Progresses(Repeat(Log(m), n)) == []
    ensures Terminals(Repeat(Log(m), n)) == 0
  {
    if n > 0 {
      RepeatedLogs(m, n - 1);
      EventsAppend(Repeat(Log(m), n - 1), [Log(m)]);
    }
  }

  /** The i-th of `n` progress values after `written` is
      min(written + (i + 1) * chunk, target). */
  lemma {:induction false} ProgressStepsAt(job: Job, written: int, n: nat)
    decreases n
    ensures |ProgressSteps(job, written, n)| == n
    ensures forall i :: 0 <= i < n ==> ProgressSteps(job, written, n)[i] == Min(written + (i + 1) * job.chunk, job.target)
  {
    if n > 0 {
      var rest := ProgressSteps(job, written + job.chunk, n - 1);
      ProgressStepsAt(job, written + job.chunk, n - 1);
      forall i | 0 < i < n
        ensures ProgressSteps(job, written, n)[i] == Min(written + (i + 1) * job.chunk, job.target)
      {
        assert ProgressSteps(job, written, n)[i] == rest[i - 1];
        MulSucc(i, job.chunk);
      }
    }
  }

  /** Progress values never exceed the target and never decrease. */
  lemma ProgressStepsMonotone(job: Job, written: int, n: nat)
    requires job.chunk > 0
    ensures forall i :: 0 <= i < |ProgressSteps(job, written, n)| ==> ProgressSteps(job, written, n)[i] <= job.target
    ensures forall i, j :: 0 <= i <= j < |ProgressSteps(job, written, n)| ==>
              ProgressSteps(job, written, n)[i] <= ProgressSteps(job, written, n)[j]
  {
    ProgressStepsAt(job, written, n);
    var p := ProgressSteps(job, written, n);
    forall i, j | 0 <= i <= j < |p|
      ensures p[i] <= p[j]
    {
      MulMonotone(i + 1, j + 1, job.chunk);
    }
  }

  // ---------------------------------------------------------------------
  // One pass of the loop body
  // ---------------------------------------------------------------------

  function StepFill(r: StepResult): Fill
  {
    match r
    case Continue(next) => next
    case Exited(e) => e.fill
  }

  predicate Stops(r: StepResult)
  {
    r.Exited? && r.end.exit == StopRequested
  }

  /** The part of a pass that writes: at most one file, counted together
      with its chunk. */
  predicate Advanced(s: Fill, f: Fill, chunk: int)
  {
    || (f.count == s.count && f.written == s.written)
    || (f.count == s.count + 1 && f.written == s.written + chunk)
  }

  /** Progress values emitted between `s` and `f`: the capped new total
      exactly when a file was counted. */
  predicate ReportsProgress(s: Fill, f: Fill, target: int)
  {
    Progresses(f.events) == Progresses(s.events) + (if f.count == s.count then [] else [Min(f.written, target)])
  }

  lemma CheckSpaceSignals(next: Fill, path: string, usage: DiskUsage)
    ensures var f := StepFill(CheckSpace(next, path, usage));
            && f.count == next.count && f.written == next.written
            && Progresses(f.events) == Progresses(next.events)
            && Terminals(f.events) == Terminals(next.events)
  {
    match usage
    case UsageFailed(e) =>
      EventsAppend(next.events, [Log(WriteErrorMsg(path, e))]);
      EventsOne(Log(WriteErrorMsg(path, e)));
    case Free(bytes) =>
      EventsAppend(next.events, [Log(LowSpaceMsg)]);
      EventsOne(Log(LowSpaceMsg));
  }

  lemma AttemptSignals(job: Job, data: string, s: Fill, round: Round)
    requires job.chunk > 0
    ensures var f := StepFill(Attempt(job, data, s, round));
            && Advanced(s, f, job.chunk) && ReportsProgress(s, f, job.target)
            && Terminals(f.events) == Terminals(s.events)
  {
    var path := JoinPath(job.folder, FileName(s.count));
    match round.write
    case WriteFailed(e) =>
      EventsAppend(s.events, [Log(WriteErrorMsg(path, e))]);
      EventsOne(Log(WriteErrorMsg(path, e)));
    case Written =>
      var total := s.written + job.chunk;
      var added := [Log(CreatedMsg(path, job.chunk, total)), Progress(Min(total, job.target))];
      var next := Fill(s.flags, s.folder.(files := s.folder.files[FileName(s.count) := data]), total, s.count + 1,
                       s.events + added);
      assert Attempt(job, data, s, round) == CheckSpace(next, path, round.usage);
      EventsAppend(s.events, added);
      EventsPair(added[0], added[1]);
      EventsOne(added[0]);
      EventsOne(added[1]);
      CheckSpaceSignals(next, path, round.usage);
  }

  /** The three ways through a pass: stop, stay paused, or attempt a write. */
  lemma StepCases(job: Job, data: string, s: Fill, round: Round)
    requires job.chunk > 0
    ensures var flags := ApplyCalls(s.flags, round.calls);
            var p := PauseLoop(flags, round.waits);
            var checked := s.(flags := p.flags, events := s.events + Repeat(Log(PausedMsg), p.logged));
            && (flags.stop ==> Step(job, data, s, round)
                               == Exited(LoopEnd(s.(flags := flags, folder := Absent,
                                                    events := s.events + [Log(StoppingMsg), Stopped]), StopRequested)))
            && (!flags.stop && !p.resumed ==> Step(job, data, s, round) == Exited(LoopEnd(checked, StillPaused)))
            && (!flags.stop && p.resumed ==> Step(job, data, s, round) == Attempt(job, data, checked, round))
  {
  }

  /** One pass writes at most one file; it emits a progress value exactly when
      it wrote one, and that value is the capped new total. It emits no
      terminal signal, except on a stop, whose last signal is `stopped`. */
  lemma StepSignals(job: Job, data: string, s: Fill, round: Round)
    requires job.chunk > 0
    ensures var r := Step(job, data, s, round);
            var f := StepFill(r);
            && Advanced(s, f, job.chunk) && ReportsProgress(s, f, job.target)
            && Terminals(f.events) == Terminals(s.events) + (if Stops(r) then 1 else 0)
            && (Stops(r) ==> f.events == s.events + [Log(StoppingMsg), Stopped])
  {
    StepCases(job, data, s, round);
    var flags := ApplyCalls(s.flags, round.calls);
    if flags.stop {
      EventsAppend(s.events, [Log(StoppingMsg), Stopped]);
      EventsPair(Log(StoppingMsg), Stopped);
      EventsOne(Log(StoppingMsg));
      EventsOne(Stopped);
    } else {
      var p := PauseLoop(flags, round.waits);
      var paused := Repeat(Log(PausedMsg), p.logged);
      EventsAppend(s.events, paused);
      RepeatedLogs(PausedMsg, p.logged);
      if p.resumed {
        AttemptSignals(job, data, s.(flags := p.flags, events := s.events + paused), round);
      }
    }
  }

  /** One pass deletes the folder on a stop or on low space; otherwise the
      folder gains the file it wrote, if any. */
  lemma StepFolder(job: Job, data: string, s: Fill, round: Round)
    requires job.chunk > 0
    ensures var r := Step(job, data, s, round);
            var f := StepFill(r);
            && (r.Continue? ==> f.count == s.count + 1)
            && (if r.Exited? && (r.end.exit == StopRequested || r.end.exit == LowSpace) then f.folder == Absent
                else f.folder == s.folder.(files := WithFiles(s.folder.files, data, s.count, f.count)))
            && (r.Exited? ==> r.end.exit != TargetReached)
  {
    StepSignals(job, data, s, round);
    var f := StepFill(Step(job, data, s, round));
    assert WithFiles(s.folder.files, data, s.count, s.count) == s.folder.files;
    assert WithFiles(s.folder.files, data, s.count, s.count + 1)
        == WithFiles(s.folder.files[FileName(s.count) := data], data, s.count + 1, s.count + 1);
  }

  // ---------------------------------------------------------------------
  // The write loop
  // ---------------------------------------------------------------------

  /** One turn of the loop: a pass that continues leads to the rest of the
      loop, one that exits ends it. */
  lemma LoopUnfold(job: Job, data: string, s: Fill, oracle: nat -> Round)
    requires job.chunk > 0 && s.written < job.target
    ensures var r := Step(job, data, s, oracle(s.count));
            Loop(job, data, s, oracle) == (if r.Continue? then Loop(job, data, r.next, oracle) else r.end)
  {
  }

  /** `total_written == file_count * chunk` holds whenever the loop ends, the
      counter never goes back, and at most ceil(target / chunk) files are
      written; the loop reaches its target only by covering it. */
  lemma {:induction false} LoopCounters(job: Job, data: string, s: Fill, oracle: nat -> Round)
    requires job.chunk > 0 && s.written == s.count * job.chunk
    ensures var r := Loop(job, data, s, oracle);
            && r.fill.written == r.fill.count * job.chunk
            && s.count <= r.fill.count <= Max(s.count, CeilDiv(job.target, job.chunk))
            && (r.exit == TargetReached ==> r.fill.written >= job.target)
    decreases job.target - s.written
  {
    if s.written < job.target {
      CeilDivAbove(s.count, job.chunk, job.target);
      MulSucc(s.count, job.chunk);
      var step := Step(job, data, s, oracle(s.count));
      LoopUnfold(job, data, s, oracle);
      StepSignals(job, data, s, oracle(s.count));
      StepFolder(job, data, s, oracle(s.count));
      if step.Continue? {
        LoopCounters(job, data, step.next, oracle);
      }
    }
  }

  lemma ProgressChain(job: Job, written: int, k: nat, before: seq<int>, middle: seq<int>, after: seq<int>)
    requires middle == before + [Min(written + job.chunk, job.target)]
    requires after == middle + ProgressSteps(job, written + job.chunk, k)
    ensures after == before + ProgressSteps(job, written, k + 1)
  {
  }

  /** The progress values a loop emits are, in order, the capped totals after
      each of its writes. */
  lemma {:induction false} LoopProgress(job: Job, data: string, s: Fill, oracle: nat -> Round)
    requires job.chunk > 0
    ensures var r := Loop(job, data, s, oracle);
            && s.count <= r.fill.count
            && Progresses(r.fill.events) == Progresses(s.events) + ProgressSteps(job, s.written, r.fill.count - s.count)
    decreases job.target - s.written
  {
    if s.written < job.target {
      var step := Step(job, data, s, oracle(s.count));
      LoopUnfold(job, data, s, oracle);
      StepSignals(job, data, s, oracle(s.count));
      if step.Continue? {
        var next := step.next;
        LoopProgress(job, data, next, oracle);
        var r := Loop(job, data, next, oracle);
        ProgressChain(job, s.written, r.fill.count - next.count,
                      Progresses(s.events), Progresses(next.events), Progresses(r.fill.events));
      } else {
        var f := step.end.fill;
        assert ProgressSteps(job, s.written, 0) == [];
        assert f.count == s.count + 1 ==> ProgressSteps(job, s.written, 1) == [Min(f.written, job.target)];
      }
    }
  }

  /** The loop emits no terminal signal except `stopped` on the stop path,
      as its very last signal. */
  lemma {:induction false} LoopTerminals(job: Job, data: string, s: Fill, oracle: nat -> Round)
    requires job.chunk > 0
    ensures var r := Loop(job, data, s, oracle);
            && Terminals(r.fill.events) == Terminals(s.events) + (if r.exit == StopRequested then 1 else 0)
            && (r.exit == StopRequested ==> |r.fill.events| > 0 && r.fill.events[|r.fill.events| - 1] == Stopped)
    decreases job.target - s.written
  {
    if s.written < job.target {
      var step := Step(job, data, s, oracle(s.count));
      LoopUnfold(job, data, s, oracle);
      StepSignals(job, data, s, oracle(s.count));
      if step.Continue? {
        LoopTerminals(job, data, step.next, oracle);
      }
    }
  }

  /** Where the loop leaves the folder: deleted on a stop or on low space;
      otherwise holding what it held plus every file written. */
  lemma {:induction false} LoopFolder(job: Job, data: string, s: Fill, oracle: nat -> Round)
    requires job.chunk > 0
    ensures var r := Loop(job, data, s, oracle);
            && s.count <= r.fill.count
            && (if r.exit == StopRequested || r.exit == LowSpace then r.fill.folder == Absent
                else r.fill.folder == s.folder.(files := WithFiles(s.folder.files, data, s.count, r.fill.count)))
    decreases job.target - s.written
  {
    if s.written < job.target {
      var step := Step(job, data, s, oracle(s.count));
      LoopUnfold(job, data, s, oracle);
      StepFolder(job, data, s, oracle(s.count));
      if step.Continue? {
        LoopFolder(job, data, step.next, oracle);
        assert WithFiles(s.folder.files, data, s.count, Loop(job, data, step.next, oracle).fill.count)
            == WithFiles(step.next.folder.files, data, s.count + 1, Loop(job, data, step.next, oracle).fill.count);
      }
    }
  }

  // ---------------------------------------------------------------------
  // Whole runs
  // ---------------------------------------------------------------------

  /** The state at the start of `run`: nothing written, the folder created if missing. */
  function Initial(flags: Flags, folder: Folder, events: seq<Event>): Fill
  {
    Fill(flags, MakeDirs(folder), 0, 0, events)
  }

  /** After every run, `total_written == file_count * chunk`, and no more than
      ceil(target / chunk) files were written. */
  lemma CounterInvariant(job: Job, data: string, flags: Flags, folder: Folder, events: seq<Event>, oracle: nat -> Round)
    requires job.chunk > 0
    ensures var r := RunFrom(job, data, Initial(flags, folder, events), oracle);
            && r.fill.written == r.fill.count * job.chunk
            && r.fill.count <= Max(0, CeilDiv(job.target, job.chunk))
  {
    LoopCounters(job, data, Initial(flags, folder, events), oracle);
  }

  /** The progress values of a whole run are those of the files it wrote. */
  lemma RunProgresses(job: Job, data: string, flags: Flags, folder: Folder, oracle: nat -> Round)
    requires job.chunk > 0
    ensures var r := RunFrom(job, data, Initial(flags, folder, []), oracle);
            Progresses(r.fill.events) == ProgressSteps(job, 0, r.fill.count)
  {
    var s := Initial(flags, folder, []);
    var e := Loop(job, data, s, oracle);
    LoopProgress(job, data, s, oracle);
    if e.exit != StopRequested && e.exit != StillPaused {
      EventsAppend(e.fill.events, [Log(CompletedMsg), Completed]);
      EventsPair(Log(CompletedMsg), Completed);
      EventsOne(Log(CompletedMsg));
      EventsOne(Completed);
    }
  }

  /** Every progress value of a run is min(total written, target), the
      values never decrease and never exceed the target. */
  lemma ProgressIsCappedTotal(job: Job, data: string, flags: Flags, folder: Folder, oracle: nat -> Round)
    requires job.chunk > 0
    ensures var r := RunFrom(job, data, Initial(flags, folder, []), oracle);
            var p := Progresses(r.fill.events);
            && |p| == r.fill.count
            && (forall i :: 0 <= i < |p| ==> p[i] == Min((i + 1) * job.chunk, job.target))
            && (forall i :: 0 <= i < |p| ==> p[i] <= job.target)
            && (forall i, j :: 0 <= i <= j < |p| ==> p[i] <= p[j])
  {
    var r := RunFrom(job, data, Initial(flags, folder, []), oracle);
    RunProgresses(job, data, flags, folder, oracle);
    ProgressStepsAt(job, 0, r.fill.count);
    ProgressStepsMonotone(job, 0, r.fill.count);
  }

  /** A run that ends emits exactly one terminal signal, as its last signal:
      `stopped` exactly when it ended on an explicit stop, `completed`
      otherwise, right after the "Process completed." log. A run left paused
      emits none. */
  lemma OneTerminalEvent(job: Job, data: string, s: Fill, oracle: nat -> Round)
    requires job.chunk > 0
    ensures var r := RunFrom(job, data, s, oracle);
            var evs := r.fill.events;
            && (r.exit == StillPaused ==> Terminals(evs) == Terminals(s.events))
            && (r.exit != StillPaused ==>
                  && Terminals(evs) == Terminals(s.events) + 1
                  && |evs| > 0 && evs[|evs| - 1] == (if r.exit == StopRequested then Stopped else Completed))
            && (r.exit != StopRequested && r.exit != StillPaused ==>
                  |evs| >= 2 && evs[|evs| - 2] == Log(CompletedMsg))
  {
    var e := Loop(job, data, s, oracle);
    LoopTerminals(job, data, s, oracle);
    if e.exit != StopRequested && e.exit != StillPaused {
      EventsAppend(e.fill.events, [Log(CompletedMsg), Completed]);
      EventsPair(Log(CompletedMsg), Completed);
      EventsOne(Log(CompletedMsg));
      EventsOne(Completed);
    }
  }

  /** Every run that ends leaves no job folder behind; a run left paused has
      the folder with every file written so far. */
  lemma FolderGoneAtEnd(job: Job, data: string, s: Fill, oracle: nat -> Round)
    requires job.chunk > 0
    ensures var r := RunFrom(job, data, s, oracle);
            && (r.exit != StillPaused ==> r.fill.folder == Absent)
            && (r.exit == StillPaused ==> r.fill.folder == s.folder.(files := WithFiles(s.folder.files, data, s.count, r.fill.count)))
  {
    LoopFolder(job, data, s, oracle);
  }

  /** What a caller of `run` observes: a run that ends leaves no folder and
      has emitted exactly one terminal signal, as its last signal; a run left
      paused has emitted none. */
  lemma RunOutcome(job: Job, data: string, s: Fill, oracle: nat -> Round)
    requires job.chunk > 0
    ensures var r := RunFrom(job, data, s, oracle);
            var evs := r.fill.events;
            && (r.exit != StillPaused ==>
                  && !r.fill.folder.present && r.fill.folder.files == map[]
                  && Terminals(evs) == Terminals(s.events) + 1
                  && |evs| > 0 && evs[|evs| - 1].IsTerminal())
            && (r.exit == StillPaused ==> Terminals(evs) == Terminals(s.events))
  {
    FolderGoneAtEnd(job, data, s, oracle);
    OneTerminalEvent(job, data, s, oracle);
  }

  // ---------------------------------------------------------------------
  // Particular environments
  // ---------------------------------------------------------------------

  /** No stop or pause call, every write succeeds, free space stays above the floor. */
  ghost predicate Undisturbed(oracle: nat -> Round)
  {
    forall i: nat :: Stop !in oracle(i).calls && Pause !in oracle(i).calls
                     && oracle(i).write == Written && oracle(i).usage.Free?
                     && oracle(i).usage.bytes >= LowSpaceFloor
  }

  /** One undisturbed pass writes the next file and reports it. */
  lemma UndisturbedStep(job: Job, data: string, s: Fill, round: Round)
    requires job.chunk > 0 && s.flags == Flags(false, false)
    requires Stop !in round.calls && Pause !in round.calls && round.write == Written
    requires round.usage.Free? && round.usage.bytes >= LowSpaceFloor
    ensures var total := s.written + job.chunk;
            Step(job, data, s, round)
            == Continue(Fill(s.flags, s.folder.(files := s.folder.files[FileName(s.count) := data]), total, s.count + 1,
                             s.events + [Log(CreatedMsg(JoinPath(job.folder, FileName(s.count)), job.chunk, total)),
                                         Progress(Min(total, job.target))]))
  {
    assert ApplyCalls(s.flags, round.calls) == s.flags;
    assert Repeat(Log(PausedMsg), 0) == [];
  }

  lemma AppendChain<T>(a: seq<T>, b: seq<T>, c: seq<T>, x: seq<T>, y: seq<T>)
    requires x == a + b && y == x + c
    ensures y == a + (b + c)
  {
  }

  lemma FillEventsHead(job: Job, lo: nat, hi: nat)
    requires job.chunk > 0 && lo < hi
    ensures var total := (lo + 1) * job.chunk;
            FillEvents(job, lo, hi)
            == [Log(CreatedMsg(JoinPath(job.folder, FileName(lo)), job.chunk, total)), Progress(Min(total, job.target))]
               + FillEvents(job, lo + 1, hi)
  {
  }

  lemma {:induction false} UndisturbedLoop(job: Job, data: string, s: Fill, oracle: nat -> Round)
    requires job.chunk > 0 && Undisturbed(oracle) && s.flags == Flags(false, false)
    requires s.written == s.count * job.chunk
    ensures var r := Loop(job, data, s, oracle);
            && r.exit == TargetReached
            && r.fill.count == Max(s.count, CeilDiv(job.target, job.chunk))
            && r.fill.folder == s.folder.(files := WithFiles(s.folder.files, data, s.count, r.fill.count))
            && r.fill.events == s.events + FillEvents(job, s.count, r.fill.count)
    decreases job.target - s.written
  {
    if s.written >= job.target {
      CeilDivBelow(s.count, job.chunk, job.target);
    } else {
      CeilDivAbove(s.count, job.chunk, job.target);
      MulSucc(s.count, job.chunk);
      var round := oracle(s.count);
      var step := Step(job, data, s, round);
      UndisturbedStep(job, data, s, round);
      LoopUnfold(job, data, s, oracle);
      var next := step.next;
      UndisturbedLoop(job, data, next, oracle);
      var r := Loop(job, data, next, oracle);
      var total := s.written + job.chunk;
      var written := [Log(CreatedMsg(JoinPath(job.folder, FileName(s.count)), job.chunk, total)),
                      Progress(Min(total, job.target))];
      FillEventsHead(job, s.count, r.fill.count);
      assert FillEvents(job, s.count, r.fill.count) == written + FillEvents(job, s.count + 1, r.fill.count);
      AppendChain(s.events, written, FillEvents(job, s.count + 1, r.fill.count), next.events, r.fill.events);
      assert WithFiles(s.folder.files, data, s.count, r.fill.count) == WithFiles(next.folder.files, data, s.count + 1, r.fill.count);
      assert r.fill.count == Max(s.count, CeilDiv(job.target, job.chunk));
    }
  }

  /** With no stop, no pause, no write error and enough free space, a run
      writes exactly ceil(target / chunk) files `filler_0.txt`, ... (each
      holding the block), emits one "Created" log and one progress value per
      file, then logs completion, deletes the folder and emits `completed`. */
  lemma UndisturbedRun(job: Job, data: string, folder: Folder, oracle: nat -> Round)
    requires job.chunk > 0 && job.target > 0 && Undisturbed(oracle)
    ensures var s := Initial(Flags(false, false), folder, []);
            var e := Loop(job, data, s, oracle);
            var n := CeilDiv(job.target, job.chunk);
            && e.exit == TargetReached
            && e.fill.count == n
            && e.fill.folder.files.Keys == MakeDirs(folder).files.Keys + FilesNamed(0, n)
            && |FilesNamed(0, n)| == n
            && (forall k :: 0 <= k < n ==> FileName(k) in e.fill.folder.files && e.fill.folder.files[FileName(k)] == data)
            && RunFrom(job, data, s, oracle).fill
               == e.fill.(folder := Absent, events := FillEvents(job, 0, n) + [Log(CompletedMsg), Completed])
  {
    var s := Initial(Flags(false, false), folder, []);
    var n := CeilDiv(job.target, job.chunk);
    CeilDivAbove(0, job.chunk, job.target);
    assert Max(0, n) == n;
    UndisturbedLoop(job, data, s, oracle);
    var e := Loop(job, data, s, oracle);
    assert e.fill.count == n;
    WithFilesContents(s.folder.files, data, 0, n);
    FilesNamedCount(0, n);
    assert RunFrom(job, data, s, oracle) == Finish(e);
  }

  /** Once the stop flag is set, the next loop-top check ends the run: no
      further file, the stopping log, folder deleted, `stopped`. */
  lemma StopAtLoopTop(job: Job, data: string, s: Fill, oracle: nat -> Round)
    requires job.chunk > 0 && s.written < job.target
    requires s.flags.stop || Stop in oracle(s.count).calls
    ensures RunFrom(job, data, s, oracle)
         == LoopEnd(s.(flags := ApplyCalls(s.flags, oracle(s.count).calls), folder := Absent,
                       events := s.events + [Log(StoppingMsg), Stopped]), StopRequested)
  {
  }

  /** A write that raises, in a pass that reaches the write (after a pause
      and resume or without one), ends the run without counting the file or
      reporting progress for it: error log, completion log, folder deleted,
      `completed`. */
  lemma WriteErrorEndsRun(job: Job, data: string, s: Fill, oracle: nat -> Round, error: string)
    requires job.chunk > 0 && s.written < job.target
    requires !ApplyCalls(s.flags, oracle(s.count).calls).stop
    requires PauseLoop(ApplyCalls(s.flags, oracle(s.count).calls), oracle(s.count).waits).resumed
    requires oracle(s.count).write == WriteFailed(error)
    ensures var r := RunFrom(job, data, s, oracle);
            var p := PauseLoop(ApplyCalls(s.flags, oracle(s.count).calls), oracle(s.count).waits);
            && r.exit == WriteError
            && r.fill.written == s.written && r.fill.count == s.count
            && r.fill.folder == Absent
            && r.fill.events == s.events + Repeat(Log(PausedMsg), p.logged)
                                + [Log(WriteErrorMsg(JoinPath(job.folder, FileName(s.count)), error)),
                                   Log(CompletedMsg), Completed]
  {
  }

  /** A free-space query that raises after a successful write ends the run
      like a failed write, but the file is already counted and reported: the
      error log names the file just written. */
  lemma UsageErrorEndsRun(job: Job, data: string, s: Fill, oracle: nat -> Round, error: string)
    requires job.chunk > 0 && s.written < job.target
    requires !ApplyCalls(s.flags, oracle(s.count).calls).stop
    requires PauseLoop(ApplyCalls(s.flags, oracle(s.count).calls), oracle(s.count).waits).resumed
    requires oracle(s.count).write == Written && oracle(s.count).usage == UsageFailed(error)
    ensures var r := RunFrom(job, data, s, oracle);
            var p := PauseLoop(ApplyCalls(s.flags, oracle(s.count).calls), oracle(s.count).waits);
            var path := JoinPath(job.folder, FileName(s.count));
            var total := s.written + job.chunk;
            && r.exit == UsageError
            && r.fill.written == total && r.fill.count == s.count + 1
            && r.fill.folder == Absent
            && r.fill.events == s.events + Repeat(Log(PausedMsg), p.logged)
                                + [Log(CreatedMsg(path, job.chunk, total)), Progress(Min(total, job.target)),
                                   Log(WriteErrorMsg(path, error)), Log(CompletedMsg), Completed]
  {
  }

  /** Free space below 10 MiB after a write ends the run, whether or not the
      pass was paused first: the file is counted and reported, then the
      low-space log, folder deleted, completion, and no further write. */
  lemma LowSpaceEndsRun(job: Job, data: string, s: Fill, oracle: nat -> Round, bytes: nat)
    requires job.chunk > 0 && s.written < job.target
    requires !ApplyCalls(s.flags, oracle(s.count).calls).stop
    requires PauseLoop(ApplyCalls(s.flags, oracle(s.count).calls), oracle(s.count).waits).resumed
    requires oracle(s.count).write == Written && oracle(s.count).usage == Free(bytes) && bytes < LowSpaceFloor
    ensures var r := RunFrom(job, data, s, oracle);
            var p := PauseLoop(ApplyCalls(s.flags, oracle(s.count).calls), oracle(s.count).waits);
            var total := s.written + job.chunk;
            && r.exit == LowSpace
            && r.fill.written == total && r.fill.count == s.count + 1
            && r.fill.folder == Absent
            && r.fill.events == s.events + Repeat(Log(PausedMsg), p.logged)
                                + [Log(CreatedMsg(JoinPath(job.folder, FileName(s.count)), job.chunk, total)),
                                   Progress(Min(total, job.target)),
                                   Log(LowSpaceMsg), Log(CompletedMsg), Completed]
  {
  }

  /** While paused, nothing is written: with no resume among the calls made
      during the waits, the worker logs "Paused." once per wake-up and one more
      time, writes no file and emits no terminal event. */
  lemma PausedWithoutResume(job: Job, data: string, s: Fill, oracle: nat -> Round)
    requires job.chunk > 0 && s.written < job.target
    requires ApplyCalls(s.flags, oracle(s.count).calls) == Flags(false, true)
    requires forall i :: 0 <= i < |oracle(s.count).waits| ==> Resume !in oracle(s.count).waits[i]
    ensures var r := RunFrom(job, data, s, oracle);
            && r.exit == StillPaused
            && r.fill.count == s.count && r.fill.written == s.written
            && r.fill.folder == s.folder
            && r.fill.events == s.events + Repeat(Log(PausedMsg), |oracle(s.count).waits| + 1)
  {
    var waits := oracle(s.count).waits;
    StaysPaused(ApplyCalls(s.flags, oracle(s.count).calls), waits);
  }

  /** `stop` calls leave the pause flag as it was. */
  lemma {:induction false} OnlyStopsKeepPause(f: Flags, calls: seq<Control>)
    requires forall i :: 0 <= i < |calls| ==> calls[i] == Stop
    ensures ApplyCalls(f, calls).pause == f.pause
    decreases |calls|
  {
    if calls != [] {
      var rest := calls[1..];
      assert forall k :: 0 <= k < |rest| ==> rest[k] == calls[k + 1];
      OnlyStopsKeepPause(ApplyCall(f, calls[0]), rest);
    }
  }

  /** The pause flag after the controller's calls follows the last `pause`
      or `resume` among them: when `calls[i]` is one and only `stop` calls
      follow it, the flag is set exactly when `calls[i]` is `pause`. */
  lemma {:induction false} LastPauseCallWins(f: Flags, calls: seq<Control>, i: nat)
    requires i < |calls| && calls[i] != Stop
    requires forall j :: i < j < |calls| ==> calls[j] == Stop
    ensures ApplyCalls(f, calls).pause == (calls[i] == Pause)
    decreases i
  {
    var rest := calls[1..];
    assert forall k :: 0 <= k < |rest| ==> rest[k] == calls[k + 1];
    if i == 0 {
      OnlyStopsKeepPause(ApplyCall(f, calls[0]), rest);
    } else {
      LastPauseCallWins(ApplyCall(f, calls[0]), rest, i - 1);
    }
  }

  /** The pause wait sets the stop flag only if it was set before or a
      `stop` call arrived during one of the waits. */
  lemma {:induction false} PauseLoopStopBound(f: Flags, waits: seq<seq<Control>>)
    ensures PauseLoop(f, waits).flags.stop ==> f.stop || exists k :: 0 <= k < |waits| && Stop in waits[k]
    decreases |waits|
  {
    if f.pause && waits != [] {
      var g := ApplyCalls(f, waits[0]);
      PauseLoopStopBound(g, waits[1..]);
      if PauseLoop(f, waits).flags.stop && !f.stop {
        if g.stop {
          assert Stop in waits[0];
        } else {
          var k :| 0 <= k < |waits[1..]| && Stop in waits[1..][k];
          assert waits[1..][k] == waits[k + 1];
        }
      }
    }
  }

  /** With no `resume` among the calls made during the waits, the pause
      wait never ends, whether or not a stop arrives meanwhile: it logs
      "Paused." once per wake-up and once more. */
  lemma {:induction false} StaysPaused(f: Flags, waits: seq<seq<Control>>)
    requires f.pause
    requires forall i :: 0 <= i < |waits| ==> Resume !in waits[i]
    ensures var p := PauseLoop(f, waits);
            !p.resumed && p.logged == |waits| + 1 && p.flags.pause
    decreases |waits|
  {
    if waits != [] {
      StaysPaused(ApplyCalls(f, waits[0]), waits[1..]);
    }
  }

  /** The pause wait ends at the first wake-up that finds the pause flag
      clear; it has then logged "Paused." once per wait so far, and the flags
      are those the calls up to that wake-up leave. */
  lemma {:induction false} PauseEndsAtFirstClear(f: Flags, waits: seq<seq<Control>>, i: nat)
    requires i < |waits|
    requires forall k :: 0 <= k <= i ==> FlagsAfterWaits(f, waits, k).pause
    requires !FlagsAfterWaits(f, waits, i + 1).pause
    ensures PauseLoop(f, waits) == PauseEnd(FlagsAfterWaits(f, waits, i + 1), i + 1, true)
    decreases i
  {
    var g := ApplyCalls(f, waits[0]);
    assert FlagsAfterWaits(f, waits, 0).pause;
    if i > 0 {
      forall k | 0 <= k <= i - 1
        ensures FlagsAfterWaits(g, waits[1..], k).pause
      {
        assert FlagsAfterWaits(f, waits, k + 1) == FlagsAfterWaits(g, waits[1..], k);
      }
      assert FlagsAfterWaits(f, waits, i + 1) == FlagsAfterWaits(g, waits[1..], i);
      PauseEndsAtFirstClear(g, waits[1..], i - 1);
    } else {
      assert FlagsAfterWaits(f, waits, 1) == FlagsAfterWaits(g, waits[1..], 0);
    }
  }

  /** When no wake-up finds the pause flag clear, the wait outlasts every
      wake-up, logging once per wait and once more. */
  lemma {:induction false} PauseNeverClears(f: Flags, waits: seq<seq<Control>>)
    requires forall k :: 0 <= k <= |waits| ==> FlagsAfterWaits(f, waits, k).pause
    ensures PauseLoop(f, waits) == PauseEnd(FlagsAfterWaits(f, waits, |waits|), |waits| + 1, false)
    decreases |waits|
  {
    assert FlagsAfterWaits(f, waits, 0).pause;
    if waits != [] {
      var g := ApplyCalls(f, waits[0]);
      var rest := waits[1..];
      forall k | 0 <= k <= |rest|
        ensures FlagsAfterWaits(g, rest, k).pause
      {
        assert FlagsAfterWaits(f, waits, k + 1) == FlagsAfterWaits(g, rest, k);
      }
      assert FlagsAfterWaits(f, waits, |rest| + 1) == FlagsAfterWaits(g, rest, |rest|);
      PauseNeverClears(g, rest);
      var p := PauseLoop(g, rest);
      assert PauseLoop(f, waits) == p.(logged := p.logged + 1);
    } else {
      assert PauseLoop(f, waits) == PauseEnd(f, 1, false);
    }
  }

  /** A stop issued while paused is not seen by the pause wait: after the
      resume the worker writes one more file, and only the next loop-top
      check stops it. */
  lemma StopWhilePausedWritesOnceMore(job: Job, data: string, s: Fill, oracle: nat -> Round, during: seq<Control>)
    requires job.chunk > 0 && s.written + job.chunk < job.target
    requires ApplyCalls(s.flags, oracle(s.count).calls) == Flags(false, true)
    requires oracle(s.count).waits == [during] && Stop in during && during[|during| - 1] == Resume
    requires oracle(s.count).write == Written
    requires oracle(s.count).usage.Free? && oracle(s.count).usage.bytes >= LowSpaceFloor
    ensures var r := RunFrom(job, data, s, oracle);
            && r.exit == StopRequested
            && r.fill.count == s.count + 1
            && r.fill.written == s.written + job.chunk
            && |r.fill.events| > 0 && r.fill.events[|r.fill.events| - 1] == Stopped
  {
    var round := oracle(s.count);
    var f := ApplyCalls(Flags(false, true), during);
    assert f == Flags(true, false);
    assert PauseLoop(Flags(false, true), round.waits) == PauseEnd(f, 1, true);
    match Step(job, data, s, round)
    case Continue(next) =>
      assert next.flags.stop && next.written < job.target;
      StopAtLoopTop(job, data, next, oracle);
    case Exited(e) =>
      assert false;
  }

  /** ... and when that one more file reaches the target, the loop ends
      normally: the run completes instead of stopping. */
  lemma StopWhilePausedCanComplete(job: Job, data: string, s: Fill, oracle: nat -> Round, during: seq<Control>)
    requires job.chunk > 0 && s.written < job.target <= s.written + job.chunk
    requires ApplyCalls(s.flags, oracle(s.count).calls) == Flags(false, true)
    requires oracle(s.count).waits == [during] && Stop in during && during[|during| - 1] == Resume
    requires oracle(s.count).write == Written
    requires oracle(s.count).usage.Free? && oracle(s.count).usage.bytes >= LowSpaceFloor
    ensures var r := RunFrom(job, data, s, oracle);
            && r.exit == TargetReached
            && r.fill.flags.stop
            && r.fill.count == s.count + 1
            && |r.fill.events| > 0 && r.fill.events[|r.fill.events| - 1] == Completed
  {
    var round := oracle(s.count);
    var f := ApplyCalls(Flags(false, true), during);
    assert f == Flags(true, false);
    assert PauseLoop(Flags(false, true), round.waits) == PauseEnd(f, 1, true);
    match Step(job, data, s, round)
    case Continue(next) =>
      assert Loop(job, data, next, oracle) == LoopEnd(next, TargetReached);
    case Exited(e) =>
      assert false;
  }

  // ---------------------------------------------------------------------
  // Worked examples
  // ---------------------------------------------------------------------

  /** The signals of an undisturbed run: one progress value per file, ending
      with `completed`. */
  lemma UndisturbedSignals(job: Job, data: string, folder: Folder, oracle: nat -> Round)
    requires job.chunk > 0 && job.target > 0 && Undisturbed(oracle)
    ensures var r := RunFrom(job, data, Initial(Flags(false, false), folder, []), oracle);
            var n := CeilDiv(job.target, job.chunk);
            && r.fill.count == n
            && r.fill.written == n * job.chunk
            && r.fill.folder == Absent
            && Progresses(r.fill.events) == ProgressSteps(job, 0, n)
            && |r.fill.events| > 0 && r.fill.events[|r.fill.events| - 1] == Completed
  {
    UndisturbedRun(job, data, folder, oracle);
    RunProgresses(job, data, Flags(false, false), folder, oracle);
    CounterInvariant(job, data, Flags(false, false), folder, [], oracle);
  }

  /** Target 10 MiB in 5 MiB chunks: two files, progress [5, 10], `completed`. */
  lemma TenInChunksOfFive(job: Job, data: string, folder: Folder, oracle: nat -> Round)
    requires job.target == 10 && job.chunk == 5 && Undisturbed(oracle)
    ensures var r := RunFrom(job, data, Initial(Flags(false, false), folder, []), oracle);
            && r.fill.count == 2
            && Progresses(r.fill.events) == [5, 10]
            && |r.fill.events| > 0 && r.fill.events[|r.fill.events| - 1] == Completed
            && r.fill.folder == Absent
  {
    assert CeilDiv(10, 5) == 2;
    UndisturbedSignals(job, data, folder, oracle);
    assert ProgressSteps(job, 0, 2) == [Min(5, 10)] + ProgressSteps(job, 5, 1);
    assert ProgressSteps(job, 5, 1) == [Min(10, 10)] + ProgressSteps(job, 10, 0);
  }

  /** Target 10 MiB in 3 MiB chunks: four files, progress [3, 6, 9, 10]; the
      last file still holds a full chunk. */
  lemma TenInChunksOfThree(job: Job, data: string, folder: Folder, oracle: nat -> Round)
    requires job.target == 10 && job.chunk == 3 && Undisturbed(oracle)
    ensures var r := RunFrom(job, data, Initial(Flags(false, false), folder, []), oracle);
            && r.fill.count == 4
            && r.fill.written == 12
            && Progresses(r.fill.events) == [3, 6, 9, 10]
            && |r.fill.events| > 0 && r.fill.events[|r.fill.events| - 1] == Completed
  {
    assert CeilDiv(10, 3) == 4;
    UndisturbedSignals(job, data, folder, oracle);
    assert ProgressSteps(job, 0, 4) == [Min(3, 10)] + ProgressSteps(job, 3, 3);
    assert ProgressSteps(job, 3, 3) == [Min(6, 10)] + ProgressSteps(job, 6, 2);
    assert ProgressSteps(job, 6, 2) == [Min(9, 10)] + ProgressSteps(job, 9, 1);
    assert ProgressSteps(job, 9, 1) == [Min(12, 10)] + ProgressSteps(job, 12, 0);
  }
}
