/** Reference semantics of one run of the disk filler worker (app.py:46-85).

    The outside world is abstract. The job folder is a `Folder` value. The
    controller's stop/pause/resume calls, the outcome of each file write and
    each free-space reading come from an oracle `nat -> Round`, indexed by the
    worker's file counter: every iteration that goes on to the next one has
    written exactly one file, so the counter also numbers the iterations.
    The worker's signals are an appended sequence of `Event`s. */
module FillSpec {
  import opened Decimal

  /** Free-space floor checked after every write: 10 MiB, in bytes. */
  const LowSpaceFloor: nat := 10 * 1024 * 1024

  const StoppingMsg: string := "Stopping process and deleting folder..."
  const PausedMsg: string := "Paused."
  const LowSpaceMsg: string := "Disk space is low. Deleting filler folder..."
  const CompletedMsg: string := "Process completed."

  /** The worker's signals: `progress`, `log`, `completed` and `stopped`. */
  datatype Event = Progress(value: int) | Log(message: string) | Completed | Stopped
  {
    predicate IsTerminal() { Completed? || Stopped? }
  }

  /** A controller call: `stop()`, `pause()` or `resume()`. */
  datatype Control = Stop | Pause | Resume

  datatype WriteResult = Written | WriteFailed(error: string)

  /** The free-space reading taken after a write; reading it can itself raise. */
  datatype DiskUsage = Free(bytes: nat) | UsageFailed(error: string)

  /** What the environment does during one iteration: the controller calls
      that land before the stop check, the calls made during each pause wait
      (each wait ends with a wake-up), the outcome of the write and the
      free-space reading that follows a successful write. */
  datatype Round = Round(calls: seq<Control>, waits: seq<seq<Control>>, write: WriteResult, usage: DiskUsage)

  /** The worker's immutable configuration (the drive letter only feeds the
      free-space reading, which the oracle supplies). */
  datatype Job = Job(folder: string, target: int, chunk: int)

  datatype Flags = Flags(stop: bool, pause: bool)

  /** The job folder: whether it exists, and file name to content. */
  datatype Folder = Folder(present: bool, files: map<string, string>)

  /** Run state: flags, folder, `total_written`, `file_count`, signals so far. */
  datatype Fill = Fill(flags: Flags, folder: Folder, written: nat, count: nat, events: seq<Event>)

  /** Why the write loop ended. `StillPaused`: the worker waits on the pause
      condition and the environment never wakes it again. */
  datatype Exit = TargetReached | LowSpace | WriteError | UsageError | StopRequested | StillPaused

  datatype LoopEnd = LoopEnd(fill: Fill, exit: Exit)

  datatype PauseEnd = PauseEnd(flags: Flags, logged: nat, resumed: bool)

  datatype StepResult = Continue(next: Fill) | Exited(end: LoopEnd)

  function Min(a: int, b: int): int { if a <= b then a else b }

  function Max(a: int, b: int): int { if a >= b then a else b }

  /** ceil(t / c) for c > 0 (Dafny's `/` floors for a positive divisor). */
  function CeilDiv(t: int, c: int): int
    requires c > 0
  {
    (t + c - 1) / c
  }

  function Repeat<T>(x: T, n: nat): seq<T>
  {
    if n == 0 then [] else Repeat(x, n - 1) + [x]
  }

  /** `f'filler_{file_count}.txt'` */
  function FileName(n: nat): string
  {
    "filler_" + NatToString(n) + ".txt"
  }

  /** `os.path.join(folder, name)` for a relative name, POSIX separator. */
  function JoinPath(folder: string, name: string): string
  {
    if folder == [] || folder[|folder| - 1] == '/' then folder + name else folder + "/" + name
  }

  function CreatedMsg(path: string, chunk: nat, total: nat): string
  {
    "Created " + path + " of size " + NatToString(chunk) + " MB. Total written: " + NatToString(total) + " MB."
  }

  function WriteErrorMsg(path: string, error: string): string
  {
    "Error writing file " + path + ": " + error
  }

  /** `os.makedirs` when the folder is missing; an existing folder keeps its files. */
  function MakeDirs(f: Folder): (r: Folder)
    ensures r.present
    ensures f.present ==> r == f
    ensures !f.present ==> r.files == map[]
  {
    Folder(true, if f.present then f.files else map[])
  }

  /** The folder after `delete_directory` (app.py:23-25), whether or not it existed. */
  const Absent: Folder := Folder(false, map[])

  function ApplyCall(f: Flags, c: Control): Flags
  {
    match c
    case Stop => f.(stop := true)
    case Pause => f.(pause := true)
    case Resume => f.(pause := false)
  }

  /** The flags after the controller's calls, in order. */
  function ApplyCalls(f: Flags, calls: seq<Control>): (r: Flags)
    ensures r.stop <==> f.stop || Stop in calls
    ensures r.pause ==> f.pause || Pause in calls
    ensures !r.pause ==> !f.pause || Resume in calls
    ensures |calls| > 0 && calls[|calls| - 1] == Pause ==> r.pause
    ensures |calls| > 0 && calls[|calls| - 1] == Resume ==> !r.pause
    decreases |calls|
  {
    if calls == [] then f else ApplyCalls(ApplyCall(f, calls[0]), calls[1..])
  }

  /** `while self.pause_flag: log "Paused."; wait` where the i-th wait
      returns after the calls `waits[i]`; `resumed` is false when the flag is
      still set after the last wake-up the environment provides. */
  function PauseLoop(f: Flags, waits: seq<seq<Control>>): (r: PauseEnd)
    ensures r.resumed <==> !r.flags.pause
    ensures !f.pause ==> r == PauseEnd(f, 0, true)
    ensures f.pause ==> 1 <= r.logged <= |waits| + 1
    ensures !r.resumed ==> r.logged == |waits| + 1
    ensures f.stop ==> r.flags.stop
    decreases |waits|
  {
    if !f.pause then PauseEnd(f, 0, true)
    else if waits == [] then PauseEnd(f, 1, false)
    else
      var rest := PauseLoop(ApplyCalls(f, waits[0]), waits[1..]);
      rest.(logged := rest.logged + 1)
  }

  /** The flags after the calls made during the first `k` pause waits. */
  function FlagsAfterWaits(f: Flags, waits: seq<seq<Control>>, k: nat): Flags
    requires k <= |waits|
    decreases k
  {
    if k == 0 then f else FlagsAfterWaits(ApplyCalls(f, waits[0]), waits[1..], k - 1)
  }

  /** One pass of the loop body of `run`, entered with `written < target`:
      the stop check, the pause wait, then the write attempt. */
  function Step(job: Job, data: string, s: Fill, round: Round): (r: StepResult)
    requires job.chunk > 0
    ensures r.Continue? ==> r.next.written == s.written + job.chunk && r.next.count == s.count + 1
  {
    var flags := ApplyCalls(s.flags, round.calls);
    if flags.stop then
      Exited(LoopEnd(s.(flags := flags, folder := Absent,
                        events := s.events + [Log(StoppingMsg), Stopped]), StopRequested))
    else
      var p := PauseLoop(flags, round.waits);
      var checked := s.(flags := p.flags, events := s.events + Repeat(Log(PausedMsg), p.logged));
      if !p.resumed then Exited(LoopEnd(checked, StillPaused))
      else Attempt(job, data, checked, round)
  }

  /** The `try` block of `run`: write file number `count`, count it, report
      it, then read the free space. */
  function Attempt(job: Job, data: string, s: Fill, round: Round): (r: StepResult)
    requires job.chunk > 0
    ensures r.Continue? ==> r.next.written == s.written + job.chunk && r.next.count == s.count + 1
  {
    var name := FileName(s.count);
    var path := JoinPath(job.folder, name);
    match round.write
    case WriteFailed(e) =>
      Exited(LoopEnd(s.(events := s.events + [Log(WriteErrorMsg(path, e))]), WriteError))
    case Written =>
      var total := s.written + job.chunk;
      var next := Fill(s.flags, s.folder.(files := s.folder.files[name := data]), total, s.count + 1,
                       s.events + [Log(CreatedMsg(path, job.chunk, total)), Progress(Min(total, job.target))]);
      CheckSpace(next, path, round.usage)
  }

  /** The free-space check after a successful write of `path`. */
  function CheckSpace(next: Fill, path: string, usage: DiskUsage): (r: StepResult)
    ensures r.Continue? ==> r.next == next
  {
    match usage
    case UsageFailed(e) =>
      Exited(LoopEnd(next.(events := next.events + [Log(WriteErrorMsg(path, e))]), UsageError))
    case Free(bytes) =>
      if bytes < LowSpaceFloor then
        Exited(LoopEnd(next.(folder := Absent, events := next.events + [Log(LowSpaceMsg)]), LowSpace))
      else
        Continue(next)
  }

  /** `while total_written < target_size_mb: ...` */
  function Loop(job: Job, data: string, s: Fill, oracle: nat -> Round): LoopEnd
    requires job.chunk > 0
    decreases job.target - s.written
  {
    if s.written >= job.target then LoopEnd(s, TargetReached)
    else
      match Step(job, data, s, oracle(s.count))
      case Continue(next) => Loop(job, data, next, oracle)
      case Exited(e) => e
  }

  /** The code after the loop: every exit but an explicit stop (which has
      already returned) logs completion, deletes the folder, emits `completed`. */
  function Finish(e: LoopEnd): LoopEnd
  {
    if e.exit == StopRequested || e.exit == StillPaused then e
    else LoopEnd(e.fill.(folder := Absent,
                         events := e.fill.events + [Log(CompletedMsg), Completed]), e.exit)
  }

  function RunFrom(job: Job, data: string, s: Fill, oracle: nat -> Round): LoopEnd
    requires job.chunk > 0
  {
    Finish(Loop(job, data, s, oracle))
  }

  /** The files the loop writes for counters `lo` .. `hi - 1`, over `files`. */
  function WithFiles(files: map<string, string>, data: string, lo: nat, hi: nat): map<string, string>
    decreases hi - lo
  {
    if lo >= hi then files else WithFiles(files[FileName(lo) := data], data, lo + 1, hi)
  }

  function FilesNamed(lo: nat, hi: nat): set<string>
    decreases hi - lo
  {
    if lo >= hi then {} else {FileName(lo)} + FilesNamed(lo + 1, hi)
  }

  /** The progress values among `events`, in order. */
  function Progresses(events: seq<Event>): seq<int>
  {
    if events == [] then []
    else (if events[0].Progress? then [events[0].value] else []) + Progresses(events[1..])
  }

  /** The progress values of `n` more writes after `written`: each reports
      its new total, capped at the target. */
  function ProgressSteps(job: Job, written: int, n: nat): seq<int>
    decreases n
  {
    if n == 0 then [] else [Min(written + job.chunk, job.target)] + ProgressSteps(job, written + job.chunk, n - 1)
  }

  /** The signals of undisturbed writes numbered `lo` .. `hi - 1`. */
  function FillEvents(job: Job, lo: nat, hi: nat): seq<Event>
    requires job.chunk > 0
    decreases hi - lo
  {
    if lo >= hi then []
    else
      var total := (lo + 1) * job.chunk;
      [Log(CreatedMsg(JoinPath(job.folder, FileName(lo)), job.chunk, total)), Progress(Min(total, job.target))]
        + FillEvents(job, lo + 1, hi)
  }

  /** How many `completed` and `stopped` signals `events` holds. */
  function Terminals(events: seq<Event>): nat
  {
    if events == [] then 0
    else (if events[0].IsTerminal() then 1 else 0) + Terminals(events[1..])
  }
}
