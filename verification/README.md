# Disk filler worker, modelled in Dafny

Deep Disk Cleaner overwrites the free space of a drive. It writes throw-away
files into a `filler` folder until a target size is reached, then deletes
the folder again. The work happens in a background worker, `DiskFillerWorker`
(app.py:28-98). This project models that worker:

- its construction;
- the `stop`, `pause` and `resume` controls;
- `run`: create the folder, generate one block of random alphanumeric text,
  then loop, writing `filler_<n>.txt` files of `chunk` MB each until
  `total_written` reaches the target. On each pass it checks the stop flag,
  waits while paused, writes, reports progress and checks free space;
- the helpers `generate_random_text` and `delete_directory`.

The model has two layers.

- `FillSpec` is a reference semantics made of values and functions. One pass
  of the loop body is `Step` (with `Attempt` and `CheckSpace`). The loop is
  `Loop`, and a whole run is `RunFrom`, which is `Finish` after `Loop`.
- `Worker.DiskFillerWorker` is a class with the worker's fields, and
  `Worker.Directory` is the job folder on disk. Their methods update state in
  place. `WriteLoop` and `Run` are proved equal to `Loop` and `RunFrom`.

`FillProperties` proves what a run guarantees:

- the counter invariant;
- the progress values;
- exactly one terminal signal;
- the folder is deleted at the end;
- the exact outcome of an undisturbed run;
- each way a run can end early.

The outside world is a parameter.

- The controller's calls, each write's outcome and each free-space reading
  come from an oracle `nat -> Round`, indexed by `file_count`. Every pass
  that continues has written exactly one file, so `file_count` also numbers
  the passes.
- A `Round` holds:
  - the calls that land before the stop check;
  - the calls that land during each pause wait (each wait ends with a
    wake-up);
  - the write's result;
  - the free-space reading.
- If the pause wait runs out of wake-ups while the pause flag is still set,
  the loop ends as `StillPaused` and `Run` returns `false`. The real thread
  would block forever at that point.
- The random characters come from a parameter `draw: nat -> nat`.

Behaviour the model reproduces from the code:

- A stop issued during a pause is only seen at the next loop-top check. The
  pause loop re-reads only the pause flag, so one more file is written after
  the resume. If that file reaches the target, the run ends with
  `completed`, not `stopped`.
- Low space deletes the folder. The run then still logs "Process
  completed.", deletes the (already absent) folder and emits `completed`.
- The free-space query sits inside the same `try` as the write. If the query
  raises an `OSError`, the file has already been counted and reported, and
  the run logs "Error writing file ..." and ends.
- An undisturbed run writes exactly ceil(target / chunk) files: target /
  chunk when chunk divides target, one more otherwise. The last file is
  always a full chunk, even when it overshoots the target, and the last
  progress value is capped at the target. So target 10 in chunks of 3
  reports [3, 6, 9, 10] with 12 MB written.

## Model

| member | source | states |
|---|---|---|
| Decimal.NatToString | app.py:66 | the numeral of a counter is non-empty and all digits, with two or more digits exactly when the number is at least 10 |
| Decimal.NatToStringValue | app.py:66 | the numeral's digits denote the counter itself, with no leading zero, as an f-string prints an int |
| Decimal.NatToStringInjective | app.py:66 | different counters print differently |
| RandomText.GenerateRandomText | app.py:13-15 | the block has `size * 1024 * 1024` characters (none when the size is not positive), all ASCII letters or digits |
| RandomText.AnyBlockCanBeGenerated | app.py:13-15 | every alphanumeric text of that length is the block for some sequence of random draws, so the model constrains only length and alphabet |
| FillSpec.ApplyCalls | app.py:87-98 | after a sequence of controller calls, stop is set exactly when it was set or `stop` was called; a set pause flag was set before or `pause` was called, a clear one was clear before or `resume` was called; a last call `pause` or `resume` decides the pause flag |
| FillProperties.OnlyStopsKeepPause | app.py:87-89 | `stop` calls leave the pause flag as it was |
| FillProperties.LastPauseCallWins | app.py:91-98 | the pause flag follows the last `pause` or `resume` call, whatever `stop` calls come after it |
| FillSpec.PauseLoop | app.py:62-64 | the pause wait logs "Paused." at least once when entered paused and never when not paused; it returns resumed exactly when the pause flag is clear; an unresumed wait has logged once per wake-up plus once; a stop flag survives the wait |
| FillProperties.PauseLoopStopBound | app.py:62-64 | the stop flag is set after the wait only if it was set before or a `stop` call arrived during a wait |
| FillProperties.PauseEndsAtFirstClear | app.py:62-64 | the wait ends resumed at the first wake-up that finds the pause flag clear, with one "Paused." per wait up to it and the flags the calls so far leave |
| FillProperties.PauseNeverClears | app.py:62-64 | when no wake-up finds the pause flag clear, the wait is still waiting after the last one, having logged once per wake-up plus once |
| FillSpec.Step | app.py:55-81 | a pass that lets the loop continue wrote exactly one chunk and one file |
| FillSpec.Attempt | app.py:66-81 | a write attempt that continues counted exactly one chunk and one file |
| FillSpec.CheckSpace | app.py:75-81 | the free-space check lets the loop continue only with the state it was given |
| FillSpec.MakeDirs | app.py:47-48 | after `run` starts the folder exists; an existing folder keeps its files, a missing one is created empty |
| Worker.Directory.constructor | app.py:47-48 | a job folder that does not exist yet, as `run` finds it before `os.makedirs` |
| Worker.Directory.MakeDirs | app.py:47-48 | a missing folder is created empty |
| Worker.Directory.Write | app.py:68-69 | a successful write makes the named file hold exactly the block and changes no other file |
| Worker.Directory.Delete | app.py:23-25 | the folder is absent afterwards, whether or not it existed |
| Worker.DiskFillerWorker.constructor | app.py:35-44 | the configuration is stored, both flags start clear, no signal has been emitted |
| Worker.DiskFillerWorker.Stop | app.py:87-89 | sets the stop flag, leaves the pause flag and the signals unchanged |
| Worker.DiskFillerWorker.Pause | app.py:91-93 | sets the pause flag, leaves the stop flag and the signals unchanged |
| Worker.DiskFillerWorker.Resume | app.py:95-98 | clears the pause flag, leaves the stop flag and the signals unchanged |
| Worker.DiskFillerWorker.Deliver | app.py:87-98 | applying the controller's calls in order gives the flags `ApplyCalls` describes and emits nothing |
| Worker.DiskFillerWorker.WaitWhilePaused | app.py:62-64 | the waiting loop ends with the flags, the resumed outcome and the "Paused." logs of `PauseLoop` |
| Worker.DiskFillerWorker.TryWrite | app.py:66-81 | the `try` block changes the folder, counters and signals exactly as `Attempt` describes, and says whether the loop breaks and why |
| Worker.DiskFillerWorker.WriteLoop | app.py:54-81 | the write loop ends in the state and with the exit reason of `Loop` from nothing written |
| Worker.DiskFillerWorker.Run | app.py:46-85 | `run` ends in the state of `RunFrom`; a finished run leaves no folder and adds exactly one terminal signal, as its last signal; a run left paused adds none |
| FillProperties.FileNameInjective | app.py:66 | distinct counters give distinct file names |
| FillProperties.FileNameFormat | app.py:66 | a file name is "filler_", then the counter's decimal numeral (its digits denote the counter, no leading zero), then ".txt" |
| FillProperties.JoinPathFormat | app.py:66 | the path is the folder, then one "/" unless the folder is empty or already ends with one, then the file name; the prefix, the suffix and the length together fix the path |
| FillProperties.FilesNamedCount | app.py:66 | the names for counters lo .. hi-1 are hi - lo different names |
| FillProperties.WithFilesContents | app.py:66-69 | writing files lo .. hi-1 adds exactly those names, each holding the block, and keeps every other file |
| FillProperties.ProgressStepsAt | app.py:70-73 | after `written`, the i-th of n consecutive writes reports min(written + (i + 1) * chunk, target) |
| FillProperties.ProgressStepsMonotone | app.py:73 | progress values of consecutive writes never exceed the target and never decrease |
| FillProperties.AttemptSignals | app.py:66-81 | the `try` block adds at most one file and one chunk, emits one progress value, min(new total, target), exactly when it counted a file, and emits no terminal signal |
| FillProperties.StepSignals | app.py:55-81 | one pass writes at most one file and emits one progress value, min(new total, target), exactly when it counted a file; it emits no terminal signal except on a stop, which emits exactly the stopping log and `stopped` |
| FillProperties.StepFolder | app.py:55-81 | one pass deletes the folder on stop or low space; otherwise the folder gains only the file it wrote |
| FillProperties.LoopCounters | app.py:51-71 | when the loop ends, `total_written == file_count * chunk`; the counter never goes back and never exceeds ceil(target / chunk); reaching the target means the total covers it |
| FillProperties.LoopProgress | app.py:54-81 | the loop's progress values are, in order, min((k+1) * chunk, target) for each file k it wrote |
| FillProperties.LoopTerminals | app.py:54-81 | the loop adds one terminal signal on the stop path, `stopped`, as its last signal, and none on any other exit |
| FillProperties.LoopFolder | app.py:54-81 | the loop leaves the folder deleted on stop or low space, and otherwise holding every file it wrote |
| FillSpec.Loop | app.py:54-81 | the write loop as passes of `Step` until the target is reached or a pass exits; its contract is carried by LoopCounters, LoopProgress, LoopTerminals and LoopFolder |
| FillSpec.Finish | app.py:83-85 | the code after the loop: "Process completed." log, deletion and `completed` on every exit but a stop; its contract is carried by OneTerminalEvent (the last two signals) and FolderGoneAtEnd (the deletion) |
| FillSpec.RunFrom | app.py:46-85 | a whole run from the created folder; its contract is carried by CounterInvariant, RunProgresses, OneTerminalEvent, FolderGoneAtEnd and RunOutcome |
| FillProperties.CounterInvariant | app.py:51-71 | after every run, `total_written == file_count * chunk` and at most ceil(target / chunk) files were written |
| FillProperties.RunProgresses | app.py:51-85 | the progress values of a whole run are exactly those of `file_count` consecutive writes from nothing written |
| FillProperties.ProgressIsCappedTotal | app.py:70-73 | a run emits one progress value per file written; the k-th is min(k * chunk, target); the values never decrease and never exceed the target |
| FillProperties.OneTerminalEvent | app.py:54-85 | a run that ends adds exactly one terminal signal to those emitted before, as its last signal: `stopped` exactly when it ended on a stop, `completed` otherwise, directly after the "Process completed." log; a run left paused adds none |
| FillProperties.FolderGoneAtEnd | app.py:54-85 | every run that ends leaves the folder absent; a run left paused keeps every file written so far |
| FillProperties.RunOutcome | app.py:46-85 | a finished run leaves no folder and adds exactly one terminal signal, as its last signal; a run left paused adds none |
| FillProperties.UndisturbedStep | app.py:54-74 | with no stop or pause, a successful write and enough space, a pass writes the next file and reports it |
| FillProperties.UndisturbedLoop | app.py:54-78 | with no disturbance the loop reaches the target after exactly ceil(target / chunk) files, with one "Created" log and one progress value per file |
| FillProperties.UndisturbedRun | app.py:46-85 | an undisturbed run writes exactly ceil(target / chunk) distinct files `filler_0.txt`, ..., each holding the block, then logs completion, deletes the folder and emits `completed` |
| FillProperties.StopAtLoopTop | app.py:55-60 | a stop flag seen at the loop-top check writes no further file, logs the stopping message, deletes the folder and emits `stopped` |
| FillProperties.WriteErrorEndsRun | app.py:55-85 | in a pass that reaches the write, paused and resumed or not, a failed write logs "Error writing file {path}: {error}" after any "Paused." logs, does not change the counters or emit progress, and the run completes with the folder deleted |
| FillProperties.LowSpaceEndsRun | app.py:55-85 | in a pass that reaches the write, paused and resumed or not, free space under 10 MiB after the write counts and reports the file, logs the low-space warning, deletes the folder and ends the run with `completed`, with no further write |
| FillProperties.UsageErrorEndsRun | app.py:55-85 | in a pass that reaches the write, a free-space query that raises after a successful write leaves the file counted and reported, logs "Error writing file {path}: {error}" for it, and the run completes with the folder deleted |
| FillProperties.PausedWithoutResume | app.py:62-64 | while paused with no resume, the worker writes nothing, logs "Paused." on every wake-up plus once, and emits no terminal signal |
| FillProperties.StaysPaused | app.py:62-64 | calls with no `resume`, with or without a `stop` among them, keep the pause wait waiting, logging once per wake-up plus once |
| FillProperties.StopWhilePausedWritesOnceMore | app.py:55-73 | a stop issued during a pause is seen only after the resume and one more write; the run then stops at the next check |
| FillProperties.StopWhilePausedCanComplete | app.py:54-85 | if that one more write reaches the target, the run ends with `completed` although the stop flag is set |
| FillProperties.UndisturbedSignals | app.py:46-85 | an undisturbed run writes ceil(target / chunk) files, that many chunks, reports one capped progress value per file, deletes the folder and ends with `completed` |
| FillProperties.TenInChunksOfFive | app.py:54-85 | target 10 in chunks of 5: two files, progress [5, 10], `completed`, folder deleted |
| FillProperties.TenInChunksOfThree | app.py:54-85 | target 10 in chunks of 3: four files, 12 MB written, progress [3, 6, 9, 10], `completed` |

## Left out

- The Qt user interface (`DiskFillerApp`, app.py:101-258) and the `__main__` entry point (app.py:261-265) are not part of this model. The input check at app.py:194 rejects non-positive sizes before a worker is built. `Run` requires only a positive chunk, because that is what makes its loop finish. A non-positive target is accepted and simply writes nothing.
- `Round.waits` lets a pause wait end after any calls, none or only `stop` included, while in the original only `resume` wakes the waiting worker (app.py:64, 98). This admits more environments than the original, so every lemma that quantifies over all oracles still holds of the original's.
- `QMutex`, `QWaitCondition` and the thread itself are not modelled. The controller's calls take effect at the worker's flag checks, in the order the oracle gives. A wake-up is the end of one wait in `Round.waits`.
- Run: a worker waiting on a pause that is never resumed blocks forever in the original. Here `Run` returns `false` after the last wake-up in the oracle.
- File and directory operations are abstract. `os.makedirs` and `shutil.rmtree` always succeed. A write that raises leaves the folder unchanged, so a truncated or partly written file is not modelled. Exceptions other than `OSError` are not modelled.
- `check_disk_space` and the drive letter it receives are not modelled. The free-space reading, or the `OSError` it raises, comes from the oracle.
- `os.path.join` is modelled with the POSIX separator only. Windows drive and separator rules are left out. On a POSIX system the program cannot start a run at all: the drive letter from `os.path.splitdrive` is empty, so `check_disk_space(':')` raises when a folder is chosen (app.py:19, 175-176), before the start button is enabled. The POSIX paths in the modelled "Created ..." and "Error writing file ..." logs therefore match no real run; they stand for the Windows paths the program does produce.
- GenerateRandomText: the random choice is the parameter `draw`, so the model fixes only the block's length and alphabet, not its distribution.
- The `paused` signal (app.py:33) is never emitted by the worker and is not modelled.
