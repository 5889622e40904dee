# Multi-monitor video rotation: a Dafny model

This project models the deterministic core of `AtlantisMultiMonitor.py`, a
kiosk script that plays one looping, borderless, full-screen video per
physical display with the `mpv` player, rotates which video plays on which
display every five minutes, and stops when Esc is pressed.

What is modelled:

- **Display table** (`Displays`): the rectangles `(left, top, right, bottom)`
  reported by the operating system, given as an input sequence, become a map
  from the display's position to `{left, top, width, height}`
  (`BuildMonitorMap`, a loop filling the map).
- **Initial assignment** (`Orchestrator.InitAssign`): video `i` gets display
  `i % len(monitors)`, written into an array of video records in place.
- **Rotation** (`Rotation`, `Orchestrator.Rotate`): the screen list is
  shifted cyclically one place left (`s[1:] + s[:1]`) and written back into
  the records. Proved: element-wise shift, permutation, full cycle after
  `len(videos)` rotations, periodicity, screens stay in range.
- **Player command** (`IntText`, `Commands`): the command line exactly as the
  script's f-string builds it, with Python's decimal text of integers
  (negative coordinates give `+-1920`). Proved: the decimal text reads back
  to the number, the geometry argument reads back to the rectangle, the
  display index reads back from the log file name, the command carries
  every setting.
- **Launch** (`Launcher`): every launch first stops the running players,
  which can raise (outcome `stopRaises`); then only positions below the
  number of displays are tried, in order; spawning is an oracle `spawn(i)`
  that yields a handle, a `SubprocessError` (skipped, the loop continues) or
  any other exception (not caught by the script, so it ends the launch).
  `StartInstances` is the loop; `LaunchAfterStop`, `Launch` and
  `LaunchFirst` its specification; `PlanFrom` is the filter over the
  enumeration and `Plan` the prefix it keeps.
- **Scheduler and exit key** (`Orchestration`): `Step` is one event
  (initial launch, timer expiry, key press) on an abstract `World`; `Run` is a
  sequence of events. The class `Orchestrator` keeps the same state in fields
  and an `array<Video>`, and its methods `Begin`, `Tick` and `Listen` are
  proved to perform `Step`. Proved over any run: the exit flag is never
  reset, only Esc sets it, once it is set nothing rotates or relaunches, a
  stopped scheduler stays stopped, and the assignment is the initial one
  rotated exactly once per timer expiry that found the scheduler running
  with the flag clear.

Behaviour of the script that the model keeps as written:

- With at least one video and no display, line 60 divides by zero; the
  model states this as the constructor's precondition.
- Only the first `len(monitors)` videos are launched (line 66); later
  videos are never shown, even after rotations.
- Only `subprocess.SubprocessError` is caught (line 85); any other
  exception from a spawn aborts the launch (and, in the rotation thread,
  ends the scheduler: phase `Crashed`).
- Stopping the earlier players (line 64) can raise, because the fallback
  `proc.kill()` at line 43 is not guarded; the launch then ends before its
  first spawn.
- A rotation gives item `i` the display of item `i + 1` (`[0,1,2,3]`
  becomes `[1,2,3,0]`; `[0,1,0]` becomes `[1,0,0]`).

## Model

| member | source | states |
|---|---|---|
| Displays.BuildMonitorMap | AtlantisMultiMonitor.py:47-53 | the table has exactly the keys `0..len(rects)-1`; each copies `left`/`top` and has `width = right-left`, `height = bottom-top` |
| Displays.MonitorTableUnique | AtlantisMultiMonitor.py:48-53 | the table is determined by the rectangles: two tables describing the same rectangles are equal |
| Orchestration.Orchestrator.constructor | AtlantisMultiMonitor.py:47-60 | builds the display table and the records; video `i` has its own path and screen `i % len(rects)`; nothing launched, flag clear, listener not started; requires a display when there are videos |
| Orchestration.Orchestrator.InitAssign | AtlantisMultiMonitor.py:59-60 | every record keeps its path and gets screen `i % count` |
| Rotation.RotateLeft | AtlantisMultiMonitor.py:97 | the rotated list has the same length (empty list included) |
| Rotation.RotateLeftAt | AtlantisMultiMonitor.py:96-97 | `new[i] == old[(i+1) % n]` for every `i`, and the rotated list is a permutation of the old one |
| Rotation.RotateTimes | AtlantisMultiMonitor.py:90-99 | the assignment after `k` rotations has the same length |
| Rotation.RotateTimesShift | AtlantisMultiMonitor.py:90-99 | `k <= n` rotations give `s[k:] + s[:k]` |
| Rotation.RotateTimesAdd | AtlantisMultiMonitor.py:90-99 | `a + b` rotations are `a` rotations followed by `b` |
| Rotation.RotateFullCycle | AtlantisMultiMonitor.py:90-99 | `len(videos)` rotations restore the original assignment |
| Rotation.RotatePeriodic | AtlantisMultiMonitor.py:90-99 | rotating `k + len(videos)` times equals rotating `k` times |
| Rotation.RotateTimesInRange | AtlantisMultiMonitor.py:96-99 | if every screen is in `[0, n)`, it stays so after any number of rotations |
| Orchestration.RotateVideos | AtlantisMultiMonitor.py:96-99 | writing the rotated list back keeps every path and gives the rotated screen list |
| Orchestration.RotateVideosInRange | AtlantisMultiMonitor.py:96-99 | writing back a rotation keeps every screen in range |
| Orchestration.Orchestrator.Rotate | AtlantisMultiMonitor.py:96-99 | in place on the array: video `i` keeps its path and takes the old screen of video `(i+1) % n`; the invariant (screens in range) is kept |
| Orchestration.InvResolvable | AtlantisMultiMonitor.py:68 | in every reachable state the lookup `monitor_map[screen]` succeeds for every launched video |
| IntText.NatToDecimal | AtlantisMultiMonitor.py:74 | decimal text of a natural: non-empty, digits only, no leading zero |
| IntText.IntToDecimal | AtlantisMultiMonitor.py:73-74 | Python's `str(n)`: starts with `-` exactly when `n < 0`, otherwise digits |
| IntText.NatRoundTrip | AtlantisMultiMonitor.py:74 | the digits of `n` read back to `n` |
| IntText.IntRoundTrip | AtlantisMultiMonitor.py:73-74 | `ParseInt(str(n)) == n` for every integer, negative included |
| IntText.IntToDecimalInjective | AtlantisMultiMonitor.py:73-74 | different integers have different decimal texts |
| Commands.GeometryText | AtlantisMultiMonitor.py:74 | the argument `WxH+X+Y` reads back, through `ParseGeometry` (splitting at the first `x` and `+` with `SplitAt`), to the rectangle, negative offsets included |
| Commands.LogFileName | AtlantisMultiMonitor.py:78 | the name is `mpv_log_screen_<screen>.txt` and the display index reads back from its middle, so different displays get different log files |
| Commands.CommandLine | AtlantisMultiMonitor.py:69-79 | the command line starts with the quoted player path and contains the quoted video path, `--fs-screen=<screen>`, `--geometry=<WxH+X+Y>`, `--log-file=mpv_log_screen_<screen>.txt` and the flags loop-file, fullscreen, no-osc, no-input-default-bindings, no-border |
| Launcher.PlanFrom | AtlantisMultiMonitor.py:65-68 | from position `i` on, the filter `i < len(monitors)` keeps exactly the positions below the display count, in order, each with its own path, screen and that screen's rectangle |
| Launcher.Plan | AtlantisMultiMonitor.py:65-68 | the plan (command `k` built by `CommandFor` from video `k`, its screen and that screen's rectangle, for the first `min(len(videos), len(monitors))` videos) is exactly what filtering the enumeration by `i < len(monitors)` gives |
| Launcher.Handles | AtlantisMultiMonitor.py:80-82 | no more handles than attempts |
| Launcher.HandlesAreStarted | AtlantisMultiMonitor.py:80-82 | a handle is returned exactly when some attempt started that process |
| Launcher.LaunchFirst | AtlantisMultiMonitor.py:63-87 | after `k` attempts: the attempts are a prefix of the plan, all `k` of them unless an uncaught exception ended the launch, and at least one if it did |
| Launcher.LaunchNext | AtlantisMultiMonitor.py:80-86 | one more attempt: a started process adds its handle, a subprocess error adds nothing and the loop goes on, any other exception ends the launch at that attempt |
| Launcher.LaunchFirstOutcome | AtlantisMultiMonitor.py:63-87 | without an uncaught exception no attempt raised and the handles are exactly the started ones in order; with one, it came from the last attempt made, no earlier attempt raised, and the handles are those started before it |
| Launcher.Launch | AtlantisMultiMonitor.py:63-87 | at most one process per attempt and at most one attempt per plan entry; the launch runs the whole plan exactly when no spawn raises an uncaught exception, returning exactly the started handles |
| Launcher.RaisedIsFinal | AtlantisMultiMonitor.py:80-86 | after an uncaught exception no further attempt happens |
| Launcher.LaunchAfterStop | AtlantisMultiMonitor.py:62-87 | a launch whose stop step raises attempts nothing and raises; otherwise it raises exactly when some spawn raises an uncaught exception, and without one it tries the whole plan and keeps exactly the started handles |
| Launcher.StartInstances | AtlantisMultiMonitor.py:62-87 | the stop step, then the launch loop with the skip of subprocess errors and the abort on other exceptions, produce exactly `LaunchAfterStop(stopRaises, Plan(...))` |
| Orchestration.AttemptedCommandMatchesDisplay | AtlantisMultiMonitor.py:65-79 | attempt `k` uses video `k`'s path and screen, and the rectangle of that screen as reported (origin copied, `width = right-left`, `height = bottom-top`) |
| Orchestration.Step | AtlantisMultiMonitor.py:89-112 | one event keeps the invariant and every path; only a tick changes the assignment; only a key press or the initial launch changes whether the listener runs; a launch that raises leaves the process list as it was; a key press changes neither phase nor processes and Esc stops the listener; the initial launch leaves the scheduler crashed or running with the listener started; a tick of a running scheduler stops it when the flag is set and otherwise rotates the videos and leaves it crashed or running; other ticks change nothing; the flags are set afterwards exactly when they were set or Esc was heard by the listener; a stopped or crashed scheduler stays so |
| Orchestration.StepLaunches | AtlantisMultiMonitor.py:100-101 | after the initial launch (line 117) or a rotating tick, the scheduler is crashed exactly when the launch for the new assignment raised, and otherwise runs with exactly that launch's handles (the initial launch also starts the listener exactly then) |
| Orchestration.Run | AtlantisMultiMonitor.py:89-112 | any sequence of events keeps the invariant |
| Orchestration.ExitFlagIsFinal | AtlantisMultiMonitor.py:91-94 | once set, the exit flag is never reset and neither the assignment nor the processes change again |
| Orchestration.ListenerStaysOn | AtlantisMultiMonitor.py:104-112 | once started, the key listener keeps running through any events until an Esc press reaches it |
| Orchestration.EscSetsFlag | AtlantisMultiMonitor.py:104-110 | while the listener runs, an Esc press sets the exit flag, whatever timer expiries and relaunches came before it |
| Orchestration.ExitOnlyByEsc | AtlantisMultiMonitor.py:104-110 | if the flag becomes set during a run, some event of the run was an Esc press |
| Orchestration.AssignmentIsRotation | AtlantisMultiMonitor.py:90-99 | after any run the paths are unchanged and the assignment is the initial one rotated exactly `Rotations` times, one per tick that found the scheduler running with the flag clear |
| Orchestration.RotationsCountsTicks | AtlantisMultiMonitor.py:91-94 | `Rotations` is the number of positions in the run holding a tick whose prior state is running with the flag clear |
| Orchestration.SchedulerEndIsFinal | AtlantisMultiMonitor.py:91-94 | a stopped or crashed scheduler never rotates or relaunches again |
| Orchestration.Orchestrator.Begin | AtlantisMultiMonitor.py:117-125 | performs `Step` for the initial launch: on success the scheduler runs, the listener listens and the handles are kept; an uncaught exception, from the stop step or a spawn, leaves it crashed |
| Orchestration.Orchestrator.Tick | AtlantisMultiMonitor.py:90-101 | performs `Step` for a timer expiry: with the flag set it stops without rotating; otherwise it rotates in place and relaunches |
| Orchestration.Orchestrator.RotateAndRelaunch | AtlantisMultiMonitor.py:96-101 | performs `Step` for a timer expiry with the flag clear: rotates the records in place, then relaunches for the rotated assignment |
| Orchestration.Orchestrator.OnPress | AtlantisMultiMonitor.py:104-112 | Esc sets the exit flag and the wake-up event and stops the listener; any other key changes nothing |
| Orchestration.Orchestrator.Listen | AtlantisMultiMonitor.py:124 | performs `Step` for a key press: keys reach the callback only while the listener runs |

## Left out

- `stop_mpv` (lines 35-44), its call at the start of every launch (line 64)
  and the pre-launch check (lines 115-116): they walk the operating
  system's process table, terminate or kill processes and sleep. Only
  whether they raise is modelled, as the outcome `stopRaises` of each
  launch; which processes they end is not.
- `subprocess.Popen` with `shell=True` (line 81): replaced by the `spawn`
  oracle; shell quoting and process handles beyond an integer are not
  modelled (a path containing a quote is not treated specially).
- `win32api.EnumDisplayMonitors` (line 47): the rectangles are an input.
- Path existence checks (lines 24-28) and the configured paths (lines 10-21):
  file system and configuration.
- Threads, the 300-second timed wait, `time.sleep` delays, the pynput
  listener thread and the polling main loop with its cleanup and joins
  (lines 92, 120-137): the model is sequential. Each timer expiry and each
  key press is an atomic event, so the interleaving in which Esc arrives
  while a rotation is in progress is not modelled.
- All `print` output (lines 54, 58, 83, 86, 95, 127, 137).
- The `AttributeError` handler in `on_press` (lines 111-112): comparing a
  key with `Key.esc` cannot raise it in the model.
