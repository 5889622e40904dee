/**
  The orchestration: the playback items with their display assignment, the
  display table, the exit flag set by the key listener, and the rotation
  scheduler, which on every timer expiry either stops (when the exit flag
  is set) or rotates the assignment and relaunches the players.

  `Step` is the reference definition of one event as a function on a
  `World`; the class `Orchestrator` holds the same state in fields and an
  array of video records, and each of its methods is proved to perform
  exactly `Step`. The lemmas about `Run` (a sequence of events) state what
  holds over a whole run.
*/
module Orchestration {
  import opened Displays
  import opened Rotation
  import opened Commands
  import opened Launcher

  /**
    The rotation scheduler: not started yet, waiting on its timer, ended by
    the exit flag, or ended by an exception escaping a launch.
  */
  datatype Phase = Idle | Running | Stopped | Crashed

  datatype Key = Esc | OtherKey(name: string)

  /**
    Begin: the initial launch, after which the scheduler and the key
    listener start. Tick: the scheduler's timed wait returns. Press: the
    keyboard hook reports a key. A launch's outcome is given by whether
    stopping the earlier players raises (`stopRaises`) and by the outcome
    of each spawn (`spawn`).
  */
  datatype Event =
    | Begin(stopRaises: bool, spawn: nat -> SpawnOutcome)
    | Tick(stopRaises: bool, spawn: nat -> SpawnOutcome)
    | Press(key: Key)

  /** The display table and the number of displays; fixed for the whole run. */
  datatype Config = Config(table: map<int, Bounds>, count: nat)

  datatype World = World(
    videos: seq<Video>,
    exitFlag: bool,
    rotateFlag: bool,
    listening: bool,
    phase: Phase,
    processes: seq<int>)

  function Screens(vs: seq<Video>): (s: seq<int>)
    ensures |s| == |vs|
  {
    seq(|vs|, i requires 0 <= i < |vs| => vs[i].screen)
  }

  function Paths(vs: seq<Video>): (p: seq<string>)
    ensures |p| == |vs|
  {
    seq(|vs|, i requires 0 <= i < |vs| => vs[i].path)
  }

  /** The videos with the rotated screen list written back, position by position. */
  function RotateVideos(vs: seq<Video>): (r: seq<Video>)
    ensures Paths(r) == Paths(vs)
    ensures Screens(r) == RotateLeft(Screens(vs))
  {
    var rotated := RotateLeft(Screens(vs));
    seq(|vs|, i requires 0 <= i < |vs| => Video(vs[i].path, rotated[i]))
  }

  /**
    What every reachable state satisfies: the table has exactly the keys of
    the displays, every assigned screen is one of them, nothing is heard
    before the listener starts, and the scheduler stops only for the flag.
  */
  ghost predicate Inv(cfg: Config, w: World) {
    (forall k :: k in cfg.table <==> 0 <= k < cfg.count) &&
    InRange(Screens(w.videos), cfg.count) &&
    (w.phase == Idle ==> !w.exitFlag && !w.listening) &&
    (w.phase == Stopped ==> w.exitFlag)
  }

  lemma InvResolvable(cfg: Config, w: World)
    requires Inv(cfg, w)
    ensures Resolvable(w.videos, cfg.table, cfg.count)
  {
    forall i | 0 <= i < |w.videos| && i < cfg.count ensures w.videos[i].screen in cfg.table {
      assert Screens(w.videos)[i] == w.videos[i].screen;
    }
  }

  lemma RotateVideosInRange(vs: seq<Video>, n: int)
    requires InRange(Screens(vs), n)
    ensures InRange(Screens(RotateVideos(vs)), n)
  {
  }

  /**
    One event. A key press only touches the flags and the listener; the
    initial launch runs the plan for the current assignment and starts the
    scheduler and the listener unless it raised; a tick ends the scheduler
    when the exit flag is set and otherwise rotates the assignment and
    relaunches for the rotated one. Nothing happens after the scheduler has
    ended.
  */
  function Step(cfg: Config, w: World, e: Event): (r: World)
    requires Inv(cfg, w)
    ensures Inv(cfg, r)
    ensures Paths(r.videos) == Paths(w.videos)
    ensures r.exitFlag <==> w.exitFlag || (w.listening && e.Press? && e.key.Esc?)
    ensures r.rotateFlag <==> w.rotateFlag || (w.listening && e.Press? && e.key.Esc?)
    ensures !e.Press? ==> r.listening == w.listening || (e.Begin? && w.phase == Idle)
    ensures r.phase == Crashed && w.phase != Crashed ==> r.processes == w.processes
    ensures w.exitFlag ==> r.videos == w.videos && r.processes == w.processes
    ensures w.phase == Stopped || w.phase == Crashed ==>
      r.phase == w.phase && r.videos == w.videos && r.processes == w.processes
    ensures !e.Tick? ==> r.videos == w.videos
    ensures e.Press? ==>
      r.phase == w.phase && r.processes == w.processes && (r.listening <==> w.listening && !e.key.Esc?)
    ensures e.Begin? && w.phase != Idle ==> r == w
    ensures e.Begin? && w.phase == Idle ==> r.phase == Crashed || (r.phase == Running && r.listening)
    ensures e.Tick? && w.phase != Running ==> r == w
    ensures e.Tick? && w.phase == Running && w.exitFlag ==> r.phase == Stopped
    ensures e.Tick? && w.phase == Running && !w.exitFlag ==>
      r.videos == RotateVideos(w.videos) && (r.phase == Crashed || r.phase == Running)
  {
    match e
    case Press(key) =>
      if w.listening && key.Esc? then w.(exitFlag := true, rotateFlag := true, listening := false)
      else w
    case Begin(stopRaises, spawn) =>
      if w.phase != Idle then w
      else
        InvResolvable(cfg, w);
        var launch := LaunchAfterStop(stopRaises, Plan(w.videos, cfg.table, cfg.count), spawn);
        if launch.raised then w.(phase := Crashed)
        else w.(phase := Running, listening := true, processes := launch.handles)
    case Tick(stopRaises, spawn) =>
      if w.phase != Running then w
      else if w.exitFlag then w.(phase := Stopped)
      else
        var vs := RotateVideos(w.videos);
        RotateVideosInRange(w.videos, cfg.count);
        InvResolvable(cfg, w.(videos := vs));
        var launch := LaunchAfterStop(stopRaises, Plan(vs, cfg.table, cfg.count), spawn);
        if launch.raised then w.(videos := vs, phase := Crashed)
        else w.(videos := vs, processes := launch.handles)
  }

  /**
    A launching step (the initial launch, or a tick that rotates) ends the
    scheduler exactly when the launch for the new assignment raised, and
    otherwise keeps exactly the handles of the processes that launch
    started.
  */
  lemma StepLaunches(cfg: Config, w: World, e: Event)
    requires Inv(cfg, w)
    requires (e.Begin? && w.phase == Idle) || (e.Tick? && w.phase == Running && !w.exitFlag)
    ensures var r := Step(cfg, w, e);
      (InvResolvable(cfg, r);
       var launch := LaunchAfterStop(e.stopRaises, Plan(r.videos, cfg.table, cfg.count), e.spawn);
       (r.phase == Crashed <==> launch.raised) &&
       (!launch.raised ==> r.phase == Running && r.processes == launch.handles) &&
       (e.Begin? ==> (r.listening <==> !launch.raised)))
  {
  }

  /** A sequence of events, in order. */
  function Run(cfg: Config, w: World, es: seq<Event>): (r: World)
    requires Inv(cfg, w)
    ensures Inv(cfg, r)
    decreases |es|
  {
    if es == [] then w else Step(cfg, Run(cfg, w, es[..|es| - 1]), es[|es| - 1])
  }

  /** Once set, the exit flag stays set, and no rotation or relaunch happens any more. */
  lemma {:induction false} ExitFlagIsFinal(cfg: Config, w: World, es: seq<Event>)
    requires Inv(cfg, w) && w.exitFlag
    ensures Run(cfg, w, es).exitFlag
    ensures Run(cfg, w, es).videos == w.videos && Run(cfg, w, es).processes == w.processes
    decreases |es|
  {
    if es != [] {
      ExitFlagIsFinal(cfg, w, es[..|es| - 1]);
    }
  }

  /** The key listener keeps running until an Esc press reaches it. */
  lemma {:induction false} ListenerStaysOn(cfg: Config, w: World, es: seq<Event>)
    requires Inv(cfg, w) && w.listening
    requires forall i :: 0 <= i < |es| ==> !(es[i].Press? && es[i].key.Esc?)
    ensures Run(cfg, w, es).listening
    decreases |es|
  {
    if es != [] {
      ListenerStaysOn(cfg, w, es[..|es| - 1]);
    }
  }

  /** While the listener runs, an Esc press sets the exit flag. */
  lemma EscSetsFlag(cfg: Config, w: World, es: seq<Event>)
    requires Inv(cfg, w) && w.listening
    requires forall i :: 0 <= i < |es| ==> !(es[i].Press? && es[i].key.Esc?)
    ensures Run(cfg, w, es + [Press(Esc)]).exitFlag
  {
    ListenerStaysOn(cfg, w, es);
    assert (es + [Press(Esc)])[..|es|] == es;
  }

  /** The exit flag is only ever set by an Esc key press. */
  lemma {:induction false} ExitOnlyByEsc(cfg: Config, w: World, es: seq<Event>)
    requires Inv(cfg, w) && !w.exitFlag && Run(cfg, w, es).exitFlag
    ensures exists i :: 0 <= i < |es| && es[i].Press? && es[i].key.Esc?
    decreases |es|
  {
    var n := |es|;
    var before := Run(cfg, w, es[..n - 1]);
    if before.exitFlag {
      ExitOnlyByEsc(cfg, w, es[..n - 1]);
      var i :| 0 <= i < n - 1 && es[..n - 1][i].Press? && es[..n - 1][i].key.Esc?;
      assert es[i] == es[..n - 1][i];
    } else {
      assert es[n - 1].Press? && es[n - 1].key.Esc?;
    }
  }

  /** Whether event `i` of `es` rotates: a tick that finds the scheduler running with the flag clear. */
  ghost predicate RotatesAt(cfg: Config, w: World, es: seq<Event>, i: nat)
    requires Inv(cfg, w) && i < |es|
  {
    es[i].Tick? && Run(cfg, w, es[..i]).phase == Running && !Run(cfg, w, es[..i]).exitFlag
  }

  /** The number of rotating events of `es`, counted from the back. */
  ghost function Rotations(cfg: Config, w: World, es: seq<Event>): nat
    requires Inv(cfg, w)
    decreases |es|
  {
    if es == [] then 0
    else Rotations(cfg, w, es[..|es| - 1]) + if RotatesAt(cfg, w, es, |es| - 1) then 1 else 0
  }

  /** Which events of `es` rotate, position by position. */
  ghost function RotatingEvents(cfg: Config, w: World, es: seq<Event>): (flags: seq<bool>)
    requires Inv(cfg, w)
    ensures |flags| == |es|
  {
    seq(|es|, i requires 0 <= i < |es| => RotatesAt(cfg, w, es, i))
  }

  /** The number of `true` entries of `flags`, counted from the back. */
  function CountTrue(flags: seq<bool>): nat {
    if flags == [] then 0
    else CountTrue(flags[..|flags| - 1]) + (if flags[|flags| - 1] then 1 else 0)
  }

  lemma {:induction false} CountTrueIsCardinality(flags: seq<bool>)
    ensures CountTrue(flags) == |set i | 0 <= i < |flags| && flags[i]|
  {
    var all := set i | 0 <= i < |flags| && flags[i];
    if flags != [] {
      var n := |flags|;
      var prefix := flags[..n - 1];
      CountTrueIsCardinality(prefix);
      var earlier := set i | 0 <= i < n - 1 && prefix[i];
      var last: set<int> := if flags[n - 1] then {n - 1} else {};
      assert all == earlier + last;
      assert earlier !! last;
    } else {
      assert all == {};
    }
  }

  /** Whether an event rotates depends only on the events before it. */
  lemma RotatingEventsPrefix(cfg: Config, w: World, es: seq<Event>)
    requires Inv(cfg, w) && es != []
    ensures RotatingEvents(cfg, w, es)[..|es| - 1] == RotatingEvents(cfg, w, es[..|es| - 1])
  {
    var prefix := es[..|es| - 1];
    forall i | 0 <= i < |es| - 1
      ensures RotatesAt(cfg, w, es, i) == RotatesAt(cfg, w, prefix, i)
    {
      assert prefix[..i] == es[..i];
    }
  }

  lemma {:induction false} RotationsAreCountTrue(cfg: Config, w: World, es: seq<Event>)
    requires Inv(cfg, w)
    ensures Rotations(cfg, w, es) == CountTrue(RotatingEvents(cfg, w, es))
    decreases |es|
  {
    if es == [] {
      assert RotatingEvents(cfg, w, es) == [];
    } else {
      RotationsAreCountTrue(cfg, w, es[..|es| - 1]);
      RotatingEventsPrefix(cfg, w, es);
    }
  }

  /** `Rotations` is the number of positions at which a rotating event occurs. */
  lemma RotationsCountsTicks(cfg: Config, w: World, es: seq<Event>)
    requires Inv(cfg, w)
    ensures Rotations(cfg, w, es) == |set i | 0 <= i < |es| && RotatesAt(cfg, w, es, i)|
  {
    var flags := RotatingEvents(cfg, w, es);
    RotationsAreCountTrue(cfg, w, es);
    CountTrueIsCardinality(flags);
    assert (set i | 0 <= i < |flags| && flags[i]) == (set i | 0 <= i < |es| && RotatesAt(cfg, w, es, i));
  }

  /** One event rotates the screen list once when it is a tick of a running scheduler with the flag clear. */
  lemma StepScreens(cfg: Config, w: World, e: Event)
    requires Inv(cfg, w)
    ensures Screens(Step(cfg, w, e).videos) ==
      if e.Tick? && w.phase == Running && !w.exitFlag then RotateLeft(Screens(w.videos)) else Screens(w.videos)
  {
  }

  /** The last event of a run rotates the screen list once exactly when it is a rotating event. */
  lemma RunScreensStep(cfg: Config, w: World, es: seq<Event>)
    requires Inv(cfg, w) && es != []
    ensures Screens(Run(cfg, w, es).videos) ==
      if RotatesAt(cfg, w, es, |es| - 1) then RotateLeft(Screens(Run(cfg, w, es[..|es| - 1]).videos))
      else Screens(Run(cfg, w, es[..|es| - 1]).videos)
  {
    StepScreens(cfg, Run(cfg, w, es[..|es| - 1]), es[|es| - 1]);
  }

  /** One more step of a rotated list: rotated `k` times before, rotated once more exactly when `again`. */
  lemma RotateOnceMore(s: seq<int>, before: seq<int>, after: seq<int>, k: nat, m: nat, again: bool)
    requires before == RotateTimes(s, k)
    requires m == k + if again then 1 else 0
    requires after == if again then RotateLeft(before) else before
    ensures after == RotateTimes(s, m)
  {
  }

  /**
    Over any run the paths stay put and the assignment is the initial one
    rotated exactly once per rotating event.
  */
  lemma {:induction false} AssignmentIsRotation(cfg: Config, w: World, es: seq<Event>)
    requires Inv(cfg, w)
    ensures Paths(Run(cfg, w, es).videos) == Paths(w.videos)
    ensures Screens(Run(cfg, w, es).videos) == RotateTimes(Screens(w.videos), Rotations(cfg, w, es))
    decreases |es|
  {
    if es != [] {
      var prefix := es[..|es| - 1];
      AssignmentIsRotation(cfg, w, prefix);
      RunScreensStep(cfg, w, es);
      RotateOnceMore(Screens(w.videos), Screens(Run(cfg, w, prefix).videos), Screens(Run(cfg, w, es).videos),
        Rotations(cfg, w, prefix), Rotations(cfg, w, es), RotatesAt(cfg, w, es, |es| - 1));
    }
  }

  /** A stopped or crashed scheduler never rotates or relaunches again. */
  lemma {:induction false} SchedulerEndIsFinal(cfg: Config, w: World, es: seq<Event>)
    requires Inv(cfg, w) && (w.phase == Stopped || w.phase == Crashed)
    ensures Run(cfg, w, es).phase == w.phase
    ensures Run(cfg, w, es).videos == w.videos && Run(cfg, w, es).processes == w.processes
    decreases |es|
  {
    if es != [] {
      SchedulerEndIsFinal(cfg, w, es[..|es| - 1]);
    }
  }

  /**
    Every command a launch tries belongs to the video at that position and
    pins the player to the rectangle the system reported for its display
    (whose geometry text reads back to it, by the contract of `GeometryText`).
  */
  lemma AttemptedCommandMatchesDisplay(
    rects: seq<Rect>, table: map<int, Bounds>, videos: seq<Video>, spawn: nat -> SpawnOutcome, k: nat)
    requires IsMonitorTable(rects, table) && InRange(Screens(videos), |rects|)
    requires Resolvable(videos, table, |rects|)
    requires k < |Launch(Plan(videos, table, |rects|), spawn).attempted|
    ensures k < |videos| && k < |rects|
    ensures Launch(Plan(videos, table, |rects|), spawn).attempted[k].path == videos[k].path
    ensures Launch(Plan(videos, table, |rects|), spawn).attempted[k].screen == videos[k].screen
    ensures 0 <= videos[k].screen < |rects| &&
      var rect := rects[videos[k].screen];
      Launch(Plan(videos, table, |rects|), spawn).attempted[k].bounds ==
        Bounds(rect.left, rect.top, rect.right - rect.left, rect.bottom - rect.top)
  {
  }

  /**
    The orchestrator's state as the script keeps it: the video records in
    an array whose `screen` entries are rewritten in place, the display
    table, the flags and the current generation of process handles.
  */
  class Orchestrator {
    const table: map<int, Bounds>
    const count: nat
    const videos: array<Video>
    var exitFlag: bool
    var rotateFlag: bool
    var listening: bool
    var phase: Phase
    var processes: seq<int>

    ghost function Cfg(): Config {
      Config(table, count)
    }

    ghost function State(): World
      reads this, videos
    {
      World(videos[..], exitFlag, rotateFlag, listening, phase, processes)
    }

    ghost predicate Valid()
      reads this, videos
    {
      Inv(Cfg(), State())
    }

    /**
      Builds the display table from the enumerated rectangles and assigns
      the initial screens. With videos and no display the script divides
      by zero, hence the precondition.
    */
    constructor (paths: seq<string>, rects: seq<Rect>)
      requires |paths| == 0 || |rects| > 0
      ensures Valid() && fresh(videos)
      ensures IsMonitorTable(rects, table) && count == |rects|
      ensures Paths(videos[..]) == paths
      ensures forall i :: 0 <= i < |paths| ==> videos[i].screen == i % |rects|
      ensures !exitFlag && !rotateFlag && !listening && phase == Idle && processes == []
    {
      var t := BuildMonitorMap(rects);
      table, count := t, |rects|;
      // The records carry only a path until InitAssign gives them a screen.
      videos := new Video[|paths|](i requires 0 <= i < |paths| => Video(paths[i], 0));
      exitFlag, rotateFlag, listening, phase, processes := false, false, false, Idle, [];
      new;
      InitAssign();
    }

    /** Video `i` is shown on display `i % count`. */
    method InitAssign()
      requires videos.Length == 0 || count > 0
      modifies videos
      ensures Paths(videos[..]) == Paths(old(videos[..]))
      ensures forall i :: 0 <= i < videos.Length ==> videos[i].screen == i % count
    {
      for i := 0 to videos.Length
        invariant forall k :: 0 <= k < i ==> videos[k] == Video(old(videos[k].path), k % count)
        invariant forall k :: i <= k < videos.Length ==> videos[k] == old(videos[k])
      {
        videos[i] := videos[i].(screen := i % count);
      }
    }

    /** The rotation step: each video takes the screen of the video after it. */
    method Rotate()
      requires Valid()
      modifies videos
      ensures Valid()
      ensures videos[..] == RotateVideos(old(videos[..]))
      ensures forall i :: 0 <= i < videos.Length ==>
        videos[i].path == old(videos[i].path) &&
        videos[i].screen == old(videos[(i + 1) % videos.Length].screen)
    {
      var current := Screens(videos[..]);
      var rotated := RotateLeft(current);
      for i := 0 to videos.Length
        invariant forall k :: 0 <= k < i ==> videos[k] == Video(old(videos[k].path), rotated[k])
        invariant forall k :: i <= k < videos.Length ==> videos[k] == old(videos[k])
      {
        videos[i] := videos[i].(screen := rotated[i]);
      }
      ghost var was := old(videos[..]);
      assert videos[..] == RotateVideos(was);
      RotateLeftAt(current);
      RotateVideosInRange(was, count);
    }

    /** The initial launch; on success the scheduler and the key listener start. */
    method Begin(stopRaises: bool, spawn: nat -> SpawnOutcome)
      requires Valid()
      modifies this
      ensures Valid()
      ensures State() == Step(Cfg(), old(State()), Event.Begin(stopRaises, spawn))
    {
      if phase == Idle {
        InvResolvable(Cfg(), State());
        var launch := StartInstances(stopRaises, videos[..], table, count, spawn);
        if launch.raised {
          phase := Crashed;
        } else {
          phase, listening, processes := Running, true, launch.handles;
        }
      }
    }

    /** One expiry of the scheduler's timed wait. */
    method Tick(stopRaises: bool, spawn: nat -> SpawnOutcome)
      requires Valid()
      modifies this, videos
      ensures Valid()
      ensures State() == Step(Cfg(), old(State()), Event.Tick(stopRaises, spawn))
    {
      if phase == Running {
        if exitFlag {
          phase := Stopped;
        } else {
          RotateAndRelaunch(stopRaises, spawn);
        }
      }
    }

    /** The body of a tick with the flag clear: rotate in place, then relaunch. */
    method RotateAndRelaunch(stopRaises: bool, spawn: nat -> SpawnOutcome)
      requires Valid() && phase == Running && !exitFlag
      modifies this, videos
      ensures Valid()
      ensures State() == Step(Cfg(), old(State()), Event.Tick(stopRaises, spawn))
    {
      ghost var before := State();
      Rotate();
      assert State() == before.(videos := RotateVideos(before.videos));
      InvResolvable(Cfg(), State());
      var launch := StartInstances(stopRaises, videos[..], table, count, spawn);
      if launch.raised {
        phase := Crashed;
      } else {
        processes := launch.handles;
      }
    }

    /**
      The key callback: Esc sets the exit flag, wakes the scheduler and
      asks the listener to stop; every other key is ignored. The listener
      calls it only while it is running.
    */
    method OnPress(key: Key) returns (keepListening: bool)
      requires Valid() && listening
      modifies this
      ensures Valid()
      ensures keepListening <==> !key.Esc?
      ensures exitFlag == (old(exitFlag) || key.Esc?) && rotateFlag == (old(rotateFlag) || key.Esc?)
      ensures listening == old(listening) && phase == old(phase) && processes == old(processes)
    {
      keepListening := true;
      if key.Esc? {
        exitFlag := true;
        rotateFlag := true;
        keepListening := false;
      }
    }

    /** The listener: delivers a key to the callback while it is listening. */
    method Listen(key: Key)
      requires Valid()
      modifies this
      ensures Valid()
      ensures State() == Step(Cfg(), old(State()), Press(key))
    {
      if listening {
        var keep := OnPress(key);
        listening := keep;
      }
    }
  }
}
