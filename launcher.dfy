/**
  The launch plan. Only the videos at positions below the number of
  displays are launched, in position order, each with its own path, its
  assigned display and that display's rectangle. Spawning is an oracle
  indexed by the video's position: it either yields a process handle, fails
  with a subprocess error (reported and skipped), or fails with any other
  exception, which the launcher does not catch and which therefore ends the
  whole launch. Before the first spawn the launch stops the running
  players, and that step may raise too.
*/
module Launcher {
  import opened Displays
  import opened Commands

  datatype Video = Video(path: string, screen: int)

  datatype SpawnOutcome = Started(handle: int) | SubprocessError | OtherError

  /**
    What a launch did: the commands it tried, in order, the handles of the
    processes that started, and whether an uncaught exception ended it.
  */
  datatype LaunchResult = LaunchResult(attempted: seq<Command>, handles: seq<int>, raised: bool)

  function Min(a: int, b: int): int {
    if a <= b then a else b
  }

  /** Every video that will be launched has a screen present in the table. */
  predicate Resolvable(videos: seq<Video>, table: map<int, Bounds>, count: nat) {
    forall i :: 0 <= i < |videos| && i < count ==> videos[i].screen in table
  }

  function CommandFor(v: Video, table: map<int, Bounds>): Command
    requires v.screen in table
  {
    Command(v.path, v.screen, table[v.screen])
  }

  /** The commands for positions `i ..` that pass the `position < count` filter. */
  function PlanFrom(videos: seq<Video>, table: map<int, Bounds>, count: nat, i: nat): (p: seq<Command>)
    requires i <= |videos| && Resolvable(videos, table, count)
    ensures |p| == Min(|videos|, count) - Min(i, count)
    ensures forall k :: 0 <= k < |p| ==> i + k < count && p[k] == CommandFor(videos[i + k], table)
    decreases |videos| - i
  {
    if i == |videos| then []
    else (if i < count then [CommandFor(videos[i], table)] else []) + PlanFrom(videos, table, count, i + 1)
  }

  /**
    The commands a launch tries if nothing goes wrong: one per video below
    the display count. It is the same list as filtering the enumerated
    videos by `position < count`, as the launch loop does.
  */
  function Plan(videos: seq<Video>, table: map<int, Bounds>, count: nat): (p: seq<Command>)
    requires Resolvable(videos, table, count)
    ensures p == PlanFrom(videos, table, count, 0)
  {
    seq(Min(|videos|, count), k requires 0 <= k < Min(|videos|, count) => CommandFor(videos[k], table))
  }

  /** The handles of the processes started by attempts `0 .. n - 1`, in order. */
  function Handles(spawn: nat -> SpawnOutcome, n: nat): (h: seq<int>)
    ensures |h| <= n
  {
    if n == 0 then []
    else Handles(spawn, n - 1) + (if spawn(n - 1).Started? then [spawn(n - 1).handle] else [])
  }

  /** The effect of trying the first `k` commands of `plan`. */
  function LaunchFirst(plan: seq<Command>, spawn: nat -> SpawnOutcome, k: nat): (r: LaunchResult)
    requires k <= |plan|
    ensures |r.attempted| <= k && r.attempted == plan[..|r.attempted|]
    ensures !r.raised ==> |r.attempted| == k
    ensures r.raised ==> |r.attempted| >= 1
  {
    if k == 0 then LaunchResult([], [], false)
    else
      var r := LaunchFirst(plan, spawn, k - 1);
      if r.raised then r
      else match spawn(k - 1)
        case Started(h) => LaunchResult(r.attempted + [plan[k - 1]], r.handles + [h], false)
        case SubprocessError => LaunchResult(r.attempted + [plan[k - 1]], r.handles, false)
        case OtherError => LaunchResult(r.attempted + [plan[k - 1]], r.handles, true)
  }

  /**
    One more attempt after `k` attempts that raised nothing: a started
    process adds its handle, a subprocess error adds nothing, and any other
    exception ends the launch there.
  */
  lemma LaunchNext(plan: seq<Command>, spawn: nat -> SpawnOutcome, k: nat, attempted: seq<Command>, handles: seq<int>)
    requires k < |plan| && LaunchFirst(plan, spawn, k) == LaunchResult(attempted, handles, false)
    ensures spawn(k).Started? ==>
      LaunchFirst(plan, spawn, k + 1) == LaunchResult(attempted + [plan[k]], handles + [spawn(k).handle], false)
    ensures spawn(k).SubprocessError? ==>
      LaunchFirst(plan, spawn, k + 1) == LaunchResult(attempted + [plan[k]], handles, false)
    ensures spawn(k).OtherError? ==>
      LaunchFirst(plan, spawn, |plan|) == LaunchResult(attempted + [plan[k]], handles, true)
  {
    if spawn(k).OtherError? {
      RaisedIsFinal(plan, spawn, k + 1, |plan|);
    }
  }

  /**
    Without an uncaught exception every one of the `k` attempts was made and
    the handles are exactly those of the started processes, in order; with
    one, it came from the last attempt made and no earlier attempt raised.
  */
  lemma {:induction false} LaunchFirstOutcome(plan: seq<Command>, spawn: nat -> SpawnOutcome, k: nat)
    requires k <= |plan|
    ensures var r := LaunchFirst(plan, spawn, k);
      (!r.raised ==>
        (forall j :: 0 <= j < k ==> !spawn(j).OtherError?) && r.handles == Handles(spawn, k)) &&
      (r.raised ==>
        spawn(|r.attempted| - 1).OtherError? &&
        (forall j :: 0 <= j < |r.attempted| - 1 ==> !spawn(j).OtherError?) &&
        r.handles == Handles(spawn, |r.attempted| - 1))
  {
    if k > 0 {
      LaunchFirstOutcome(plan, spawn, k - 1);
    }
  }

  /**
    The effect of running a whole plan: the attempts are a prefix of the
    plan (all of it unless an uncaught exception stopped the launch), and
    at most one process is started per attempt.
  */
  function Launch(plan: seq<Command>, spawn: nat -> SpawnOutcome): (r: LaunchResult)
    ensures |r.handles| <= |r.attempted| <= |plan|
    ensures r.attempted == plan[..|r.attempted|]
    ensures !r.raised <==> forall j :: 0 <= j < |plan| ==> !spawn(j).OtherError?
    ensures !r.raised ==> r.attempted == plan && r.handles == Handles(spawn, |plan|)
  {
    LaunchFirstOutcome(plan, spawn, |plan|);
    LaunchFirst(plan, spawn, |plan|)
  }

  /** A handle is returned exactly for each started attempt. */
  lemma {:induction false} HandlesAreStarted(spawn: nat -> SpawnOutcome, n: nat, h: int)
    ensures h in Handles(spawn, n) <==> exists j :: 0 <= j < n && spawn(j) == Started(h)
  {
    if n > 0 {
      HandlesAreStarted(spawn, n - 1, h);
      if spawn(n - 1) == Started(h) {
        assert h in Handles(spawn, n);
      }
    }
  }

  /**
    A launch first stops every running player. That step can itself raise
    (when `terminate()` fails the fallback `kill()` is not guarded), and
    then nothing is attempted and the exception propagates; otherwise the
    plan is run as by `Launch`.
  */
  function LaunchAfterStop(stopRaises: bool, plan: seq<Command>, spawn: nat -> SpawnOutcome): (r: LaunchResult)
    ensures |r.handles| <= |r.attempted| <= |plan| && r.attempted == plan[..|r.attempted|]
    ensures stopRaises ==> r.raised && r.attempted == []
    ensures r.raised <==> stopRaises || exists j :: 0 <= j < |plan| && spawn(j).OtherError?
    ensures !r.raised ==> r.attempted == plan && r.handles == Handles(spawn, |plan|)
  {
    if stopRaises then LaunchResult([], [], true) else Launch(plan, spawn)
  }

  /** Once an uncaught exception has ended a launch, later attempts never happen. */
  lemma {:induction false} RaisedIsFinal(plan: seq<Command>, spawn: nat -> SpawnOutcome, k: nat, m: nat)
    requires k <= m <= |plan| && LaunchFirst(plan, spawn, k).raised
    ensures LaunchFirst(plan, spawn, m) == LaunchFirst(plan, spawn, k)
    decreases m - k
  {
    if k < m {
      RaisedIsFinal(plan, spawn, k, m - 1);
    }
  }

  /**
    The launch: stops the running players (which may raise), then walks
    the videos in position order, skips those at positions not below the
    number of displays, and tries one spawn per remaining video. A
    subprocess error is skipped; any other exception ends the loop at once.
  */
  method StartInstances(stopRaises: bool, videos: seq<Video>, table: map<int, Bounds>, count: nat,
                        spawn: nat -> SpawnOutcome)
    returns (r: LaunchResult)
    requires Resolvable(videos, table, count)
    ensures r == LaunchAfterStop(stopRaises, Plan(videos, table, count), spawn)
  {
    if stopRaises {
      return LaunchResult([], [], true);
    }
    ghost var plan := Plan(videos, table, count);
    var attempted: seq<Command> := [];
    var handles: seq<int> := [];
    var i := 0;
    while i < |videos|
      invariant 0 <= i <= |videos|
      invariant LaunchFirst(plan, spawn, Min(i, count)) == LaunchResult(attempted, handles, false)
    {
      if i < count {
        var cmd := CommandFor(videos[i], table);
        assert cmd == plan[i];
        LaunchNext(plan, spawn, i, attempted, handles);
        attempted := attempted + [cmd];
        var outcome := spawn(i);
        if outcome.Started? {
          handles := handles + [outcome.handle];
        } else if outcome.OtherError? {
          return LaunchResult(attempted, handles, true);
        }
      }
      i := i + 1;
    }
    r := LaunchResult(attempted, handles, false);
  }
}
