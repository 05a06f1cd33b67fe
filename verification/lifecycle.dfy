/** Sequences of launches interleaved with the external script (or an operator)
    creating and removing files, the way the markers change between requests. */
module Lifecycle {
  import opened Nodes
  import opened Sentinels
  import opened Crowbar

  /** One event: a launch request, or a file appearing or disappearing outside the core. */
  datatype Step = Launch | CreateFile(path: string) | RemoveFile(path: string)

  /** The result of every launch request in order, and the final world. */
  datatype Trace = Trace(results: seq<bool>, world: World)

  function CountLaunches(steps: seq<Step>): nat
  {
    if steps == [] then 0 else (if steps[0].Launch? then 1 else 0) + CountLaunches(steps[1..])
  }

  function CountTrue(bs: seq<bool>): nat
  {
    if bs == [] then 0 else (if bs[0] then 1 else 0) + CountTrue(bs[1..])
  }

  function Run(w: World, steps: seq<Step>): (r: Trace)
    ensures |r.results| == CountLaunches(steps)
    decreases |steps|
  {
    if steps == [] then Trace([], w)
    else
      match steps[0]
      case Launch =>
        var o := LaunchUpgrade(w);
        var rest := Run(o.world, steps[1..]);
        Trace([o.launched] + rest.results, rest.world)
      case CreateFile(p) => Run(w.(files := w.files + {p}), steps[1..])
      case RemoveFile(p) => Run(w.(files := w.files - {p}), steps[1..])
  }

  /** Every process ever started belongs to a launch that reported success, and each
      such launch started exactly one. */
  lemma {:induction false} SpawnsMatchSuccessfulLaunches(w: World, steps: seq<Step>)
    ensures CountSpawns(Run(w, steps).world.log) == CountSpawns(w.log) + CountTrue(Run(w, steps).results)
    decreases |steps|
  {
    if steps != [] {
      match steps[0]
      case Launch =>
        var o := LaunchUpgrade(w);
        SpawnsMatchSuccessfulLaunches(o.world, steps[1..]);
        var rest := Run(o.world, steps[1..]);
        assert ([o.launched] + rest.results)[1..] == rest.results;
      case CreateFile(p) =>
        SpawnsMatchSuccessfulLaunches(w.(files := w.files + {p}), steps[1..]);
      case RemoveFile(p) =>
        SpawnsMatchSuccessfulLaunches(w.(files := w.files - {p}), steps[1..]);
    }
  }

  /** While the in-progress marker exists and nothing removes it, every launch is
      refused: the node, the effect log and the files' marker stay as they were. */
  lemma {:induction false} GuardHoldsWhileUpgrading(w: World, steps: seq<Step>)
    requires Upgrading(w.files)
    requires forall i :: 0 <= i < |steps| ==> steps[i] != RemoveFile(UpgradingMarker)
    ensures forall i :: 0 <= i < |Run(w, steps).results| ==> !Run(w, steps).results[i]
    ensures Run(w, steps).world.adminNode == w.adminNode
    ensures Run(w, steps).world.log == w.log
    ensures Upgrading(Run(w, steps).world.files)
    decreases |steps|
  {
    if steps != [] {
      assert forall i :: 0 <= i < |steps[1..]| ==> steps[1..][i] == steps[i + 1];
      match steps[0]
      case Launch =>
        var o := LaunchUpgrade(w);
        GuardHoldsWhileUpgrading(o.world, steps[1..]);
      case CreateFile(p) =>
        GuardHoldsWhileUpgrading(w.(files := w.files + {p}), steps[1..]);
      case RemoveFile(p) =>
        assert p != UpgradingMarker;
        GuardHoldsWhileUpgrading(w.(files := w.files - {p}), steps[1..]);
    }
  }

  /** Once the started script has written its marker, a second launch is refused
      and changes neither the node nor the log. */
  lemma SecondLaunchRefusedAfterMarker(w: World)
    requires !Upgrading(w.files) && w.scriptPath in w.files
    ensures var t := Run(w, [Launch, CreateFile(UpgradingMarker), Launch]);
            && t.results == [true, false]
            && t.world.adminNode == ClearPlatform(w.adminNode)
            && CountSpawns(t.world.log) == CountSpawns(w.log) + 1
            && t.world.errors == w.errors + [UpgradeOngoing]
  {
    var steps := [Launch, CreateFile(UpgradingMarker), Launch];
    SpawnsMatchSuccessfulLaunches(w, steps);
    var o := LaunchUpgrade(w);
    var w1 := o.world.(files := o.world.files + {UpgradingMarker});
    assert steps[1..] == [CreateFile(UpgradingMarker), Launch];
    assert steps[1..][1..] == [Launch];
    assert [Launch][1..] == [];
    assert Run(w, steps).results == [true] + Run(w1, [Launch]).results;
  }

  /** The guard is a check on the marker, which only the started script writes: two
      launches with no marker written in between both start a process. */
  lemma BackToBackLaunchesBothStart(w: World)
    requires !Upgrading(w.files) && w.scriptPath in w.files
    ensures var t := Run(w, [Launch, Launch]);
            && t.results == [true, true]
            && CountSpawns(t.world.log) == CountSpawns(w.log) + 2
  {
  }
}
