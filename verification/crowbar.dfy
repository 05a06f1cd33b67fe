/** `Api::Crowbar`: the status read model and the launcher of the admin-server
    upgrade. The filesystem, the admin node, the process table and the object's
    error list are explicit parts of a `World`; spawning a process and saving the
    node are recorded in an append-only effect log instead of being performed. */
module Crowbar {
  import opened Wrappers
  import opened Nodes
  import opened Sentinels

  /** The attribute an error is filed under (`errors.add(:upgrade, …)` or `:base`). */
  datatype ErrorAttr = UpgradeAttr | BaseAttr

  /** An error message: a translation key with its interpolated detail, or literal text. */
  datatype Message = Translated(key: string, detail: Option<string>) | Plain(text: string)

  datatype ErrorEntry = ErrorEntry(attr: ErrorAttr, message: Message)

  /** An externally visible action of the launcher. */
  datatype Effect = SaveNode(node: AdminNode) | SpawnDetached(command: string)

  /** Everything the core reads or changes. `version` is the value captured from the
      environment when the object was built; `files` are the paths that exist. */
  datatype World = World(
    version: Option<string>,
    errors: seq<ErrorEntry>,
    files: set<string>,
    scriptPath: string,
    adminNode: AdminNode,
    log: seq<Effect>)

  const UpgradeOngoing := ErrorEntry(UpgradeAttr, Translated("api.crowbar.upgrade_ongoing", None))

  function ScriptMissing(path: string): ErrorEntry
  {
    ErrorEntry(UpgradeAttr, Plain("Could not find " + path))
  }

  /** The command line the upgrade script is started with. */
  function SpawnCommand(path: string): string
  {
    "sudo " + path
  }

  /** Number of processes started in a log. */
  function CountSpawns(log: seq<Effect>): nat
  {
    if log == [] then 0
    else (if log[0].SpawnDetached? then 1 else 0) + CountSpawns(log[1..])
  }

  lemma {:induction false} CountSpawnsAppend(a: seq<Effect>, b: seq<Effect>)
    ensures CountSpawns(a + b) == CountSpawns(a) + CountSpawns(b)
  {
    if a == [] {
      assert a + b == b;
    } else {
      assert (a + b)[1..] == a[1..] + b;
      CountSpawnsAppend(a[1..], b);
    }
  }

  /** The read model returned by `status`. */
  datatype StatusReport = StatusReport(version: Option<string>)

  /** The read model returned by `upgrade`: the version plus each sentinel as read. */
  datatype UpgradeReport = UpgradeReport(version: Option<string>, upgrading: bool, success: bool, failed: bool)

  function Status(w: World): (r: StatusReport)
    ensures r.version == w.version
  {
    StatusReport(w.version)
  }

  /** `upgrade`: merges the status with a fresh read of the three markers. */
  function UpgradeStatus(w: World): (r: UpgradeReport)
    ensures r.version == w.version
    ensures r.upgrading <==> UpgradingMarker in w.files
    ensures r.success <==> SucceededMarker in w.files
    ensures r.failed <==> FailedMarker in w.files
  {
    UpgradeReport(Status(w).version, Upgrading(w.files), Succeeded(w.files), Failed(w.files))
  }

  /** The report is not normalised: every combination of the three flags, including
      the inconsistent ones, is reported exactly as the markers read. */
  lemma ReportShowsEveryCombination(w: World, upgrading: bool, success: bool, failed: bool)
    ensures exists files: set<string> ::
              UpgradeStatus(w.(files := files)) == UpgradeReport(w.version, upgrading, success, failed)
  {
    var files := MarkerFiles(upgrading, success, failed);
    assert UpgradeStatus(w.(files := files)) == UpgradeReport(w.version, upgrading, success, failed);
  }

  datatype LaunchOutcome = LaunchOutcome(launched: bool, world: World)

  /** `upgrade!`: refuses while an upgrade is in progress, refuses when the upgrade
      script is missing, and otherwise clears the admin node's platform, saves the
      node and starts the script as a detached process. */
  function LaunchUpgrade(w: World): (r: LaunchOutcome)
    // the launcher never writes files, so it never sets or clears a sentinel
    ensures r.world.files == w.files
    ensures r.world.version == w.version && r.world.scriptPath == w.scriptPath
    ensures r.launched <==> !Upgrading(w.files) && w.scriptPath in w.files
    // refused while upgrading: one "ongoing" error, nothing else changes
    ensures Upgrading(w.files) ==>
              && r.world.errors == w.errors + [UpgradeOngoing]
              && r.world.adminNode == w.adminNode
              && r.world.log == w.log
    // refused for a missing script: one error naming the path, nothing else changes
    ensures !Upgrading(w.files) && w.scriptPath !in w.files ==>
              && r.world.errors == w.errors + [ScriptMissing(w.scriptPath)]
              && r.world.adminNode == w.adminNode
              && r.world.log == w.log
    // launched: no error, the cleared node is saved, then exactly one process starts
    ensures r.launched ==>
              && r.world.errors == w.errors
              && r.world.adminNode == ClearPlatform(w.adminNode)
              && r.world.log == w.log + [SaveNode(r.world.adminNode), SpawnDetached(SpawnCommand(w.scriptPath))]
              && CountSpawns(r.world.log) == CountSpawns(w.log) + 1
    ensures !r.launched ==> CountSpawns(r.world.log) == CountSpawns(w.log)
  {
    if Upgrading(w.files) then
      LaunchOutcome(false, w.(errors := w.errors + [UpgradeOngoing]))
    else if w.scriptPath in w.files then
      var node := ClearPlatform(w.adminNode);
      var effects := [SaveNode(node), SpawnDetached(SpawnCommand(w.scriptPath))];
      assert CountSpawns(effects) == 1 by {
        assert effects[1..] == [SpawnDetached(SpawnCommand(w.scriptPath))];
        assert effects[1..][1..] == [];
        assert CountSpawns(effects[1..]) == 1;
      }
      CountSpawnsAppend(w.log, effects);
      LaunchOutcome(true, w.(adminNode := node, log := w.log + effects))
    else
      LaunchOutcome(false, w.(errors := w.errors + [ScriptMissing(w.scriptPath)]))
  }

  /** Launching never changes what the status report shows: only the external
      script writes the markers. */
  lemma LaunchKeepsReport(w: World)
    ensures UpgradeStatus(LaunchUpgrade(w).world) == UpgradeStatus(w)
  {
  }
}
