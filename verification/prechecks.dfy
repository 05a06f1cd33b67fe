/** The read-only precondition checks of `Api::Crowbar`, with the external tools
    replaced by what they return: the exit status of `zypper patch-check`, the
    parsed product listing of `sudo /usr/bin/zypper-retry --xmlout products`, the
    cluster health report and the list of compute nodes. */
module Prechecks {
  import opened Wrappers
  import opened Crowbar

  // ---------------------------------------------------------------------------
  // Pending maintenance updates

  /** zypper's exit code for "patches available for installation". */
  const ZypperExitInfUpdateNeeded := 100
  /** zypper's exit code for "security patches available for installation". */
  const ZypperExitInfSecUpdateNeeded := 101

  /** What a `zypper patch-check` exit status means to the check. */
  datatype PatchState = UpdatesNeeded | SecurityUpdatesNeeded | NoBlockingUpdates

  /** Classifies an exit status; `None` is a process that ended without one. */
  function ClassifyPatchCheck(exitStatus: Option<int>): (r: PatchState)
    ensures r == UpdatesNeeded <==> exitStatus == Some(100)
    ensures r == SecurityUpdatesNeeded <==> exitStatus == Some(101)
    ensures r == NoBlockingUpdates <==> exitStatus != Some(100) && exitStatus != Some(101)
  {
    match exitStatus
    case Some(code) =>
      if code == ZypperExitInfUpdateNeeded then UpdatesNeeded
      else if code == ZypperExitInfSecUpdateNeeded then SecurityUpdatesNeeded
      else NoBlockingUpdates
    case None => NoBlockingUpdates
  }

  /** `maintenance_updates_installed?`: false exactly for the two "updates needed"
      codes, true for every other code and for a missing status. */
  function MaintenanceUpdatesInstalled(exitStatus: Option<int>): (r: bool)
    ensures !r <==> exitStatus.Some? && (exitStatus.value == 100 || exitStatus.value == 101)
  {
    ClassifyPatchCheck(exitStatus) == NoBlockingUpdates
  }

  // ---------------------------------------------------------------------------
  // Product repositories

  datatype Product = Product(name: string, version: string)

  /** The product repository the upgraded admin server needs. */
  const OsProduct := Product("SLES", "12.2")
  /** The cloud product repository the upgraded admin server needs. */
  const CloudProduct := Product("suse-openstack-cloud", "7")

  /** The shape `product_list` takes once the XML listing is turned into a hash: the
      element collapses to nil with no products and to a single hash with one, so
      parsing yields `ManyProducts` only with two or more entries; shorter sequences
      there cannot arise from a listing. */
  datatype ProductList = NoProducts | OneProduct(product: Product) | ManyProducts(products: seq<Product>)

  /** The parsed `stream` element of `sudo /usr/bin/zypper-retry --xmlout products`. */
  datatype ZypperStream = ZypperStream(message: Option<string>, productList: ProductList)

  const LockedPrefix := "System management is locked"

  /** A line of `s` starts at index `i` (the meaning of `^` in a Ruby pattern). */
  predicate LineStartsAt(s: string, i: int)
  {
    i == 0 || (0 < i <= |s| && s[i - 1] == '\n')
  }

  predicate PrefixAt(s: string, p: string, i: nat)
  {
    i + |p| <= |s| && s[i..i + |p|] == p
  }

  /** Scans from index `from` for a line that begins with the locked phrase. */
  function LockedLineFrom(m: string, from: nat): (r: bool)
    requires from <= |m|
    ensures r <==> exists i :: from <= i <= |m| && LineStartsAt(m, i) && PrefixAt(m, LockedPrefix, i)
    decreases |m| - from
  {
    if LineStartsAt(m, from) && PrefixAt(m, LockedPrefix, from) then true
    else if from == |m| then false
    else LockedLineFrom(m, from + 1)
  }

  /** `message =~ /^System management is locked/`: some line of the message begins
      with the phrase; a missing message never matches. */
  function Locked(message: Option<string>): (r: bool)
    ensures r <==> message.Some? &&
                   exists i :: 0 <= i <= |message.value| && LineStartsAt(message.value, i)
                                                         && PrefixAt(message.value, LockedPrefix, i)
  {
    message.Some? && LockedLineFrom(message.value, 0)
  }

  /** `repo_version_available?`: some single entry has both the name and the version. */
  function RepoVersionAvailable(products: seq<Product>, name: string, version: string): (r: bool)
    ensures r <==> exists i :: 0 <= i < |products| && products[i].version == version && products[i].name == name
  {
    if products == [] then false
    else (products[0].version == version && products[0].name == name)
         || RepoVersionAvailable(products[1..], name, version)
  }

  /** The entries a product listing holds, whatever its shape. */
  function Entries(l: ProductList): seq<Product>
  {
    match l
    case NoProducts => []
    case OneProduct(p) => [p]
    case ManyProducts(ps) => ps
  }

  datatype Availability = Availability(available: bool)

  /** The hash `repocheck` returns; a key that is not set is `None`. */
  datatype RepoReport = RepoReport(os: Option<Availability>, cloud: Option<Availability>)

  datatype RepocheckOutcome = RepocheckOutcome(report: RepoReport, world: World)

  function ZypperLocked(message: string): ErrorEntry
  {
    ErrorEntry(BaseAttr, Translated("api.crowbar.zypper_locked", Some(message)))
  }

  /** A product appears as one entry of the listing, name and version together. */
  ghost predicate Listed(l: ProductList, p: Product)
  {
    exists i :: 0 <= i < |Entries(l)| && Entries(l)[i] == p
  }

  /** `repocheck`, with the product listing read whatever its shape. A locked package
      manager yields one error and an empty report; otherwise both availabilities are
      reported and the world is untouched. */
  function Repocheck(w: World, s: ZypperStream): (r: RepocheckOutcome)
    ensures Locked(s.message) ==>
              && r.report == RepoReport(None, None)
              && r.world == w.(errors := w.errors + [ZypperLocked(s.message.value)])
    ensures !Locked(s.message) ==>
              && r.world == w
              && r.report.os.Some? && r.report.cloud.Some?
              && (r.report.os.value.available <==> Listed(s.productList, OsProduct))
              && (r.report.cloud.value.available <==> Listed(s.productList, CloudProduct))
  {
    if Locked(s.message) then
      RepocheckOutcome(RepoReport(None, None), w.(errors := w.errors + [ZypperLocked(s.message.value)]))
    else
      var products := Entries(s.productList);
      RepocheckOutcome(
        RepoReport(
          Some(Availability(RepoVersionAvailable(products, OsProduct.name, OsProduct.version))),
          Some(Availability(RepoVersionAvailable(products, CloudProduct.name, CloudProduct.version)))),
        w)
  }

  /** The exception `repocheck` raises on an unexpected listing shape. */
  datatype Crash = NoMethodError | TypeError

  /** `repocheck` as written: `product_list["product"]` on a nil element raises, and
      iterating a single product hash yields key/value pairs that cannot be indexed
      by a string. */
  function RepocheckAsWritten(w: World, s: ZypperStream): (r: Result<RepocheckOutcome, Crash>)
    ensures !Locked(s.message) && s.productList.NoProducts? ==> r == Failure(NoMethodError)
    ensures !Locked(s.message) && s.productList.OneProduct? ==> r == Failure(TypeError)
    ensures Locked(s.message) || s.productList.ManyProducts? ==> r == Success(Repocheck(w, s))
  {
    if Locked(s.message) then
      Success(RepocheckOutcome(RepoReport(None, None), w.(errors := w.errors + [ZypperLocked(s.message.value)])))
    else
      match s.productList
      case NoProducts => Failure(NoMethodError)
      case OneProduct(_) => Failure(TypeError)
      case ManyProducts(products) =>
        Success(RepocheckOutcome(
          RepoReport(
            Some(Availability(RepoVersionAvailable(products, OsProduct.name, OsProduct.version))),
            Some(Availability(RepoVersionAvailable(products, CloudProduct.name, CloudProduct.version)))),
          w))
  }

  /** A system whose only product is the required operating system: the code as
      written raises, while the corrected check reports the OS repository available. */
  lemma SingleProductListing(w: World)
    ensures var s := ZypperStream(None, OneProduct(OsProduct));
            && RepocheckAsWritten(w, s) == Failure(TypeError)
            && Repocheck(w, s).report.os == Some(Availability(true))
            && Repocheck(w, s).report.cloud == Some(Availability(false))
  {
  }

  /** Name and version must match on the same entry: the OS name with the cloud
      version and the cloud name with the OS version make neither available. */
  lemma CrossedEntriesNotAvailable(w: World)
    ensures var s := ZypperStream(None, ManyProducts([Product("SLES", "7"), Product("suse-openstack-cloud", "12.2")]));
            Repocheck(w, s).report == RepoReport(Some(Availability(false)), Some(Availability(false)))
  {
  }

  // ---------------------------------------------------------------------------
  // Cluster health and compute capacity

  /** The health report: section name ("crm_failures", "failed_actions") to a map
      from node name to the reported problem. */
  type HealthReport = map<string, map<string, string>>

  const CrmFailures := "crm_failures"
  const FailedActions := "failed_actions"

  /** Nodes the report names under a section; an absent section names none. */
  function SectionNodes(report: HealthReport, section: string): set<string>
  {
    if section in report then report[section].Keys else {}
  }

  /** `clusters_healthy?`: healthy exactly when the report has no entry at all. */
  function ClustersHealthy(report: HealthReport): (r: bool)
    ensures r <==> report == map[]
    ensures r ==> SectionNodes(report, CrmFailures) == {} && SectionNodes(report, FailedActions) == {}
  {
    |report| == 0
  }

  /** Health is judged on the report's emptiness, not on failing nodes: a report
      holding an empty section names no node and is still unhealthy. */
  lemma EmptySectionIsUnhealthy()
    ensures var report := map[CrmFailures := map[]];
            && SectionNodes(report, CrmFailures) == {}
            && SectionNodes(report, FailedActions) == {}
            && !ClustersHealthy(report)
  {
  }

  /** `compute_resources_available?`: false exactly when one compute node exists;
      with none or with several a non-disruptive upgrade is possible. */
  function ComputeResourcesAvailable(computeNodes: seq<string>): (r: bool)
    ensures !r <==> exists n :: computeNodes == [n]
  {
    if |computeNodes| == 1 then
      assert computeNodes == [computeNodes[0]];
      false
    else
      true
  }
}
