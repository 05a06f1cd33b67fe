# Crowbar admin-server upgrade lifecycle, modelled in Dafny

This project models `Api::Crowbar`, the part of the Crowbar framework that drives the
in-place upgrade of the admin server:

- the **status read model** (`status`, `upgrade`): the version plus the three sentinel
  markers under `/var/lib/crowbar/install` (`admin_server_upgrading`,
  `admin-server-upgraded-ok`, `admin-server-upgrade-failed`), each reported as read (as of one moment; see "Left out");
- the **launcher** (`upgrade!`): refuse while upgrading, refuse when the upgrade script is
  missing, otherwise clear the admin node's `target_platform`, drop a stale
  provisioner `default_os`, save the node and start the script detached under `sudo`;
- the **precondition checks**: the `zypper patch-check` exit-code mapping, the product
  repository check (`repocheck`, `repo_version_available?`), cluster health and
  compute capacity.

The world the core acts on is one immutable value, `Crowbar.World`:

- the set of paths that exist (the markers and the upgrade script);
- the admin node record;
- the object's error list (`errors.add`);
- the version read from the environment;
- an append-only effect log.

Saving the node and spawning the script are entries in that effect log
(`SaveNode`, `SpawnDetached`), so "saved before the spawn", "exactly one spawn" and
"nothing spawned" can be stated. Filesystem checks, process creation, `zypper` and
the node registry are replaced by these inputs. No I/O is modelled.

Modules:

- `Wrappers`: `Option` and `Result`.
- `Nodes`: node attributes with Ruby truthiness, and the admin node.
- `Sentinels`: the marker paths.
- `Crowbar`: the status read model and `upgrade!`.
- `Prechecks`: the four checks.
- `Lifecycle`: launches interleaved with markers appearing and disappearing.

In three places the model follows the code closely:

- The code deletes `default_os` only when it reads truthy (`nil`/`false` entries stay).
  So the launcher guarantees that `default_os` reads falsy afterwards, not that the key is
  absent, and it leaves a `nil`/`false` entry exactly as it was.
- `cancel` (crowbar_framework/app/controllers/api/upgrade_controller.rb:61-68) removes no
  marker itself. What `revert_nodes_from_crowbar_upgrade` does is outside this model.
- Errors are entries in the object's error list, each holding a translation key or literal text.

## Model

| member | source | states |
|---|---|---|
| Nodes.DropDefaultOs | crowbar_framework/app/models/api/crowbar.rb:54-56 | afterwards `default_os` reads falsy; every other provisioner key keeps its value and no key is added; the key is removed exactly when it read truthy, otherwise the settings are unchanged |
| Nodes.ClearPlatform | crowbar_framework/app/models/api/crowbar.rb:51-56 | `target_platform` becomes ""; other node attributes are unchanged; a node without provisioner settings still has none; with settings, a truthy `default_os` is removed, `default_os` reads falsy, all other keys keep their values, and settings whose `default_os` is nil, false or absent are left exactly as they were |
| Nodes.ClearPlatformIdempotent | crowbar_framework/app/models/api/crowbar.rb:51-56 | clearing the platform twice gives the same node as clearing it once |
| Sentinels.Upgrading | crowbar_framework/app/models/api/crowbar.rb:147-149 | `upgrading?` is true iff `/var/lib/crowbar/install/admin_server_upgrading` exists; the succeeded and failed markers have no bearing on it |
| Sentinels.Succeeded | crowbar_framework/app/models/api/crowbar.rb:151-153 | `success?` is true iff `/var/lib/crowbar/install/admin-server-upgraded-ok` exists; the other two markers have no bearing on it |
| Sentinels.Failed | crowbar_framework/app/models/api/crowbar.rb:155-157 | `failed?` is true iff `/var/lib/crowbar/install/admin-server-upgrade-failed` exists; the other two markers have no bearing on it |
| Sentinels.MarkerFiles | crowbar_framework/app/models/api/crowbar.rb:143-157 | for every choice of the three flags there is a file set in which `upgrading?`, `success?` and `failed?` read exactly those flags (the three marker paths are distinct) |
| Crowbar.Status | crowbar_framework/app/models/api/crowbar.rb:27-31 | the status carries the version unchanged |
| Crowbar.UpgradeStatus | crowbar_framework/app/models/api/crowbar.rb:33-41 | the report carries the version unchanged and each flag is true iff its marker file exists |
| Crowbar.ReportShowsEveryCombination | crowbar_framework/app/models/api/crowbar.rb:147-157 | every combination of the three flags, inconsistent ones included, is reported exactly as the markers read; no normalisation |
| Crowbar.LaunchUpgrade | crowbar_framework/app/models/api/crowbar.rb:43-71 | returns true iff not upgrading and the script exists; while upgrading: one "upgrade ongoing" error, node and log untouched; script missing: one "Could not find <path>" error, node and log untouched; on success: no error, the node is cleared, saved, then exactly one process is started; files never change |
| Crowbar.LaunchKeepsReport | crowbar_framework/app/models/api/crowbar.rb:43-71 | a launch, successful or not, never changes the status report, because `upgrade!` writes no file |
| Crowbar.CountSpawnsAppend | crowbar_framework/app/models/api/crowbar.rb:59-60 | processes started over two concatenated logs add up |
| Prechecks.ClassifyPatchCheck | crowbar_framework/app/models/api/crowbar.rb:73-90 | exit 100 is "updates needed"; exit 101 is "security updates needed", kept distinct; every other status, or none, is "no blocking updates" |
| Prechecks.MaintenanceUpdatesInstalled | crowbar_framework/app/models/api/crowbar.rb:73-90 | false iff the exit status is 100 or 101; true for every other code and for a missing status |
| Prechecks.LockedLineFrom | crowbar_framework/app/models/api/crowbar.rb:98 | the scan from an index finds the locked phrase iff some line starting at or after it begins with that phrase |
| Prechecks.Locked | crowbar_framework/app/models/api/crowbar.rb:98 | a message is locked iff one of its lines begins with "System management is locked"; a missing message is never locked |
| Prechecks.RepoVersionAvailable | crowbar_framework/app/models/api/crowbar.rb:163-167 | true iff one single entry has both the given name and the given version |
| Prechecks.Repocheck | crowbar_framework/app/models/api/crowbar.rb:92-115 | corrected check: locked: one error and an empty report with no `os`/`cloud` keys; otherwise the world is untouched and `os`/`cloud` are available iff SLES 12.2 / suse-openstack-cloud 7 is listed as one entry |
| Prechecks.RepocheckAsWritten | crowbar_framework/app/models/api/crowbar.rb:92-115 | as written: raises NoMethodError for an empty listing and TypeError for a one-product listing; agrees with `Repocheck` when locked or with two or more products |
| Prechecks.SingleProductListing | crowbar_framework/app/models/api/crowbar.rb:106-113 | with SLES 12.2 as the only product the code as written raises, while the corrected check reports the OS available and the cloud not |
| Prechecks.CrossedEntriesNotAvailable | crowbar_framework/app/models/api/crowbar.rb:163-167 | ("SLES","7") plus ("suse-openstack-cloud","12.2") makes neither product available |
| Prechecks.ClustersHealthy | crowbar_framework/app/models/api/crowbar.rb:117-130 | healthy iff the health report is empty; a healthy report names no failing node in either section |
| Prechecks.EmptySectionIsUnhealthy | crowbar_framework/app/models/api/crowbar.rb:117-130 | a report whose only section is empty names no failing node and is still unhealthy |
| Prechecks.ComputeResourcesAvailable | crowbar_framework/app/models/api/crowbar.rb:132-139 | false iff exactly one compute node is found; true for none and for two or more |
| Lifecycle.Run | crowbar_framework/app/models/api/crowbar.rb:43-71 | a run reports one result per launch request |
| Lifecycle.SpawnsMatchSuccessfulLaunches | crowbar_framework/app/models/api/crowbar.rb:59-63 | over any interleaving, the number of processes started equals the number of launches that returned true |
| Lifecycle.GuardHoldsWhileUpgrading | crowbar_framework/app/models/api/crowbar.rb:44-47 | while the in-progress marker exists and is not removed, every launch returns false; node and log stay unchanged |
| Lifecycle.SecondLaunchRefusedAfterMarker | crowbar_framework/app/models/api/crowbar.rb:43-63 | launch, marker written, launch: results are true then false; one process started; one "ongoing" error |
| Lifecycle.BackToBackLaunchesBothStart | crowbar_framework/app/models/api/crowbar.rb:44-63 | two launches with no marker written in between both succeed and start two processes (the guard is check-then-act) |

## Left out

- Filesystem access (`Pathname#exist?`) is modelled as membership in a set of existing paths.
- The script's location under `Rails.root` is an input (`scriptPath`).
- `spawn`, `Process.detach` and `sudo` are modelled as one `SpawnDetached` log entry carrying the command line. The process id and its logging are not modelled.
- `NodeObject.admin_node` and `save` are modelled as a node record plus a `SaveNode` log entry. A failing save is not modelled: the source does not handle one.
- `NodeObject.admin_node` returning nil is not modelled. The source would raise NoMethodError at the assignment to `target_platform`, before anything is saved or spawned.
- `spawn` raising is not modelled. In the source the node would already be cleared and saved, no process would start, the exception would escape `upgrade!`, and nothing would be rolled back. `Crowbar.LaunchUpgrade` promises "saved, then exactly one process" only because the model's spawn cannot fail.
- `NodeObject.find("roles:nova-compute-kvm")` is modelled as the list it returns.
- `CrowbarService#check_cluster_health` is modelled as the report it returns.
- The warnings logged for each failing node are observability only and are not modelled.
- `zypper patch-check` through `Open3` is modelled as its exit status.
- `sudo /usr/bin/zypper-retry --xmlout products` (a retrying wrapper around zypper) and `Hash.from_xml` are modelled as the parsed stream: an optional message and the product list in one of the three shapes parsing produces.
- Product entries are modelled as name/version strings. Entries missing either attribute are not modelled.
- A `message` element that repeats, and so parses to an array, is not modelled.
- All logging is left out.
- The I18n message texts are left out. Errors carry their translation key and interpolated detail.
- The `CROWBAR_VERSION` environment lookup is left out. The version is a field of the world.
- The upgrade controller is left out because it is HTTP glue:
  - `show`, `update` and `services` only render results.
  - `prepare` and `cancel` delegate to `CrowbarService`, which is not part of this model.
  - `prechecks` calls `Api::Upgrade#check`, which is not part of this model.
- `cancel` (upgrade_controller.rb:61-68) removes no marker itself; what `revert_nodes_from_crowbar_upgrade` does is outside this model.
- Crowbar.UpgradeStatus: reads the three markers from one snapshot of the files. The source checks them one at a time (crowbar.rb:148, 152, 156), so a marker written between two checks can yield a combination that no single moment had, e.g. upgrading and success both true while the script swaps its markers.
- The race between the `upgrading?` check and the spawn is left out: two concurrent requests are a concurrency concern. `Lifecycle.BackToBackLaunchesBothStart` shows the sequential consequence: the guard holds only once the script has written its marker.

## Findings

| source | as written | input that shows it | evidently intended | confidence | as-written member | corrected member |
|---|---|---|---|---|---|---|
| crowbar_framework/app/models/api/crowbar.rb:106-113 | `product_list["product"]` is used as an array of product hashes. Parsed XML collapses one `<product>` to a single hash and an empty list to nil, so `any?` yields key/value pairs (`p["version"]` raises TypeError), or `nil["product"]` raises NoMethodError | a `zypper-retry --xmlout products` listing with exactly one product, e.g. only SLES 12.2 (or with none) | report availability for any number of products, wrapping a single product as a one-element list | medium; not executed | Prechecks.RepocheckAsWritten (exhibited by Prechecks.SingleProductListing) | Prechecks.Repocheck (with Prechecks.Entries) |
