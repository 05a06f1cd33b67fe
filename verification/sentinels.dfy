/** The sentinel state store: three marker files under one fixed directory whose
    presence records the progress of an admin-server upgrade. */
module Sentinels {

  const LibPath := "/var/lib/crowbar/install"

  const UpgradingMarker := LibPath + "/admin_server_upgrading"
  const SucceededMarker := LibPath + "/admin-server-upgraded-ok"
  const FailedMarker := LibPath + "/admin-server-upgrade-failed"

  /** `upgrading?`: the in-progress marker exists; the other two markers have no bearing on it. */
  function Upgrading(files: set<string>): (r: bool)
    ensures r <==> UpgradingMarker in files - {SucceededMarker, FailedMarker}
  {
    UpgradingMarker in files
  }

  /** `success?`: the succeeded marker exists; the other two markers have no bearing on it. */
  function Succeeded(files: set<string>): (r: bool)
    ensures r <==> SucceededMarker in files - {UpgradingMarker, FailedMarker}
  {
    SucceededMarker in files
  }

  /** `failed?`: the failed marker exists; the other two markers have no bearing on it. */
  function Failed(files: set<string>): (r: bool)
    ensures r <==> FailedMarker in files - {UpgradingMarker, SucceededMarker}
  {
    FailedMarker in files
  }

  /** The files holding exactly the markers selected by the three flags. */
  function MarkerFiles(upgrading: bool, succeeded: bool, failed: bool): (files: set<string>)
    ensures Upgrading(files) <==> upgrading
    ensures Succeeded(files) <==> succeeded
    ensures Failed(files) <==> failed
  {
    (if upgrading then {UpgradingMarker} else {})
      + (if succeeded then {SucceededMarker} else {})
      + (if failed then {FailedMarker} else {})
  }
}
