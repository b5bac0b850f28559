/**
 * Discovery-list bookkeeping: the broadcast receiver for ACTION_FOUND,
 * ACTION_DISCOVERY_STARTED and ACTION_DISCOVERY_FINISHED, the precondition chain
 * of `startDiscovery`, `stopDiscovery` and `loadPairedDevices`.
 */
module Discovery {
  import opened Wrappers
  import opened Platform

  /** The scan-related part of the activity's state. */
  datatype Scan = Scan(isScanning: bool, discovered: seq<Device>, paired: seq<Device>)

  /** The state before anything happened: not scanning, both lists empty. */
  function Fresh(): (r: Scan)
    ensures !r.isScanning && r.discovered == [] && r.paired == []
  {
    Scan(false, [], [])
  }

  /** `devices.contains(d)`: `BluetoothDevice.equals` compares hardware addresses. */
  predicate Listed(devices: seq<Device>, d: Device) {
    exists i :: 0 <= i < |devices| && devices[i].address == d.address
  }

  /** No address occurs twice in the list. */
  predicate DistinctAddresses(devices: seq<Device>) {
    forall i, j :: 0 <= i < j < |devices| ==> devices[i].address != devices[j].address
  }

  /**
   * ACTION_FOUND: the device carried by the broadcast (if any) is appended
   * unless a device with its address is already listed. The list keeps its
   * order, grows by at most one, stays free of duplicates, and afterwards lists
   * exactly the devices it listed before plus the found one.
   */
  function DeviceFound(devices: seq<Device>, found: Option<Device>): (r: seq<Device>)
    ensures devices <= r && |r| <= |devices| + 1
    ensures DistinctAddresses(devices) ==> DistinctAddresses(r)
    ensures forall d :: Listed(r, d) <==> Listed(devices, d) || (found.Some? && found.value.address == d.address)
    ensures found.None? ==> r == devices
    ensures found.Some? && Listed(devices, found.value) ==> r == devices
    ensures found.Some? && !Listed(devices, found.value) ==> r == devices + [found.value]
  {
    match found
    case None => devices
    case Some(d) => if Listed(devices, d) then devices else ListedAppend(devices, d); AppendKeepsDistinct(devices, d); devices + [d]
  }

  /** Appending an unlisted device keeps the addresses distinct. */
  lemma AppendKeepsDistinct(devices: seq<Device>, d: Device)
    requires !Listed(devices, d)
    ensures DistinctAddresses(devices) ==> DistinctAddresses(devices + [d])
  {
    var r := devices + [d];
    if DistinctAddresses(devices) {
      forall i, j | 0 <= i < j < |r|
        ensures r[i].address != r[j].address
      {
        if j == |devices| {
          assert r[i] == devices[i];
        } else {
          assert r[i] == devices[i] && r[j] == devices[j];
        }
      }
    }
  }

  /** Appending a device lists it in addition to what was listed. */
  lemma ListedAppend(devices: seq<Device>, d: Device)
    ensures forall x :: Listed(devices + [d], x) <==> Listed(devices, x) || d.address == x.address
  {
    forall x | Listed(devices + [d], x)
      ensures Listed(devices, x) || d.address == x.address
    {
      var i :| 0 <= i < |devices| + 1 && (devices + [d])[i].address == x.address;
      if i < |devices| {
        assert devices[i].address == x.address;
      }
    }
    forall x | Listed(devices, x)
      ensures Listed(devices + [d], x)
    {
      var i :| 0 <= i < |devices| && devices[i].address == x.address;
      assert (devices + [d])[i] == devices[i];
    }
    assert (devices + [d])[|devices|] == d;
  }

  /** What the environment reports while `startDiscovery` runs. */
  datatype ScanEnv = ScanEnv(
    adapterEnabled: bool,     // bluetoothAdapter.isEnabled
    locationEnabled: bool,    // isLocationEnabled(): GPS or network provider on
    discovering: bool)        // bluetoothAdapter.isDiscovering

  /** The outcome of the precondition chain of `startDiscovery`. */
  datatype ScanCheck = MissingPermissions | NoAdapter | AdapterOff | LocationOff | Passed

  /**
   * The checks of `startDiscovery`, in the order the code makes them; the first
   * failing one decides the outcome.
   */
  function CheckScan(hasPermissions: bool, hasAdapter: bool, env: ScanEnv): (r: ScanCheck)
    ensures r == MissingPermissions <==> !hasPermissions
    ensures r == NoAdapter <==> hasPermissions && !hasAdapter
    ensures r == AdapterOff <==> hasPermissions && hasAdapter && !env.adapterEnabled
    ensures r == LocationOff <==> hasPermissions && hasAdapter && env.adapterEnabled && !env.locationEnabled
    ensures r == Passed <==> hasPermissions && hasAdapter && env.adapterEnabled && env.locationEnabled
  {
    if !hasPermissions then MissingPermissions
    else if !hasAdapter then NoAdapter
    else if !env.adapterEnabled then AdapterOff
    else if !env.locationEnabled then LocationOff
    else Passed
  }

  /**
   * `startDiscovery`: on the first failing check it returns with the lists
   * untouched (asking for permissions, or opening the location settings, on the
   * way); when all checks pass it cancels a discovery in progress, clears the
   * discovered list and starts a new discovery. The scanning flag is not touched:
   * only the adapter's broadcasts change it.
   */
  function StartDiscovery(scan: Scan, hasPermissions: bool, hasAdapter: bool, env: ScanEnv): (r: Reaction<Scan>)
    ensures r.next.isScanning == scan.isScanning && r.next.paired == scan.paired
    ensures CheckScan(hasPermissions, hasAdapter, env) != Passed ==> r.next == scan
    ensures CheckScan(hasPermissions, hasAdapter, env) == Passed ==> r.next.discovered == []
    ensures CheckScan(hasPermissions, hasAdapter, env) == Passed ==>
              r.effects == (if env.discovering then [CancelDiscovery] else []) + [BeginDiscovery]
    ensures CheckScan(hasPermissions, hasAdapter, env) in {NoAdapter, AdapterOff} ==> r.effects == []
    ensures CheckScan(hasPermissions, hasAdapter, env) == MissingPermissions ==> r.effects == [RequestPermissions]
    ensures CheckScan(hasPermissions, hasAdapter, env) == LocationOff ==> r.effects == [OpenLocationSettings]
    ensures BeginDiscovery in r.effects <==> CheckScan(hasPermissions, hasAdapter, env) == Passed
  {
    match CheckScan(hasPermissions, hasAdapter, env)
    case MissingPermissions => Reaction(scan, [RequestPermissions])
    case NoAdapter => Reaction(scan, [])
    case AdapterOff => Reaction(scan, [])
    case LocationOff => Reaction(scan, [OpenLocationSettings])
    case Passed =>
      Reaction(scan.(discovered := []), (if env.discovering then [CancelDiscovery] else []) + [BeginDiscovery])
  }

  /**
   * `stopDiscovery`: with permissions and an adapter it asks the adapter to
   * cancel discovery; it changes no state itself (the adapter later broadcasts
   * ACTION_DISCOVERY_FINISHED).
   */
  function StopDiscovery(scan: Scan, hasPermissions: bool, hasAdapter: bool): (r: Reaction<Scan>)
    ensures r.next == scan
    ensures hasPermissions && hasAdapter ==> r.effects == [CancelDiscovery]
    ensures !hasPermissions || !hasAdapter ==> r.effects == []
  {
    if hasPermissions && hasAdapter then Reaction(scan, [CancelDiscovery]) else Reaction(scan, [])
  }

  /**
   * `loadPairedDevices`: without permissions nothing changes; otherwise the
   * paired list is replaced by the adapter's bonded devices, or emptied when
   * there is no adapter or it reports no bonded set.
   */
  function LoadPairedDevices(scan: Scan, hasPermissions: bool, hasAdapter: bool, bonded: Option<seq<Device>>): (r: Scan)
    ensures !hasPermissions ==> r == scan
    ensures r.isScanning == scan.isScanning && r.discovered == scan.discovered
    ensures hasPermissions && hasAdapter && bonded.Some? ==> r.paired == bonded.value
    ensures hasPermissions && (!hasAdapter || bonded.None?) ==> r.paired == []
  {
    if !hasPermissions then scan
    else scan.(paired := if hasAdapter && bonded.Some? then bonded.value else [])
  }
}
