/**
 * The BLE connection: the user commands `connectToDevice` and
 * `disconnectFromDevice`, and the handlers of `gattCallback`. Every handler's
 * state change is posted to the main thread, so each one is modelled as one
 * transition applied in posting order. No handler checks which connection a
 * callback came from or what the current status is.
 */
module Session {
  import opened Wrappers
  import opened Platform
  import opened GpsFrame

  /** `BluetoothGatt.GATT_SUCCESS`. */
  const GattSuccess: int := 0
  /** `BluetoothProfile.STATE_DISCONNECTED`. */
  const StateDisconnected: int := 0
  /** `BluetoothProfile.STATE_CONNECTED`. */
  const StateConnected: int := 2

  /** The text shown when no payload is held. */
  const NoData: string := "No data"
  /** The text shown when a legacy notification carried no value. */
  const NullValue: string := "Error: null value"

  /** The connection status shown to the user (`connectionState`). */
  datatype Status =
    | Disconnected
    | Connecting
    | Connected
    | WaitingForData
    | ReceivingData
    | DiscoveryFailed
    | ServiceNotFound
    | CharacteristicNotFound
    | CccdNotFound
    | NotificationsFailed
  {
    /** The five error statuses. */
    predicate IsError() {
      DiscoveryFailed? || ServiceNotFound? || CharacteristicNotFound? || CccdNotFound? || NotificationsFailed?
    }
  }

  /** The exact text `connectionState` holds for each status; distinct statuses have distinct texts. */
  function Label(st: Status): (r: string)
    ensures StatusOf(r) == Some(st)
  {
    match st
    case Disconnected => "Disconnected"
    case Connecting => "Connecting..."
    case Connected => "Connected"
    case WaitingForData => "Waiting for data..."
    case ReceivingData => "Receiving data"
    case DiscoveryFailed => "Error: Service discovery failed"
    case ServiceNotFound => "Error: Service not found"
    case CharacteristicNotFound => "Error: Characteristic not found"
    case CccdNotFound => "Error: CCCD not found"
    case NotificationsFailed => "Error: Failed to enable notifications"
  }

  /** Exactly the error statuses are shown with the "Error: " prefix. */
  lemma ErrorLabel(st: Status)
    ensures st.IsError() <==> "Error: " <= Label(st)
  {
    var r := Label(st);
    if st.IsError() {
      assert r[..7] == "Error: ";
    } else {
      assert r[0] != "Error: "[0];
    }
  }

  /** Reads a status back from its text; `None` for any text the activity never shows. */
  function StatusOf(text: string): Option<Status>
  {
    if text == "Disconnected" then Some(Disconnected)
    else if text == "Connecting..." then Some(Connecting)
    else if text == "Connected" then Some(Connected)
    else if text == "Waiting for data..." then Some(WaitingForData)
    else if text == "Receiving data" then Some(ReceivingData)
    else if text == "Error: Service discovery failed" then Some(DiscoveryFailed)
    else if text == "Error: Service not found" then Some(ServiceNotFound)
    else if text == "Error: Characteristic not found" then Some(CharacteristicNotFound)
    else if text == "Error: CCCD not found" then Some(CccdNotFound)
    else if text == "Error: Failed to enable notifications" then Some(NotificationsFailed)
    else None
  }

  /** What `onServicesDiscovered` finds on the peripheral: the GPS service, its characteristic, and the characteristic's CCCD. */
  datatype Lookup = Lookup(hasService: bool, hasCharacteristic: bool, hasCccd: bool)

  /**
   * The connection-related part of the activity's state: the GATT handle (the
   * device it was opened to, `None` for null), the status, the last payload text
   * (`gpsData`), the connected device's name and the accumulated track.
   */
  datatype Link<D> = Link(
    gatt: Option<Device>,
    status: Status,
    gpsData: string,
    deviceName: string,
    points: seq<GpsPoint<D>>)

  /** The link as the activity starts with it, and as `disconnectFromDevice` leaves it. */
  function Closed<D>(): (r: Link<D>)
    ensures r.gatt.None? && r.status == Disconnected && r.gpsData == NoData
    ensures r.deviceName == "" && r.points == []
  {
    Link(None, Disconnected, NoData, "", [])
  }

  /**
   * `connectToDevice`: without permissions nothing changes. Otherwise the status
   * becomes Connecting, the device's name is recorded, the previous handle (if
   * any) is closed and a new connection to the device is opened. The last
   * payload text and the track are kept.
   */
  function Connect<D>(link: Link<D>, hasPermissions: bool, device: Device): (r: Reaction<Link<D>>)
    ensures !hasPermissions ==> r.next == link && r.effects == []
    ensures hasPermissions ==>
              && r.next.status == Connecting
              && r.next.deviceName == DisplayName(device)
              && r.next.gatt == Some(device)
              && r.next.gpsData == link.gpsData
              && r.next.points == link.points
    ensures hasPermissions && link.gatt.Some? ==> r.effects == [CloseGatt, ConnectGatt(device)]
    ensures hasPermissions && link.gatt.None? ==> r.effects == [ConnectGatt(device)]
  {
    if !hasPermissions then Reaction(link, [])
    else
      Reaction(
        link.(status := Connecting, deviceName := DisplayName(device), gatt := Some(device)),
        (if link.gatt.Some? then [CloseGatt] else []) + [ConnectGatt(device)])
  }

  /**
   * `disconnectFromDevice`: from any link the result is the initial link, with
   * an empty track; an open handle is disconnected and then closed.
   */
  function Disconnect<D>(link: Link<D>): (r: Reaction<Link<D>>)
    ensures r.next == Closed()
    ensures link.gatt.Some? ==> r.effects == [DisconnectGatt, CloseGatt]
    ensures link.gatt.None? ==> r.effects == []
  {
    Reaction(Closed(), if link.gatt.Some? then [DisconnectGatt, CloseGatt] else [])
  }

  /**
   * `onConnectionStateChange`: on STATE_CONNECTED the status becomes Connected and
   * service discovery is requested; on STATE_DISCONNECTED the status becomes
   * Disconnected and the payload text is reset, but the handle, the device name
   * and the track are kept; any other state changes nothing.
   */
  function OnConnectionStateChange<D>(link: Link<D>, newState: int): (r: Reaction<Link<D>>)
    ensures r.next.gatt == link.gatt && r.next.deviceName == link.deviceName && r.next.points == link.points
    ensures newState == StateConnected ==> r.next.status == Connected && r.next.gpsData == link.gpsData
    ensures newState == StateDisconnected ==> r.next.status == Disconnected && r.next.gpsData == NoData
    ensures newState != StateConnected && newState != StateDisconnected ==> r.next == link
    ensures newState == StateConnected ==> r.effects == [DiscoverServices]
    ensures newState != StateConnected ==> r.effects == []
  {
    if newState == StateConnected then Reaction(link.(status := Connected), [DiscoverServices])
    else if newState == StateDisconnected then Reaction(link.(status := Disconnected, gpsData := NoData), [])
    else Reaction(link, [])
  }

  /**
   * The status `onServicesDiscovered` posts, a decision chain in this order:
   * a failed discovery, then a missing service, a missing characteristic, a
   * missing CCCD; with all three present the status is Waiting for data.
   */
  function DiscoveryStatus(gattStatus: int, found: Lookup): (st: Status)
    ensures st == DiscoveryFailed <==> gattStatus != GattSuccess
    ensures st == ServiceNotFound <==> gattStatus == GattSuccess && !found.hasService
    ensures st == CharacteristicNotFound <==> gattStatus == GattSuccess && found.hasService && !found.hasCharacteristic
    ensures st == CccdNotFound <==>
              gattStatus == GattSuccess && found.hasService && found.hasCharacteristic && !found.hasCccd
    ensures st == WaitingForData <==>
              gattStatus == GattSuccess && found.hasService && found.hasCharacteristic && found.hasCccd
  {
    if gattStatus != GattSuccess then DiscoveryFailed
    else if !found.hasService then ServiceNotFound
    else if !found.hasCharacteristic then CharacteristicNotFound
    else if !found.hasCccd then CccdNotFound
    else WaitingForData
  }

  /**
   * `onServicesDiscovered`: only the status changes. Notifications are enabled
   * locally as soon as the characteristic is found, and the CCCD is written when
   * it is found too; the results of those two calls are not looked at.
   */
  function OnServicesDiscovered<D>(link: Link<D>, gattStatus: int, found: Lookup): (r: Reaction<Link<D>>)
    ensures r.next == link.(status := DiscoveryStatus(gattStatus, found))
    ensures r.next.status == WaitingForData ==> r.effects == [EnableNotifications, WriteCccd]
    ensures r.next.status == CccdNotFound ==> r.effects == [EnableNotifications]
    ensures r.next.status != WaitingForData && r.next.status != CccdNotFound ==> r.effects == []
  {
    var st := DiscoveryStatus(gattStatus, found);
    var effects :=
      if gattStatus == GattSuccess && found.hasService && found.hasCharacteristic then
        [EnableNotifications] + (if found.hasCccd then [WriteCccd] else [])
      else [];
    Reaction(link.(status := st), effects)
  }

  /**
   * `onDescriptorWrite`: writes to descriptors other than the CCCD are ignored;
   * for the CCCD a success means Receiving data and anything else the
   * notifications error. Only the status changes.
   */
  function OnDescriptorWrite<D>(link: Link<D>, isCccd: bool, gattStatus: int): (r: Link<D>)
    ensures !isCccd ==> r == link
    ensures isCccd ==> r == link.(status := r.status)
    ensures isCccd ==> (r.status == ReceivingData <==> gattStatus == GattSuccess)
    ensures isCccd ==> (r.status == NotificationsFailed <==> gattStatus != GattSuccess)
  {
    if !isCccd then link
    else if gattStatus == GattSuccess then link.(status := ReceivingData)
    else link.(status := NotificationsFailed)
  }

  /**
   * A notification of the new API (`onCharacteristicChanged` with a value):
   * other characteristics are ignored; for the GPS characteristic the payload
   * text becomes `gpsData` and is then parsed into the track.
   */
  function OnNotification<D>(link: Link<D>, uuidMatches: bool, value: string, toDouble: string -> Option<D>): (r: Link<D>)
    ensures !uuidMatches ==> r == link
    ensures r.(gpsData := link.gpsData, points := link.points) == link
    ensures uuidMatches ==> r.gpsData == value
    ensures link.points <= r.points
    ensures |r.points| == |link.points| + 1 <==> uuidMatches && Parse(value, toDouble).Some?
    ensures |r.points| == |link.points| + 1 ==> r.points[|link.points|] == Parse(value, toDouble).value
    ensures |r.points| <= |link.points| + 1
  {
    if !uuidMatches then link
    else link.(gpsData := value, points := Store(link.points, value, toDouble))
  }

  /**
   * A notification of the legacy API (`onCharacteristicChanged` reading the
   * characteristic's value): as the new API when a value is present; a null
   * value only sets `gpsData` to the null-value error.
   */
  function OnLegacyNotification<D>(link: Link<D>, uuidMatches: bool, value: Option<string>, toDouble: string -> Option<D>): (r: Link<D>)
    ensures value.Some? ==> r == OnNotification(link, uuidMatches, value.value, toDouble)
    ensures value.None? && uuidMatches ==> r == link.(gpsData := NullValue)
    ensures value.None? ==> r.points == link.points
    ensures !uuidMatches ==> r == link
  {
    if !uuidMatches then link
    else match value
      case Some(text) => link.(gpsData := text, points := Store(link.points, text, toDouble))
      case None => link.(gpsData := NullValue)
  }
}
