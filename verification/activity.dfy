/**
 * The non-UI half of `MainActivity` as one sequential state machine. User
 * commands, broadcast intents and GATT callbacks all reach the state through the
 * main thread, so they are modelled as a stream of `Event`s applied one at a time
 * by `Step`, in posting order.
 */
module Activity {
  import opened Wrappers
  import opened Platform
  import opened GpsFrame
  import Discovery
  import Session

  /** Everything the activity keeps that is not rendering: adapter presence, permissions, scan lists and the link. */
  datatype State<D> = State(
    hasAdapter: bool,
    hasPermissions: bool,
    scan: Discovery.Scan,
    link: Session.Link<D>)

  /** One serialised input to the activity. */
  datatype Event =
    | PermissionsResult(granted: bool, bonded: Option<seq<Device>>)       // permissionLauncher callback
    | StartScan(env: Discovery.ScanEnv)                                   // "start scan" button
    | StopScan                                                            // "stop scan" button
    | DeviceFound(device: Option<Device>)                                // ACTION_FOUND
    | DiscoveryStarted                                                    // ACTION_DISCOVERY_STARTED
    | DiscoveryFinished                                                   // ACTION_DISCOVERY_FINISHED
    | AdapterStateChanged                                                 // ACTION_STATE_CHANGED
    | Connect(target: Device)                                             // a device card's "connect"
    | Disconnect                                                          // "disconnect" button
    | ConnectionStateChange(newState: int)                                // onConnectionStateChange
    | ServicesDiscovered(gattStatus: int, found: Session.Lookup)          // onServicesDiscovered
    | DescriptorWrite(isCccd: bool, gattStatus: int)                      // onDescriptorWrite
    | LegacyNotification(uuidMatches: bool, value: Option<string>)        // onCharacteristicChanged (before Android 13)
    | Notification(uuidMatches: bool, text: string)                       // onCharacteristicChanged (Android 13 and later)

  /**
   * `onCreate`: the adapter is looked up, permissions are checked and, when all
   * are granted, the paired devices are loaded. The link starts closed, no scan
   * runs and nothing has been discovered.
   */
  function Init<D>(hasAdapter: bool, granted: bool, bonded: Option<seq<Device>>): (r: State<D>)
    ensures r.hasAdapter == hasAdapter && r.hasPermissions == granted
    ensures r.link == Session.Closed()
    ensures !r.scan.isScanning && r.scan.discovered == []
    ensures granted && hasAdapter && bonded.Some? ==> r.scan.paired == bonded.value
    ensures !granted || !hasAdapter || bonded.None? ==> r.scan.paired == []
  {
    State(hasAdapter, granted, Discovery.LoadPairedDevices(Discovery.Fresh(), granted, hasAdapter, bonded), Session.Closed())
  }

  /**
   * Handles one event. Adapter presence is fixed when the activity is created,
   * and only the permission callback changes the permission flag.
   */
  function Step<D>(s: State<D>, e: Event, toDouble: string -> Option<D>): (r: Reaction<State<D>>)
    ensures r.next.hasAdapter == s.hasAdapter
    ensures !e.PermissionsResult? ==> r.next.hasPermissions == s.hasPermissions
  {
    match e
    case PermissionsResult(granted, bonded) =>
      Reaction(s.(hasPermissions := granted,
                  scan := Discovery.LoadPairedDevices(s.scan, granted, s.hasAdapter, bonded)), [])
    case StartScan(env) =>
      var r := Discovery.StartDiscovery(s.scan, s.hasPermissions, s.hasAdapter, env);
      Reaction(s.(scan := r.next), r.effects)
    case StopScan =>
      var r := Discovery.StopDiscovery(s.scan, s.hasPermissions, s.hasAdapter);
      Reaction(s.(scan := r.next), r.effects)
    case DeviceFound(found) =>
      Reaction(s.(scan := s.scan.(discovered := Discovery.DeviceFound(s.scan.discovered, found))), [])
    case DiscoveryStarted =>
      Reaction(s.(scan := s.scan.(isScanning := true)), [])
    case DiscoveryFinished =>
      Reaction(s.(scan := s.scan.(isScanning := false)), [])
    case AdapterStateChanged =>
      Reaction(s, [])
    case Connect(device) =>
      var r := Session.Connect(s.link, s.hasPermissions, device);
      Reaction(s.(link := r.next), r.effects)
    case Disconnect =>
      var r := Session.Disconnect(s.link);
      Reaction(s.(link := r.next), r.effects)
    case ConnectionStateChange(newState) =>
      var r := Session.OnConnectionStateChange(s.link, newState);
      Reaction(s.(link := r.next), r.effects)
    case ServicesDiscovered(gattStatus, found) =>
      var r := Session.OnServicesDiscovered(s.link, gattStatus, found);
      Reaction(s.(link := r.next), r.effects)
    case DescriptorWrite(isCccd, gattStatus) =>
      Reaction(s.(link := Session.OnDescriptorWrite(s.link, isCccd, gattStatus)), [])
    case LegacyNotification(uuidMatches, value) =>
      Reaction(s.(link := Session.OnLegacyNotification(s.link, uuidMatches, value, toDouble)), [])
    case Notification(uuidMatches, text) =>
      Reaction(s.(link := Session.OnNotification(s.link, uuidMatches, text, toDouble)), [])
  }

  /** The state after handling `events` in order. No sequence of events changes adapter presence. */
  function Run<D>(s: State<D>, events: seq<Event>, toDouble: string -> Option<D>): (r: State<D>)
    ensures r.hasAdapter == s.hasAdapter
    decreases |events|
  {
    if events == [] then s else Run(Step(s, events[0], toDouble).next, events[1..], toDouble)
  }

  /** Handling three events in a row is stepping three times. */
  lemma RunThree<D>(s: State<D>, e0: Event, e1: Event, e2: Event, toDouble: string -> Option<D>)
    ensures Run(s, [e0, e1, e2], toDouble)
         == Step(Step(Step(s, e0, toDouble).next, e1, toDouble).next, e2, toDouble).next
  {
    var t1 := Step(s, e0, toDouble).next;
    var t2 := Step(t1, e1, toDouble).next;
    var t3 := Step(t2, e2, toDouble).next;
    assert [e0, e1, e2][1..] == [e1, e2];
    assert [e1, e2][1..] == [e2];
    assert [e2][1..] == [];
    assert Run(t3, [], toDouble) == t3;
    assert Run(t2, [e2], toDouble) == t3;
    assert Run(t1, [e1, e2], toDouble) == t3;
  }

  /** Handling `a` then `b` is handling `a + b`. */
  lemma {:induction false} RunAppend<D>(s: State<D>, a: seq<Event>, b: seq<Event>, toDouble: string -> Option<D>)
    ensures Run(s, a + b, toDouble) == Run(Run(s, a, toDouble), b, toDouble)
    decreases |a|
  {
    if a != [] {
      assert (a + b)[0] == a[0];
      assert (a + b)[1..] == a[1..] + b;
      RunAppend(Step(s, a[0], toDouble).next, a[1..], b, toDouble);
    } else {
      assert a + b == b;
    }
  }

  // ---------------------------------------------------------------------------
  // Permissions

  /**
   * The permission-request callback: the permission flag becomes the outcome
   * of the request, and only a full grant reloads the paired devices. The
   * discovered list, the scanning flag, adapter presence and the link are
   * untouched, and nothing is called.
   */
  lemma PermissionsResultStep<D>(s: State<D>, granted: bool, bonded: Option<seq<Device>>, toDouble: string -> Option<D>)
    ensures var r := Step(s, PermissionsResult(granted, bonded), toDouble);
            && r.effects == []
            && r.next.hasPermissions == granted
            && r.next.hasAdapter == s.hasAdapter
            && r.next.link == s.link
            && r.next.scan.discovered == s.scan.discovered
            && r.next.scan.isScanning == s.scan.isScanning
            && (!granted ==> r.next.scan.paired == s.scan.paired)
            && (granted && s.hasAdapter && bonded.Some? ==> r.next.scan.paired == bonded.value)
            && (granted && (!s.hasAdapter || bonded.None?) ==> r.next.scan.paired == [])
  {
  }

  // ---------------------------------------------------------------------------
  // Disconnecting

  /**
   * `disconnectFromDevice` from any state: status Disconnected, "No data", no
   * device name, an empty track and no handle; the scan lists and permissions
   * are untouched. Doing it again changes nothing and calls nothing.
   */
  lemma DisconnectResets<D>(s: State<D>, toDouble: string -> Option<D>)
    ensures var t := Step(s, Disconnect, toDouble).next;
              && t.link.status == Session.Disconnected
              && t.link.gpsData == Session.NoData
              && t.link.deviceName == ""
              && t.link.points == []
              && t.link.gatt.None?
              && t.scan == s.scan && t.hasPermissions == s.hasPermissions
    ensures var t := Step(s, Disconnect, toDouble).next;
              Step(t, Disconnect, toDouble) == Reaction(t, [])
  {
  }

  // ---------------------------------------------------------------------------
  // The track

  /** The points one event adds to the track when it is not a disconnect. */
  function Decoded<D>(e: Event, toDouble: string -> Option<D>): seq<GpsPoint<D>>
  {
    match e
    case Notification(true, text) => Store([], text, toDouble)
    case LegacyNotification(true, Some(text)) => Store([], text, toDouble)
    case _ => []
  }

  /** The points the notifications among `events` decode to, in arrival order. */
  function Accepted<D>(events: seq<Event>, toDouble: string -> Option<D>): seq<GpsPoint<D>>
  {
    if events == [] then [] else Decoded(events[0], toDouble) + Accepted(events[1..], toDouble)
  }

  /** No event of the sequence is a disconnect command. */
  predicate NoDisconnect(events: seq<Event>) {
    forall i :: 0 <= i < |events| ==> !events[i].Disconnect?
  }

  /** Every event other than a disconnect appends to the track exactly what it decodes to. */
  lemma StepPoints<D>(s: State<D>, e: Event, toDouble: string -> Option<D>)
    requires !e.Disconnect?
    ensures Step(s, e, toDouble).next.link.points == s.link.points + Decoded(e, toDouble)
  {
  }

  /**
   * Without a disconnect, the track only grows: it ends as the starting track
   * followed by the points of the decodable notifications, in arrival order.
   * Connecting, unsolicited link loss and errors never clear it.
   */
  lemma {:induction false} RunPoints<D>(s: State<D>, events: seq<Event>, toDouble: string -> Option<D>)
    requires NoDisconnect(events)
    ensures Run(s, events, toDouble).link.points == s.link.points + Accepted(events, toDouble)
    decreases |events|
  {
    if events != [] {
      var t := Step(s, events[0], toDouble).next;
      var rest := events[1..];
      StepPoints(s, events[0], toDouble);
      assert NoDisconnect(rest) by {
        forall i | 0 <= i < |rest|
          ensures !rest[i].Disconnect?
        {
          assert rest[i] == events[i + 1];
        }
      }
      RunPoints(t, rest, toDouble);
      var head, tail := Decoded(events[0], toDouble), Accepted(rest, toDouble);
      assert Run(t, rest, toDouble).link.points == s.link.points + head + tail;
      ConcatAssoc(s.link.points, head, tail);
    }
  }

  /** Sequence concatenation is associative. */
  lemma ConcatAssoc<T>(a: seq<T>, b: seq<T>, c: seq<T>)
    ensures a + b + c == a + (b + c)
  {
  }

  /** The track after any run ends with the points decoded since the last disconnect. */
  lemma {:induction false} RunPointsAfterDisconnect<D>(s: State<D>, before: seq<Event>, after: seq<Event>, toDouble: string -> Option<D>)
    requires NoDisconnect(after)
    ensures Run(s, before + [Disconnect] + after, toDouble).link.points == Accepted(after, toDouble)
  {
    RunAppend(s, before + [Disconnect], after, toDouble);
    RunAppend(s, before, [Disconnect], toDouble);
    RunPoints(Run(s, before + [Disconnect], toDouble), after, toDouble);
  }

  // ---------------------------------------------------------------------------
  // Discovery list

  /** Every event keeps the discovered list free of duplicate addresses. */
  lemma StepKeepsDistinct<D>(s: State<D>, e: Event, toDouble: string -> Option<D>)
    requires Discovery.DistinctAddresses(s.scan.discovered)
    ensures Discovery.DistinctAddresses(Step(s, e, toDouble).next.scan.discovered)
  {
  }

  /** However the events interleave, the discovered list never holds an address twice. */
  lemma {:induction false} RunKeepsDistinct<D>(s: State<D>, events: seq<Event>, toDouble: string -> Option<D>)
    requires Discovery.DistinctAddresses(s.scan.discovered)
    ensures Discovery.DistinctAddresses(Run(s, events, toDouble).scan.discovered)
    decreases |events|
  {
    if events != [] {
      StepKeepsDistinct(s, events[0], toDouble);
      RunKeepsDistinct(Step(s, events[0], toDouble).next, events[1..], toDouble);
    }
  }

  /** No event of the sequence is a start-scan command. */
  predicate NoStartScan(events: seq<Event>) {
    forall i :: 0 <= i < |events| ==> !events[i].StartScan?
  }

  /**
   * Only `startDiscovery` removes discovered devices: without it the list keeps
   * every device it had, in the same order, at the front.
   */
  lemma {:induction false} RunKeepsDiscovered<D>(s: State<D>, events: seq<Event>, toDouble: string -> Option<D>)
    requires NoStartScan(events)
    ensures s.scan.discovered <= Run(s, events, toDouble).scan.discovered
    decreases |events|
  {
    if events != [] {
      var t := Step(s, events[0], toDouble).next;
      assert s.scan.discovered <= t.scan.discovered;
      RunKeepsDiscovered(t, events[1..], toDouble);
    }
  }

  /** The scanning flag as the discovery broadcasts among `events` leave it, starting from `flag`. */
  function ScanFlag(events: seq<Event>, flag: bool): bool
  {
    if events == [] then flag
    else ScanFlag(events[1..], if events[0].DiscoveryStarted? then true else if events[0].DiscoveryFinished? then false else flag)
  }

  /**
   * The scanning flag is driven by the adapter's broadcasts alone: after any run
   * it is what the last ACTION_DISCOVERY_STARTED or ACTION_DISCOVERY_FINISHED
   * said, or unchanged when there was none. Starting and stopping a scan do not
   * set it.
   */
  lemma {:induction false} RunScanFlag<D>(s: State<D>, events: seq<Event>, toDouble: string -> Option<D>)
    ensures Run(s, events, toDouble).scan.isScanning == ScanFlag(events, s.scan.isScanning)
    decreases |events|
  {
    if events != [] {
      RunScanFlag(Step(s, events[0], toDouble).next, events[1..], toDouble);
    }
  }

  // ---------------------------------------------------------------------------
  // Notifications

  /** How a notification for the GPS characteristic is handled, in any state. */
  lemma NotificationStep<D>(s: State<D>, text: string, toDouble: string -> Option<D>)
    ensures Step(s, Notification(true, text), toDouble).next
         == s.(link := s.link.(gpsData := text, points := Store(s.link.points, text, toDouble)))
  {
    assert Step(s, Notification(true, text), toDouble)
        == Reaction(s.(link := Session.OnNotification(s.link, true, text, toDouble)), []);
  }

  /**
   * Notifications are not gated on the status: in every state they change the
   * payload text and the track only, and one for another characteristic
   * changes nothing at all.
   */
  lemma NotificationTouchesOnlyData<D>(s: State<D>, uuidMatches: bool, text: string, toDouble: string -> Option<D>)
    ensures var t := Step(s, Notification(uuidMatches, text), toDouble).next;
              t == s.(link := s.link.(gpsData := t.link.gpsData, points := t.link.points))
    ensures !uuidMatches ==> Step(s, Notification(uuidMatches, text), toDouble).next == s
    ensures uuidMatches ==> Step(s, Notification(uuidMatches, text), toDouble).next.link.gpsData == text
  {
    if uuidMatches {
      NotificationStep(s, text, toDouble);
    } else {
      assert Step(s, Notification(false, text), toDouble) == Reaction(s.(link := s.link), []);
    }
  }

  /** The legacy and the new notification API agree whenever the legacy one carries a value. */
  lemma LegacyNotificationAgrees<D>(s: State<D>, uuidMatches: bool, text: string, toDouble: string -> Option<D>)
    ensures Step(s, LegacyNotification(uuidMatches, Some(text)), toDouble) == Step(s, Notification(uuidMatches, text), toDouble)
  {
    assert Step(s, Notification(uuidMatches, text), toDouble)
        == Reaction(s.(link := Session.OnNotification(s.link, uuidMatches, text, toDouble)), []);
    assert Step(s, LegacyNotification(uuidMatches, Some(text)), toDouble)
        == Reaction(s.(link := Session.OnLegacyNotification(s.link, uuidMatches, Some(text), toDouble)), []);
  }
}
