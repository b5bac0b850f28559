/**
 * Whole-session consequences of the transition rules, stated over concrete
 * event sequences.
 */
module Scenarios {
  import opened Wrappers
  import opened Platform
  import opened GpsFrame
  import opened Activity
  import Session
  import Text

  /** The service lookup in which the GPS service, its characteristic and the CCCD are all found. */
  function AllPresent(): Session.Lookup {
    Session.Lookup(true, true, true)
  }

  /**
   * The successful path: connect, link up, find service, characteristic and
   * CCCD, get the CCCD write acknowledged. The status goes Connecting,
   * Connected, Waiting for data, Receiving data, and the track is untouched.
   */
  lemma HappyPath<D>(s: State<D>, device: Device, toDouble: string -> Option<D>)
    requires s.hasPermissions
    ensures var t1 := Step(s, Connect(device), toDouble).next;
            var t2 := Step(t1, ConnectionStateChange(Session.StateConnected), toDouble).next;
            var t3 := Step(t2, ServicesDiscovered(Session.GattSuccess, AllPresent()), toDouble).next;
            var t4 := Step(t3, DescriptorWrite(true, Session.GattSuccess), toDouble).next;
            && t1.link.status == Session.Connecting
            && t2.link.status == Session.Connected
            && t3.link.status == Session.WaitingForData
            && t4.link.status == Session.ReceivingData
            && t4.link.deviceName == DisplayName(device)
            && t4.link.gatt == Some(device)
            && t4.link.points == s.link.points
  {
  }

  /**
   * A peripheral with the service but without the characteristic ends in the
   * characteristic error; connecting again restarts at Connecting, with the new
   * connection opened after the old handle is closed, and the track kept.
   */
  lemma {:induction false} MissingCharacteristicThenReconnect<D>(s: State<D>, device: Device, toDouble: string -> Option<D>)
    requires s.hasPermissions
    ensures var t := Run(s, [Connect(device), ConnectionStateChange(Session.StateConnected),
                             ServicesDiscovered(Session.GattSuccess, Session.Lookup(true, false, true))], toDouble);
            && t.link.status == Session.CharacteristicNotFound
            && Step(t, Connect(device), toDouble).next.link.status == Session.Connecting
            && Step(t, Connect(device), toDouble).effects == [CloseGatt, ConnectGatt(device)]
            && Step(t, Connect(device), toDouble).next.link.points == s.link.points
  {
    var e0, e1, e2 := Connect(device), ConnectionStateChange(Session.StateConnected),
                      ServicesDiscovered(Session.GattSuccess, Session.Lookup(true, false, true));
    RunThree(s, e0, e1, e2, toDouble);
  }

  /** `"<lat>,<lng>"` decodes to the point of its two parsed fields. */
  lemma PairParses<D>(lat: string, lng: string, toDouble: string -> Option<D>)
    requires Delimiter !in lat && Delimiter !in lng
    requires lat != "" && !Text.IsWhitespace(lat[0])
    requires lng != "" && !Text.IsWhitespace(lng[|lng| - 1])
    requires toDouble(lat).Some? && toDouble(lng).Some?
    ensures Parse(lat + [Delimiter] + lng, toDouble) == Some(GpsPoint(toDouble(lat).value, toDouble(lng).value))
  {
    assert [lat, lng] + [] == [lat, lng];
    assert [lat, lng][1..] == [lng];
    assert Text.Join([lng], Delimiter) == lng;
    assert Format(lat, lng, []) == lat + [Delimiter] + lng;
    FormatParse(lat, lng, [], toDouble);
  }

  /**
   * A streaming session receives a good frame, a malformed one and another good
   * one: the track gains exactly the two good points, in order, the status is
   * unchanged and the last text is shown.
   */
  lemma {:induction false} StreamSkipsMalformedFrame<D>(s: State<D>, good1: string, bad: string, good2: string,
                                                         toDouble: string -> Option<D>)
    requires Parse(good1, toDouble).Some? && Parse(bad, toDouble).None? && Parse(good2, toDouble).Some?
    ensures var t := Run(s, [Notification(true, good1), Notification(true, bad), Notification(true, good2)], toDouble);
            && t.link.points == s.link.points + [Parse(good1, toDouble).value, Parse(good2, toDouble).value]
            && t.link.status == s.link.status
            && t.link.gpsData == good2
  {
    var t1 := Step(s, Notification(true, good1), toDouble).next;
    NotificationStep(s, good1, toDouble);
    var t2 := Step(t1, Notification(true, bad), toDouble).next;
    NotificationStep(t1, bad, toDouble);
    var t3 := Step(t2, Notification(true, good2), toDouble).next;
    NotificationStep(t2, good2, toDouble);
    assert t3.link.points == s.link.points + [Parse(good1, toDouble).value] + [Parse(good2, toDouble).value];
    RunThree(s, Notification(true, good1), Notification(true, bad), Notification(true, good2), toDouble);
  }

  /**
   * The same with the frames `"37.7,-122.4"`, `"bad-data"` and `"37.8,-122.5"`,
   * for any number parser that reads the four coordinates.
   */
  lemma StreamExample<D>(s: State<D>, toDouble: string -> Option<D>)
    requires s.link.status == Session.ReceivingData
    requires toDouble("37.7").Some? && toDouble("-122.4").Some?
    requires toDouble("37.8").Some? && toDouble("-122.5").Some?
    ensures var t := Run(s, [Notification(true, "37.7,-122.4"), Notification(true, "bad-data"),
                             Notification(true, "37.8,-122.5")], toDouble);
            && t.link.points == s.link.points + [GpsPoint(toDouble("37.7").value, toDouble("-122.4").value),
                                                 GpsPoint(toDouble("37.8").value, toDouble("-122.5").value)]
            && t.link.status == Session.ReceivingData
  {
    ExampleStream(s, "37.7", "-122.4", "37.7,-122.4", "bad-data", "37.8", "-122.5", "37.8,-122.5", toDouble);
  }

  /** `StreamSkipsMalformedFrame` for frames spelled out as coordinate pairs around a delimiter-free one. */
  lemma ExampleStream<D>(s: State<D>, lat1: string, lng1: string, good1: string, bad: string,
                         lat2: string, lng2: string, good2: string, toDouble: string -> Option<D>)
    requires good1 == lat1 + [Delimiter] + lng1 && good2 == lat2 + [Delimiter] + lng2
    requires Delimiter !in lat1 && Delimiter !in lng1 && Delimiter !in lat2 && Delimiter !in lng2
    requires Delimiter !in bad
    requires lat1 != "" && !Text.IsWhitespace(lat1[0]) && lng1 != "" && !Text.IsWhitespace(lng1[|lng1| - 1])
    requires lat2 != "" && !Text.IsWhitespace(lat2[0]) && lng2 != "" && !Text.IsWhitespace(lng2[|lng2| - 1])
    requires toDouble(lat1).Some? && toDouble(lng1).Some? && toDouble(lat2).Some? && toDouble(lng2).Some?
    ensures var t := Run(s, [Notification(true, good1), Notification(true, bad), Notification(true, good2)], toDouble);
            && t.link.points == s.link.points + [GpsPoint(toDouble(lat1).value, toDouble(lng1).value),
                                                 GpsPoint(toDouble(lat2).value, toDouble(lng2).value)]
            && t.link.status == s.link.status
  {
    PairParses(lat1, lng1, toDouble);
    PairParses(lat2, lng2, toDouble);
    NoDelimiterNoPoint(bad, toDouble);
    StreamSkipsMalformedFrame(s, good1, bad, good2, toDouble);
  }

  /**
   * Callbacks are not tied to the connection they belong to: after a
   * disconnect, a late CCCD acknowledgement still shows Receiving data and a
   * late notification still lands in the fresh track.
   */
  lemma {:induction false} LateCallbacksAfterDisconnect<D>(s: State<D>, text: string, toDouble: string -> Option<D>)
    requires Parse(text, toDouble).Some?
    ensures var t := Run(s, [Disconnect, DescriptorWrite(true, Session.GattSuccess), Notification(true, text)], toDouble);
            && t.link.gatt.None?
            && t.link.status == Session.ReceivingData
            && t.link.points == [Parse(text, toDouble).value]
  {
    var e0, e1, e2 := Disconnect, DescriptorWrite(true, Session.GattSuccess), Notification(true, text);
    var t1 := Step(s, e0, toDouble).next;
    assert t1 == s.(link := Session.Closed());
    var t2 := Step(t1, e1, toDouble).next;
    assert t2 == t1.(link := Session.Closed<D>().(status := Session.ReceivingData));
    NotificationStep(t2, text, toDouble);
    RunThree(s, e0, e1, e2, toDouble);
  }

  /**
   * The link dropping on its own (STATE_DISCONNECTED) shows Disconnected and
   * "No data", but the device name and the track survive, unlike an explicit
   * disconnect.
   */
  lemma UnsolicitedDisconnectKeepsTrack<D>(s: State<D>, toDouble: string -> Option<D>)
    ensures var t := Step(s, ConnectionStateChange(Session.StateDisconnected), toDouble).next;
            && t.link.status == Session.Disconnected
            && t.link.gpsData == Session.NoData
            && t.link.points == s.link.points
            && t.link.deviceName == s.link.deviceName
  {
  }
}
