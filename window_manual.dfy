/** The window's manual view: separate rudder and throttle joysticks and a sail slider
    drive the selected boat; choosing a boat recentres the map. */
module WindowManual {
  import opened JsValues
  import opened Commands
  import opened SocketSession
  import opened BoatStore

  /** Where the map centres when the chosen boat gives no usable position. */
  const FallbackCenter := LatLng(Num("37.8682"), Num("-122.3177"))

  /** The centre for the boat picked as `value`: its `location` coordinates, each falling
      back to the default when falsy, or the default when the boat is not found or has no
      truthy `location`. The centre is always a pair of truthy values, each the boat's own
      coordinate or the default. */
  function CenterFor(boats: seq<Object>, value: string): (c: LatLng)
    ensures Truthy(c.lat) && Truthy(c.lng)
    ensures c.lat == FallbackCenter.lat
            || exists i :: 0 <= i < |boats| && c.lat == Member(Get(boats[i], "location"), "latitude")
    ensures c.lng == FallbackCenter.lng
            || exists i :: 0 <= i < |boats| && c.lng == Member(Get(boats[i], "location"), "longitude")
  {
    match FindBoat(boats, Str(value))
    case None => FallbackCenter
    case Some(b) =>
      var loc := Get(b, "location");
      if Truthy(loc) then
        LatLng(Or(Member(loc, "latitude"), FallbackCenter.lat), Or(Member(loc, "longitude"), FallbackCenter.lng))
      else FallbackCenter
  }

  /** A boat found with a truthy location and truthy coordinates centres the map on them. */
  lemma CenterOnFoundBoat(boats: seq<Object>, value: string, i: nat)
    requires i < |boats| && RecordId(boats[i]) == Str(value)
    requires forall j :: 0 <= j < i ==> RecordId(boats[j]) != Str(value)
    requires Truthy(Get(boats[i], "location"))
    requires Truthy(Member(Get(boats[i], "location"), "latitude"))
    requires Truthy(Member(Get(boats[i], "location"), "longitude"))
    ensures CenterFor(boats, value) ==
      LatLng(Member(Get(boats[i], "location"), "latitude"), Member(Get(boats[i], "location"), "longitude"))
  {
    assert FindBoatIndex(boats, Str(value)) == i by {
      assert StrictEquals(RecordId(boats[i]), Str(value));
      FindBoatIndexAt(boats, Str(value), i);
    }
  }

  /** Records of the store carry no top-level `location`, so choosing any boat centres the
      map on the default. */
  lemma ShapedStoreCentersOnFallback(boats: seq<Object>, value: string)
    requires StoreShaped(boats)
    ensures CenterFor(boats, value) == FallbackCenter
  {
    var r := FindBoat(boats, Str(value));
    if r.Some? {
      var i :| 0 <= i < |boats| && r.value == boats[i];
      ShapedRecordLacksTopLevelFields(boats, i, "location");
    }
  }

  /** What the sender was last built from; the send effect runs whenever one changes. */
  datatype SendDeps = SendDeps(connected: bool, socket: Socket?, boatId: Value,
                               rudder: Value, sail: Value, throttle: Value)

  class ManualControl {
    const sock: SocketProvider
    const store: BoatProvider
    var selectedBoatId: Value
    var rudderAngle: Value
    var sailAngle: Value
    var throttle: Value
    var mapCenter: LatLng
    var lastDeps: Option<SendDeps>
    /** Commands emitted on the socket, oldest first. */
    var sent: seq<Message>

    constructor (sock: SocketProvider, store: BoatProvider)
      ensures this.sock == sock && this.store == store
      ensures selectedBoatId == Str("all")
      ensures rudderAngle == Num("0") && sailAngle == Num("0") && throttle == Num("0")
      ensures mapCenter == LatLng(Num("37.86706"), Num("-122.36341"))
      ensures lastDeps == None && sent == []
    {
      this.sock := sock;
      this.store := store;
      selectedBoatId := Str("all");
      rudderAngle := Num("0");
      sailAngle := Num("0");
      throttle := Num("0");
      mapCenter := LatLng(Num("37.86706"), Num("-122.36341"));
      lastDeps := None;
      sent := [];
    }

    function Deps(): SendDeps
      reads this, sock
    {
      SendDeps(sock.isConnected, sock.socket, selectedBoatId, rudderAngle, sailAngle, throttle)
    }

    /** On mount the shared command mode becomes "manual". */
    method Mount()
      requires sock.Valid()
      modifies sock`commandMode
      ensures sock.Valid() && sock.commandMode == "manual"
    {
      sock.SetCommandMode("manual");
    }

    /** `sendData`: one actuator command when connected and a socket is held; else
        nothing. */
    method SendData()
      modifies this`sent
      ensures sock.isConnected && sock.socket != null ==>
        sent == old(sent) + [ActuateCommand(selectedBoatId, rudderAngle, sailAngle, throttle)]
      ensures !(sock.isConnected && sock.socket != null) ==> sent == old(sent)
    {
      if sock.isConnected && sock.socket != null {
        sent := sent + [ActuateCommand(selectedBoatId, rudderAngle, sailAngle, throttle)];
      }
    }

    /** The send effect after a render: it sends when the sender or a set-point changed. */
    method SendEffect()
      modifies this`sent, this`lastDeps
      ensures lastDeps == Some(Deps())
      ensures old(lastDeps) == Some(Deps()) ==> sent == old(sent)
      ensures old(lastDeps) != Some(Deps()) && sock.isConnected && sock.socket != null ==>
        sent == old(sent) + [ActuateCommand(selectedBoatId, rudderAngle, sailAngle, throttle)]
      ensures !(sock.isConnected && sock.socket != null) ==> sent == old(sent)
    {
      if lastDeps != Some(Deps()) {
        lastDeps := Some(Deps());
        SendData();
      }
    }

    /** Moving the rudder joystick: the angle, already scaled and rounded. */
    method HandleRudderMove(angle: Value)
      modifies this`rudderAngle
      ensures rudderAngle == angle
    {
      rudderAngle := angle;
    }

    /** Moving the throttle joystick: the value, already scaled and rounded. */
    method HandleThrottleMove(value: Value)
      modifies this`throttle
      ensures throttle == value
    {
      throttle := value;
    }

    /** Releasing the rudder joystick zeroes the rudder alone. */
    method HandleRudderStop()
      modifies this`rudderAngle
      ensures rudderAngle == Num("0")
    {
      rudderAngle := Num("0");
    }

    /** Releasing the throttle joystick zeroes the throttle alone. */
    method HandleThrottleStop()
      modifies this`throttle
      ensures throttle == Num("0")
    {
      throttle := Num("0");
    }

    /** The sail slider: its value, already parsed as an integer. */
    method HandleSailAngleChange(angle: Value)
      modifies this`sailAngle
      ensures sailAngle == angle
    {
      sailAngle := angle;
    }

    /** Choosing a boat: it becomes the selection and the map recentres on it. */
    method HandleBoatChange(value: string)
      modifies this`selectedBoatId, this`mapCenter
      ensures selectedBoatId == Str(value)
      ensures mapCenter == CenterFor(store.boats, value)
    {
      selectedBoatId := Str(value);
      mapCenter := CenterFor(store.boats, value);
    }
  }
}
