/** The map's manual view: one joystick drives the selected boat's rudder and throttle. */
module MapManual {
  import opened JsValues
  import opened Commands
  import opened SocketSession
  import opened BoatStore

  /** What the throttled sender was last built from: a new sender is made, and fires at
      once, whenever one of these changes. */
  datatype SendDeps = SendDeps(connected: bool, socket: Socket?, boatId: Value, rudder: Value, throttle: Value)

  class ManualControl {
    const sock: SocketProvider
    const store: BoatProvider
    var selectedBoatId: Value
    var rudderAngle: Value
    var throttleValue: Value
    /** The dependencies of the sender the last effect run used; none before the first. */
    var lastDeps: Option<SendDeps>
    /** Commands emitted on the socket, oldest first. */
    var sent: seq<Message>

    constructor (sock: SocketProvider, store: BoatProvider)
      ensures this.sock == sock && this.store == store
      ensures selectedBoatId == Str("") && rudderAngle == Num("0") && throttleValue == Num("0")
      ensures lastDeps == None && sent == []
    {
      this.sock := sock;
      this.store := store;
      selectedBoatId := Str("");
      rudderAngle := Num("0");
      throttleValue := Num("0");
      lastDeps := None;
      sent := [];
    }

    function Deps(): SendDeps
      reads this, sock
    {
      SendDeps(sock.isConnected, sock.socket, selectedBoatId, rudderAngle, throttleValue)
    }

    /** On mount the shared command mode becomes "manual". */
    method Mount()
      requires sock.Valid()
      modifies sock`commandMode
      ensures sock.Valid() && sock.commandMode == "manual"
    {
      sock.SetCommandMode("manual");
    }

    /** The default-boat effect: with no boat selected and a non-empty fleet, the first. */
    method DefaultBoat()
      modifies this`selectedBoatId
      ensures selectedBoatId ==
        if !Truthy(old(selectedBoatId)) && |store.boats| > 0 then RecordId(store.boats[0])
        else old(selectedBoatId)
    {
      if !Truthy(selectedBoatId) && |store.boats| > 0 {
        selectedBoatId := RecordId(store.boats[0]);
      }
    }

    /** `sendData`: one drive command when connected and a socket is held; else nothing. */
    method SendData()
      modifies this`sent
      ensures sock.isConnected && sock.socket != null ==>
        sent == old(sent) + [DriveCommand(selectedBoatId, rudderAngle, throttleValue)]
      ensures !(sock.isConnected && sock.socket != null) ==> sent == old(sent)
    {
      if sock.isConnected && sock.socket != null {
        sent := sent + [DriveCommand(selectedBoatId, rudderAngle, throttleValue)];
      }
    }

    /** The send effect after a render: it runs when the sender or a set-point changed,
        and the fresh throttled sender fires at once. */
    method SendEffect()
      modifies this`sent, this`lastDeps
      ensures lastDeps == Some(Deps())
      ensures old(lastDeps) == Some(Deps()) ==> sent == old(sent)
      ensures old(lastDeps) != Some(Deps()) && sock.isConnected && sock.socket != null ==>
        sent == old(sent) + [DriveCommand(selectedBoatId, rudderAngle, throttleValue)]
      ensures !(sock.isConnected && sock.socket != null) ==> sent == old(sent)
    {
      if lastDeps != Some(Deps()) {
        lastDeps := Some(Deps());
        SendData();
      }
    }

    /** Moving the joystick: the set-points, already scaled to degrees and percent and
        rounded. */
    method HandleJoystickMove(rudder: Value, throttle: Value)
      modifies this`rudderAngle, this`throttleValue
      ensures rudderAngle == rudder && throttleValue == throttle
    {
      rudderAngle := rudder;
      throttleValue := throttle;
    }

    /** Releasing the joystick zeroes both set-points. */
    method HandleJoystickStop()
      modifies this`rudderAngle, this`throttleValue
      ensures rudderAngle == Num("0") && throttleValue == Num("0")
    {
      rudderAngle := Num("0");
      throttleValue := Num("0");
    }

    /** Choosing a boat in the picker: the option's value, which is always text. */
    method HandleSelectChange(value: string)
      modifies this`selectedBoatId
      ensures selectedBoatId == Str(value)
    {
      selectedBoatId := Str(value);
    }

    /** `handleBoatSelect(boat)`: the record's own id. */
    method HandleBoatSelect(boat: Object)
      modifies this`selectedBoatId
      ensures selectedBoatId == RecordId(boat)
    {
      selectedBoatId := RecordId(boat);
    }

    /** Releasing the joystick while connected, once the effect has caught up with the last
        render: if the boat was being driven, exactly one stop command for it follows. */
    method ReleaseJoystick()
      requires lastDeps == Some(Deps())
      modifies this`rudderAngle, this`throttleValue, this`sent, this`lastDeps
      ensures rudderAngle == Num("0") && throttleValue == Num("0") && lastDeps == Some(Deps())
      ensures (old(rudderAngle) != Num("0") || old(throttleValue) != Num("0"))
              && sock.isConnected && sock.socket != null ==>
        sent == old(sent) + [DriveCommand(selectedBoatId, Num("0"), Num("0"))]
      ensures old(rudderAngle) == Num("0") && old(throttleValue) == Num("0") ==> sent == old(sent)
    {
      HandleJoystickStop();
      SendEffect();
    }
  }
}
