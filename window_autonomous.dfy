/** The window's autonomous view: pick a boat, click a goal on the map, send it. */
module WindowAutonomous {
  import opened JsValues
  import opened Commands
  import opened SocketSession
  import opened BoatStore

  class AutonomousControl {
    const sock: SocketProvider
    const store: BoatProvider
    var targetBoatId: Value
    /** The looked-up record: `null` at first, then the record or `undefined`. */
    var boat: Value
    var selectedPosition: Option<LatLng>
    /** Commands emitted on the socket, oldest first. */
    var sent: seq<Message>

    constructor (sock: SocketProvider, store: BoatProvider)
      ensures this.sock == sock && this.store == store
      ensures targetBoatId == Str("") && boat == Null && selectedPosition == None && sent == []
    {
      this.sock := sock;
      this.store := store;
      targetBoatId := Str("");
      boat := Null;
      selectedPosition := None;
      sent := [];
    }

    /** On mount the shared command mode becomes "autonomous". */
    method Mount()
      requires sock.Valid()
      modifies sock`commandMode
      ensures sock.Valid() && sock.commandMode == "autonomous"
    {
      sock.SetCommandMode("autonomous");
    }

    /** The lookup effect: the first record whose id is strictly equal to the target, or
        `undefined`. */
    method LookupBoat()
      modifies this`boat
      ensures boat == match FindBoat(store.boats, targetBoatId)
                      case Some(r) => Obj(r)
                      case None => Undefined
    {
      var found := FindBoat(store.boats, targetBoatId);
      boat := match found
              case Some(r) => Obj(r)
              case None => Undefined;
    }

    /** The default-target effect: with no target and a non-empty fleet, the first boat. */
    method DefaultTarget()
      modifies this`targetBoatId
      ensures targetBoatId ==
        if !Truthy(old(targetBoatId)) && |store.boats| > 0 then RecordId(store.boats[0])
        else old(targetBoatId)
    {
      if !Truthy(targetBoatId) && |store.boats| > 0 {
        targetBoatId := RecordId(store.boats[0]);
      }
    }

    /** Choosing a boat in the picker: the option's value, which is always text. */
    method HandleBoatChange(value: string)
      modifies this`targetBoatId
      ensures targetBoatId == Str(value)
    {
      targetBoatId := Str(value);
    }

    /** A click on the map selects that position, unrounded. */
    method HandleMapClick(p: LatLng)
      modifies this`selectedPosition
      ensures selectedPosition == Some(p)
    {
      selectedPosition := Some(p);
    }

    /** Sends the goal: one command when a socket is held and connected and a position is
        selected, whether or not a boat is chosen; otherwise nothing. */
    method SendTargetCoordinates()
      modifies this`sent
      ensures sock.socket != null && sock.isConnected && selectedPosition.Some? ==>
        sent == old(sent) + [GoalCommand(targetBoatId, selectedPosition.value)]
      ensures !(sock.socket != null && sock.isConnected && selectedPosition.Some?) ==> sent == old(sent)
    {
      if sock.socket != null && sock.isConnected && selectedPosition.Some? {
        sent := sent + [GoalCommand(targetBoatId, selectedPosition.value)];
      }
    }
  }

  /** The picker hands back option values as text, and `===` never equates text with a
      number: once a boat with a numeric id is picked from the list, the lookup finds no
      record, even though the default target (the record's own id) would have found it. */
  lemma PickedNumericIdNotFound(boats: seq<Object>, i: nat, value: string)
    requires i < |boats| && RecordId(boats[i]).Num? && RecordId(boats[i]) != Num("NaN")
    requires forall j :: 0 <= j < |boats| ==> RecordId(boats[j]).Num?
    ensures FindBoat(boats, Str(value)).None?
    ensures FindBoat(boats, RecordId(boats[i])).Some?
  {
    assert StrictEquals(RecordId(boats[i]), RecordId(boats[i]));
  }
}
