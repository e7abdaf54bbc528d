/** Outbound `gui_data` commands, as the four control views build them, and the values
    they carry. */
module Commands {
  import opened JsValues

  /** A map position `{lat, lng}`; coordinates are already rounded where the view rounds
      them. */
  datatype LatLng = LatLng(lat: Value, lng: Value)

  /** One `socket.emit(event, payload)`. */
  datatype Message = Message(event: string, payload: Object)

  /** `a || b`: one of the operands, truthy exactly when either is, and `a` itself
      whenever `a` is truthy. */
  function Or(a: Value, b: Value): (r: Value)
    ensures r == a || r == b
    ensures Truthy(r) <==> Truthy(a) || Truthy(b)
    ensures Truthy(a) ==> r == a
  {
    if Truthy(a) then a else b
  }

  /** The joystick command of the map's manual view. */
  function DriveCommand(boatId: Value, rudder: Value, throttle: Value): (m: Message)
    ensures m.event == "gui_data" && Keys(m.payload) == ["boat_id", "r", "th", "command_mode"]
  {
    Message("gui_data", [Field("boat_id", boatId), Field("r", rudder), Field("th", throttle),
                         Field("command_mode", Str("manual"))])
  }

  /** The route command of the map's autonomous view. */
  function RouteCommand(boatId: Value, target: LatLng): (m: Message)
    ensures m.event == "gui_data" && Keys(m.payload) == ["id", "md", "tlat", "tlng"]
  {
    Message("gui_data", [Field("id", boatId), Field("md", Str("auto")),
                         Field("tlat", target.lat), Field("tlng", target.lng)])
  }

  /** The actuator command of the window's manual view: zero GPS targets. */
  function ActuateCommand(boatId: Value, rudder: Value, sail: Value, throttle: Value): (m: Message)
    ensures m.event == "gui_data" && Keys(m.payload) == ["boat_id", "r", "s", "th", "command_mode", "target_gps_latitude", "target_gps_longitude"]
  {
    Message("gui_data", [Field("boat_id", boatId), Field("r", rudder), Field("s", sail),
                         Field("th", throttle), Field("command_mode", Str("manual")),
                         Field("target_gps_latitude", Num("0")),
                         Field("target_gps_longitude", Num("0"))])
  }

  /** The goal command of the window's autonomous view. */
  function GoalCommand(boatName: Value, target: LatLng): (m: Message)
    ensures m.event == "gui_data" && Keys(m.payload) == ["boat_name", "command_mode", "target_gps_latitude", "target_gps_longitude"]
  {
    Message("gui_data", [Field("boat_name", boatName), Field("command_mode", Str("autonomous")),
                         Field("target_gps_latitude", target.lat),
                         Field("target_gps_longitude", target.lng)])
  }

  lemma ReadsEveryField(o: Object)
    requires UniqueKeys(o)
    ensures forall i :: 0 <= i < |o| ==> Get(o, o[i].key) == o[i].val
  {
    forall i | 0 <= i < |o| ensures Get(o, o[i].key) == o[i].val {
      KeyIndexOfPresent(o, i);
    }
  }

  /** The relay reads back from a drive command exactly the values it was built from,
      and finds no route key in it. */
  lemma DriveCommandReadsBack(boatId: Value, rudder: Value, throttle: Value)
    ensures var p := DriveCommand(boatId, rudder, throttle).payload;
      UniqueKeys(p) && Get(p, "boat_id") == boatId && Get(p, "r") == rudder
      && Get(p, "th") == throttle && Get(p, "command_mode") == Str("manual") && !Has(p, "md")
  {
    var p := DriveCommand(boatId, rudder, throttle).payload;
    assert Keys(p) == ["boat_id", "r", "th", "command_mode"];
    ReadsEveryField(p);
    assert p[1].key == "r" && p[2].key == "th" && p[3].key == "command_mode";
  }

  /** A route command carries the boat as `id`, the mode `auto` and the target, and no
      `command_mode`. */
  lemma RouteCommandReadsBack(boatId: Value, target: LatLng)
    ensures var p := RouteCommand(boatId, target).payload;
      UniqueKeys(p) && Get(p, "id") == boatId && Get(p, "md") == Str("auto")
      && Get(p, "tlat") == target.lat && Get(p, "tlng") == target.lng && !Has(p, "command_mode")
  {
    var p := RouteCommand(boatId, target).payload;
    assert Keys(p) == ["id", "md", "tlat", "tlng"];
    ReadsEveryField(p);
    assert p[1].key == "md" && p[2].key == "tlat" && p[3].key == "tlng";
  }

  /** An actuator command carries the three set-points and zero GPS targets. */
  lemma ActuateCommandReadsBack(boatId: Value, rudder: Value, sail: Value, throttle: Value)
    ensures var p := ActuateCommand(boatId, rudder, sail, throttle).payload;
      UniqueKeys(p) && Get(p, "boat_id") == boatId && Get(p, "r") == rudder && Get(p, "s") == sail
      && Get(p, "th") == throttle && Get(p, "command_mode") == Str("manual")
      && Get(p, "target_gps_latitude") == Num("0") && Get(p, "target_gps_longitude") == Num("0")
  {
    var p := ActuateCommand(boatId, rudder, sail, throttle).payload;
    assert Keys(p) == ["boat_id", "r", "s", "th", "command_mode", "target_gps_latitude", "target_gps_longitude"];
    ReadsEveryField(p);
    assert p[1].key == "r" && p[2].key == "s" && p[3].key == "th" && p[4].key == "command_mode";
    assert p[5].key == "target_gps_latitude" && p[6].key == "target_gps_longitude";
  }

  /** A goal command carries the boat as `boat_name`, the mode `autonomous` and the
      target. */
  lemma GoalCommandReadsBack(boatName: Value, target: LatLng)
    ensures var p := GoalCommand(boatName, target).payload;
      UniqueKeys(p) && Get(p, "boat_name") == boatName && Get(p, "command_mode") == Str("autonomous")
      && Get(p, "target_gps_latitude") == target.lat && Get(p, "target_gps_longitude") == target.lng
  {
    var p := GoalCommand(boatName, target).payload;
    assert Keys(p) == ["boat_name", "command_mode", "target_gps_latitude", "target_gps_longitude"];
    ReadsEveryField(p);
    assert p[1].key == "command_mode" && p[2].key == "target_gps_latitude" && p[3].key == "target_gps_longitude";
  }
}
