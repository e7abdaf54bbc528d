/** The map's autonomous view: pick a boat, click a target on the map, send it a route;
    per-boat trails of the last 50 positions, statuses, "reached" notifications and
    per-boat trail colours. */
module MapAutonomous {
  import opened JsValues
  import opened Commands
  import opened SocketSession
  import opened BoatStore

  // ---------------------------------------------------------------------------
  // Trail colours: `getBoatColor` and its module-wide memo

  /** A lower-case hexadecimal digit, as `toString(16)` writes them. */
  predicate IsHexDigit(c: char) {
    '0' <= c <= '9' || 'a' <= c <= 'f'
  }

  function HexDigit(d: nat): char
    requires d < 16
  {
    if d < 10 then ('0' as int + d) as char else ('a' as int + d - 10) as char
  }

  function DigitValue(c: char): nat {
    if '0' <= c <= '9' then c as nat - '0' as nat
    else if 'a' <= c <= 'f' then c as nat - 'a' as nat + 10
    else 0
  }

  function Pow16(w: nat): nat {
    if w == 0 then 1 else 16 * Pow16(w - 1)
  }

  /** `n.toString(16).padStart(w, "0")`, for `n` below `16^w`. */
  function HexPad(n: nat, w: nat): string {
    if w == 0 then "" else HexPad(n / 16, w - 1) + [HexDigit(n % 16)]
  }

  /** The value of a hexadecimal numeral. */
  function ParseHex(s: string): nat {
    if |s| == 0 then 0 else ParseHex(s[..|s| - 1]) * 16 + DigitValue(s[|s| - 1])
  }

  lemma {:induction false} HexPadRoundTrip(n: nat, w: nat)
    requires n < Pow16(w)
    ensures |HexPad(n, w)| == w
    ensures ParseHex(HexPad(n, w)) == n
  {
    if w > 0 {
      var q := n / 16;
      assert q < Pow16(w - 1);
      HexPadRoundTrip(q, w - 1);
      var s := HexPad(n, w);
      assert s[..|s| - 1] == HexPad(q, w - 1);
    }
  }

  /** `"#" + pick.toString(16).padStart(6, "0")`. */
  function HexColor(pick: nat): string {
    "#" + HexPad(pick, 6)
  }

  /** A colour as `getBoatColor` makes them: '#' and six lower-case hex digits. */
  predicate IsHexColor(c: string) {
    |c| == 7 && c[0] == '#' && forall i :: 1 <= i < 7 ==> IsHexDigit(c[i])
  }

  lemma HexPadDigits(n: nat, w: nat)
    ensures forall i :: 0 <= i < |HexPad(n, w)| ==> IsHexDigit(HexPad(n, w)[i])
  {
    if w > 0 {
      HexPadDigits(n / 16, w - 1);
    }
  }

  /** A drawn colour is a well-formed colour, and distinct draws give distinct colours:
      the six digits read back as the drawn number. */
  lemma HexColorReadsBack(pick: nat)
    requires pick < 0xffffff
    ensures IsHexColor(HexColor(pick))
    ensures ParseHex(HexColor(pick)[1..]) == pick
  {
    assert Pow16(6) == 0x1000000;
    HexPadRoundTrip(pick, 6);
    HexPadDigits(pick, 6);
    assert HexColor(pick)[1..] == HexPad(pick, 6);
  }

  /** The module-wide `boatColors` object: boat key to colour. It never owns a name it
      inherits, since `boatColors[k]` is truthy for those and the draw is skipped. */
  class BoatColors {
    var colors: map<string, string>

    ghost predicate Valid()
      reads this
    {
      forall k :: k in colors ==> IsHexColor(colors[k]) && !Inherited(k)
    }

    constructor ()
      ensures Valid() && colors == map[]
    {
      colors := map[];
    }

    /** The colour of a boat: the one it already has, or else the drawn `pick`
        (`Math.random() * 0xffffff` truncated), remembered for next time. For a boat whose
        key names an inherited `Object.prototype` member, that member is returned instead
        (`None` here: a function or the prototype, not a colour) and nothing is drawn. */
    method GetBoatColor(boatId: Value, pick: nat) returns (color: Option<string>)
      requires Valid() && pick < 0xffffff
      modifies this
      ensures Valid()
      ensures color.Some? <==> !Inherited(ToJsString(boatId))
      ensures color.Some? ==> IsHexColor(color.value) && ToJsString(boatId) in colors
                              && colors[ToJsString(boatId)] == color.value
      ensures ToJsString(boatId) in old(colors) ==>
        color == Some(old(colors)[ToJsString(boatId)]) && colors == old(colors)
      ensures ToJsString(boatId) !in old(colors) && !Inherited(ToJsString(boatId)) ==>
        color == Some(HexColor(pick)) && colors == old(colors)[ToJsString(boatId) := HexColor(pick)]
      ensures Inherited(ToJsString(boatId)) ==> colors == old(colors)
    {
      var key := ToJsString(boatId);
      if key in colors {
        color := Some(colors[key]);
      } else if Inherited(key) {
        color := None;
      } else {
        HexColorReadsBack(pick);
        colors := colors[key := HexColor(pick)];
        color := Some(colors[key]);
      }
    }
  }

  /** Memoisation: asking twice for the same boat gives the same colour, whatever the
      second draw; a boat whose key is an inherited name never gets one. */
  method ColorIsStable(memo: BoatColors, boatId: Value, pick1: nat, pick2: nat)
    returns (c1: Option<string>, c2: Option<string>)
    requires memo.Valid() && pick1 < 0xffffff && pick2 < 0xffffff
    modifies memo
    ensures c1 == c2
    ensures c1.Some? <==> !Inherited(ToJsString(boatId))
    ensures c1.Some? ==> IsHexColor(c1.value) && ToJsString(boatId) in memo.colors
                         && memo.colors[ToJsString(boatId)] == c1.value
  {
    c1 := memo.GetBoatColor(boatId, pick1);
    c2 := memo.GetBoatColor(boatId, pick2);
  }

  // ---------------------------------------------------------------------------
  // Trails and statuses

  type Point = (Value, Value)

  const TrailLimit: nat := 50

  /** `[b.lat, b.lng]` when both are numbers. */
  function Position(b: Object): Option<Point> {
    var lat := Get(b, "lat");
    var lng := Get(b, "lng");
    if lat.Num? && lng.Num? then Some((lat, lng)) else None
  }

  /** `b.boat_id` as a property key. */
  function KeyOf(b: Object): string {
    ToJsString(Get(b, "boat_id"))
  }

  function TrailOf(trails: map<string, seq<Point>>, key: string): seq<Point> {
    if key in trails then trails[key] else []
  }

  /** `trail.push(p)`, then `trail.shift()` when the trail has grown past the limit. */
  function Push(trail: seq<Point>, p: Point): (t: seq<Point>)
    ensures |t| > 0 && t[|t| - 1] == p
    ensures |trail| <= TrailLimit ==> |t| <= TrailLimit
  {
    var t := trail + [p];
    if |t| > TrailLimit then t[1..] else t
  }

  /** The last `TrailLimit` points of a history. */
  function Recent(h: seq<Point>): (r: seq<Point>)
    ensures |r| <= TrailLimit
  {
    if |h| > TrailLimit then h[|h| - TrailLimit..] else h
  }

  /** One boat's visit in the trail/status effect. */
  function StepTrails(trails: map<string, seq<Point>>, b: Object): map<string, seq<Point>> {
    match Position(b)
    case None => trails
    case Some(p) => trails[KeyOf(b) := Push(TrailOf(trails, KeyOf(b)), p)]
  }

  function StepStatuses(statuses: map<string, Value>, b: Object): map<string, Value> {
    if Position(b).Some? && Truthy(Get(b, "status")) then statuses[KeyOf(b) := Get(b, "status")]
    else statuses
  }

  /** The trails after the effect has visited `boats` in order. */
  function TrailsAfter(trails: map<string, seq<Point>>, boats: seq<Object>): map<string, seq<Point>> {
    if |boats| == 0 then trails
    else StepTrails(TrailsAfter(trails, boats[..|boats| - 1]), boats[|boats| - 1])
  }

  function StatusesAfter(statuses: map<string, Value>, boats: seq<Object>): map<string, Value> {
    if |boats| == 0 then statuses
    else StepStatuses(StatusesAfter(statuses, boats[..|boats| - 1]), boats[|boats| - 1])
  }

  /** The positions `boats` report for the boat `key`, in list order. */
  function History(boats: seq<Object>, key: string): seq<Point> {
    if |boats| == 0 then []
    else
      var b := boats[|boats| - 1];
      History(boats[..|boats| - 1], key) +
        (if KeyOf(b) == key && Position(b).Some? then [Position(b).value] else [])
  }

  /** No trail is kept under a name `Object.prototype` already supplies: such a name never
      becomes an own key, since the push that would add it throws first. */
  predicate OwnNamesOnly(trails: map<string, seq<Point>>) {
    trails.Keys !! ObjectPrototypeNames
  }

  /** Whether the trail effect throws on `boats`: some boat with a numeric position has a
      key naming an inherited `Object.prototype` member, so its trail reads as that member
      and `.push` is no function on it. */
  predicate TrailEffectThrows(boats: seq<Object>) {
    if |boats| == 0 then false
    else TrailEffectThrows(boats[..|boats| - 1]) || PushThrows(boats[|boats| - 1])
  }

  /** Whether the push for this boat throws. */
  predicate PushThrows(b: Object) {
    Position(b).Some? && Inherited(KeyOf(b))
  }

  /** Once a push has thrown, the effect throws whatever boats follow. */
  lemma {:induction false} ThrowIsFinal(boats: seq<Object>, n: nat)
    requires n <= |boats| && TrailEffectThrows(boats[..n])
    ensures TrailEffectThrows(boats)
    decreases |boats| - n
  {
    if n < |boats| {
      assert boats[..n + 1][..n] == boats[..n];
      ThrowIsFinal(boats, n + 1);
    } else {
      assert boats[..n] == boats;
    }
  }

  /** The `forEach` callback for one boat: with a numeric position, its point is pushed
      onto its trail (starting one when it has none), the oldest point is shifted off past
      the limit, and a truthy status is kept. The push throws when the boat's key names an
      inherited member, which the trails then read in place of a trail. */
  method VisitBoat(trails: map<string, seq<Point>>, statuses: map<string, Value>, b: Object)
    returns (threw: bool, trails': map<string, seq<Point>>, statuses': map<string, Value>)
    requires OwnNamesOnly(trails)
    ensures threw <==> PushThrows(b)
    ensures !threw ==> trails' == StepTrails(trails, b) && statuses' == StepStatuses(statuses, b)
    ensures OwnNamesOnly(trails')
  {
    threw, trails', statuses' := false, trails, statuses;
    var p := Position(b);
    if p.Some? {
      var key := KeyOf(b);
      if key !in trails && Inherited(key) {
        threw := true;
        return;
      }
      var trail := if key in trails then trails[key] else [];
      trail := trail + [p.value];
      if |trail| > TrailLimit {
        trail := trail[1..];
      }
      trails' := trails[key := trail];
      if Truthy(Get(b, "status")) {
        statuses' := statuses[key := Get(b, "status")];
      }
    }
  }

  /** The `forEach` over the fleet: visits the boats in list order and stops at the first
      push that throws. */
  method RunTrailEffect(trails0: map<string, seq<Point>>, statuses0: map<string, Value>,
                        boats: seq<Object>)
    returns (threw: bool, trails: map<string, seq<Point>>, statuses: map<string, Value>)
    requires OwnNamesOnly(trails0)
    ensures threw <==> TrailEffectThrows(boats)
    ensures !threw ==> trails == TrailsAfter(trails0, boats) && statuses == StatusesAfter(statuses0, boats)
    ensures OwnNamesOnly(trails)
  {
    trails, statuses, threw := trails0, statuses0, false;
    var i := 0;
    while i < |boats|
      invariant 0 <= i <= |boats|
      invariant trails == TrailsAfter(trails0, boats[..i])
      invariant statuses == StatusesAfter(statuses0, boats[..i])
      invariant !TrailEffectThrows(boats[..i])
    {
      assert boats[..i + 1][..i] == boats[..i];
      TrailsKeepOwnNames(trails0, boats[..i]);
      var stepThrew, trails', statuses' := VisitBoat(trails, statuses, boats[i]);
      assert boats[..i + 1][i] == boats[i];
      assert TrailEffectThrows(boats[..i + 1]) == stepThrew;
      if stepThrew {
        threw := true;
        ThrowIsFinal(boats, i + 1);
        return;
      }
      trails, statuses := trails', statuses';
      i := i + 1;
    }
    assert boats[..i] == boats;
    TrailsKeepOwnNames(trails0, boats);
  }

  /** While no boat before has a position under an inherited name, the trails keep to own
      names. */
  lemma {:induction false} TrailsKeepOwnNames(trails: map<string, seq<Point>>, boats: seq<Object>)
    requires OwnNamesOnly(trails)
    requires !TrailEffectThrows(boats)
    ensures OwnNamesOnly(TrailsAfter(trails, boats))
    decreases |boats|
  {
    if |boats| > 0 {
      TrailsKeepOwnNames(trails, boats[..|boats| - 1]);
    }
  }

  predicate TrailsBounded(trails: map<string, seq<Point>>) {
    forall k :: k in trails ==> |trails[k]| <= TrailLimit
  }

  /** Pushing onto a trail within the limit keeps the most recent points. */
  lemma PushKeepsRecent(trail: seq<Point>, h: seq<Point>, p: Point)
    requires trail == Recent(h)
    ensures Push(trail, p) == Recent(h + [p])
  {
    var t := trail + [p];
    var g := h + [p];
    if |h| > TrailLimit {
      assert t == g[|g| - TrailLimit - 1..];
      assert t[1..] == g[|g| - TrailLimit..];
    }
  }

  /** The trail as a FIFO: whatever the effect visits, each boat's trail is the last 50
      positions of its history (its old trail followed by the positions reported since),
      oldest first. */
  lemma {:induction false} TrailIsRecentHistory(trails: map<string, seq<Point>>, boats: seq<Object>, key: string)
    requires TrailOf(trails, key) == Recent(TrailOf(trails, key))
    ensures TrailOf(TrailsAfter(trails, boats), key) == Recent(TrailOf(trails, key) + History(boats, key))
    decreases |boats|
  {
    if |boats| == 0 {
      assert TrailOf(trails, key) + History(boats, key) == TrailOf(trails, key);
    } else {
      var init := boats[..|boats| - 1];
      var b := boats[|boats| - 1];
      TrailIsRecentHistory(trails, init, key);
      var before := TrailsAfter(trails, init);
      var h := TrailOf(trails, key) + History(init, key);
      if KeyOf(b) == key && Position(b).Some? {
        PushKeepsRecent(TrailOf(before, key), h, Position(b).value);
        assert TrailOf(trails, key) + History(boats, key) == h + [Position(b).value];
      } else {
        assert History(boats, key) == History(init, key);
        assert TrailOf(TrailsAfter(trails, boats), key) == TrailOf(before, key);
      }
    }
  }

  /** No trail ever holds more than 50 points. */
  lemma {:induction false} TrailsStayBounded(trails: map<string, seq<Point>>, boats: seq<Object>)
    requires TrailsBounded(trails)
    ensures TrailsBounded(TrailsAfter(trails, boats))
    decreases |boats|
  {
    if |boats| > 0 {
      TrailsStayBounded(trails, boats[..|boats| - 1]);
    }
  }

  /** A boat's status entry changes only to a truthy status reported with a position;
      otherwise the previous status stays, and every stored status is truthy. */
  lemma {:induction false} StatusRetained(statuses: map<string, Value>, boats: seq<Object>, key: string)
    requires forall k :: k in statuses ==> Truthy(statuses[k])
    ensures forall k :: k in StatusesAfter(statuses, boats) ==> Truthy(StatusesAfter(statuses, boats)[k])
    ensures (forall i :: 0 <= i < |boats| && KeyOf(boats[i]) == key ==>
               Position(boats[i]).None? || !Truthy(Get(boats[i], "status")))
        ==> (key in StatusesAfter(statuses, boats) <==> key in statuses)
            && (key in statuses ==> StatusesAfter(statuses, boats)[key] == statuses[key])
    decreases |boats|
  {
    if |boats| > 0 {
      StatusRetained(statuses, boats[..|boats| - 1], key);
    }
  }

  /** Records of the store carry no top-level `lat`, `lng` or `status`, so the effect never
      extends a trail or changes a status. */
  lemma {:induction false} ShapedStoreLeavesTrails(trails: map<string, seq<Point>>,
                                                  statuses: map<string, Value>, boats: seq<Object>)
    requires StoreShaped(boats)
    ensures TrailsAfter(trails, boats) == trails && StatusesAfter(statuses, boats) == statuses
    decreases |boats|
  {
    if |boats| > 0 {
      var init := boats[..|boats| - 1];
      assert StoreShaped(init) by {
        forall i | 0 <= i < |init| ensures Keys(init[i]) == ["boat_id", "data"] {
          assert init[i] == boats[i];
        }
      }
      ShapedStoreLeavesTrails(trails, statuses, init);
      ShapedRecordLacksTopLevelFields(boats, |boats| - 1, "lat");
    }
  }

  // ---------------------------------------------------------------------------
  // "Reached" notifications

  datatype Notice = Notice(id: Value, boatId: Value, message: string)

  /** `b.notification && b.notification.id && b.notification.type === "reached"`. */
  predicate Reached(b: Object) {
    var n := Get(b, "notification");
    Truthy(n) && Truthy(Member(n, "id")) && StrictEquals(Member(n, "type"), Str("reached"))
  }

  function NoticeFor(b: Object): Notice {
    Notice(Member(Get(b, "notification"), "id"), Get(b, "boat_id"),
           ToJsString(Get(b, "boat_id")) + " has reached its destination.")
  }

  /** The notice of the last boat in list order whose notification says "reached". */
  function LastReached(boats: seq<Object>): (r: Option<Notice>)
    ensures r.Some? ==> r.value.message == ToJsString(r.value.boatId) + " has reached its destination."
  {
    if |boats| == 0 then None
    else if Reached(boats[|boats| - 1]) then Some(NoticeFor(boats[|boats| - 1]))
    else LastReached(boats[..|boats| - 1])
  }

  /** `LastReached` finds no notice exactly when no boat has reached its destination. */
  lemma {:induction false} LastReachedNone(boats: seq<Object>)
    ensures LastReached(boats).None? <==> forall i :: 0 <= i < |boats| ==> !Reached(boats[i])
    decreases |boats|
  {
    if |boats| > 0 && !Reached(boats[|boats| - 1]) {
      var init := boats[..|boats| - 1];
      LastReachedNone(init);
      assert forall i :: 0 <= i < |init| ==> init[i] == boats[i];
    }
  }

  /** A notice found is that of a boat that has reached its destination, and no later boat
      in the list has. */
  lemma {:induction false} LastReachedIsLast(boats: seq<Object>) returns (i: nat)
    requires LastReached(boats).Some?
    ensures i < |boats| && Reached(boats[i]) && LastReached(boats).value == NoticeFor(boats[i])
    ensures forall j :: i < j < |boats| ==> !Reached(boats[j])
    decreases |boats|
  {
    if Reached(boats[|boats| - 1]) {
      i := |boats| - 1;
    } else {
      var init := boats[..|boats| - 1];
      i := LastReachedIsLast(init);
      assert init[i] == boats[i];
      forall j | i < j < |boats| ensures !Reached(boats[j]) {
        if j < |init| {
          assert init[j] == boats[j];
        }
      }
    }
  }

  lemma ShapedStoreNoNotice(boats: seq<Object>)
    requires StoreShaped(boats)
    ensures LastReached(boats).None?
  {
    forall i | 0 <= i < |boats| ensures !Reached(boats[i]) {
      ShapedRecordLacksTopLevelFields(boats, i, "notification");
    }
    LastReachedNone(boats);
  }

  // ---------------------------------------------------------------------------
  // Targets

  /** `prev[boatId]` spread: a boat without a target entry contributes nothing. */
  function TargetOf(targets: map<string, Object>, key: string): Object {
    if key in targets then targets[key] else []
  }

  /** `{...target, [k]: v}`. */
  function WithField(target: Object, k: string, v: Value): Object {
    Set(Assign([], target), k, v)
  }

  /** Setting one field of a target keeps its other fields. */
  lemma WithFieldReads(target: Object, k: string, v: Value, k': string)
    requires UniqueKeys(target)
    ensures UniqueKeys(WithField(target, k, v))
    ensures Get(WithField(target, k, v), k') == if k' == k then v else Get(target, k')
  {
    SpreadCopies(target);
    SetUnique(target, k, v);
    GetSet(target, k, v, k');
  }

  /** `{...target, lat, lng}`. */
  function PastedTarget(target: Object, p: LatLng): Object {
    Set(WithField(target, "lat", p.lat), "lng", p.lng)
  }

  /** Pasting sets the target's `lat` and `lng` and keeps every other field of it. */
  lemma PastedTargetReads(target: Object, p: LatLng, k: string)
    requires UniqueKeys(target)
    ensures UniqueKeys(PastedTarget(target, p))
    ensures Get(PastedTarget(target, p), k) ==
      if k == "lat" then p.lat else if k == "lng" then p.lng else Get(target, k)
  {
    WithFieldReads(target, "lat", p.lat, k);
    SetUnique(WithField(target, "lat", p.lat), "lng", p.lng);
    GetSet(WithField(target, "lat", p.lat), "lng", p.lng, k);
  }

  predicate TargetsWellFormed(targets: map<string, Object>) {
    forall k :: k in targets ==> UniqueKeys(targets[k])
  }

  // ---------------------------------------------------------------------------
  // The view

  class AutonomousControl {
    const sock: SocketProvider
    const store: BoatProvider
    var targetBoatId: Value
    var boat: Value
    var selectedPosition: Option<LatLng>
    var copiedPosition: Option<LatLng>
    var mapCenter: LatLng
    var boatTargets: map<string, Object>
    var boatTrails: map<string, seq<Point>>
    var boatStatuses: map<string, Value>
    var notification: Option<Notice>
    /** Commands emitted on the socket, oldest first. */
    var sent: seq<Message>
    /** An effect threw: with no error boundary above the view, React unmounts the whole
        console. */
    var crashed: bool

    ghost predicate Valid()
      reads this`boatTrails, this`boatTargets, this`boatStatuses
    {
      TrailsBounded(boatTrails) && TargetsWellFormed(boatTargets)
      && OwnNamesOnly(boatTrails)
      && forall k :: k in boatStatuses ==> Truthy(boatStatuses[k])
    }

    constructor (sock: SocketProvider, store: BoatProvider)
      ensures Valid() && this.sock == sock && this.store == store
      ensures targetBoatId == Str("") && boat == Str("Boat1")
      ensures selectedPosition == None && copiedPosition == None
      ensures mapCenter == LatLng(Num("37.866942"), Num("-122.315452"))
      ensures boatTargets == map[] && boatTrails == map[] && boatStatuses == map[]
      ensures notification == None && sent == [] && !crashed
    {
      this.sock := sock;
      this.store := store;
      targetBoatId := Str("");
      boat := Str("Boat1");
      selectedPosition := None;
      copiedPosition := None;
      mapCenter := LatLng(Num("37.866942"), Num("-122.315452"));
      boatTargets := map[];
      boatTrails := map[];
      boatStatuses := map[];
      notification := None;
      sent := [];
      crashed := false;
    }

    /** On mount the shared command mode becomes "autonomous". */
    method Mount()
      requires sock.Valid()
      modifies sock`commandMode
      ensures sock.Valid() && sock.commandMode == "autonomous"
    {
      sock.SetCommandMode("autonomous");
    }

    /** The follow-target effect: the selected record, and the map centred on it when it
        has a numeric position. */
    method FollowTarget()
      modifies this`boat, this`mapCenter
      ensures boat == match FindBoat(store.boats, targetBoatId)
                      case Some(r) => Obj(r)
                      case None => Undefined
      ensures mapCenter ==
        match FindBoat(store.boats, targetBoatId)
        case Some(r) => (match Position(r)
                         case Some(p) => LatLng(p.0, p.1)
                         case None => old(mapCenter))
        case None => old(mapCenter)
    {
      var found := FindBoat(store.boats, targetBoatId);
      match found {
        case Some(r) =>
          boat := Obj(r);
          var p := Position(r);
          if p.Some? {
            mapCenter := LatLng(p.value.0, p.value.1);
          }
        case None =>
          boat := Undefined;
      }
    }

    /** The default-target effect: with no target and a non-empty fleet, the first boat. */
    method DefaultTarget()
      modifies this`targetBoatId
      ensures targetBoatId ==
        if !Truthy(old(targetBoatId)) && |store.boats| > 0 then RecordId(store.boats[0])
        else old(targetBoatId)
    {
      if !Truthy(targetBoatId) && |store.boats| > 0 {
        targetBoatId := RecordId(store.boats[0]);
      }
    }

    /** The trail/status effect, run whenever the fleet changes. When it throws, neither
        the trails nor the statuses are set. */
    method UpdateTrails()
      requires Valid()
      modifies this`boatTrails, this`boatStatuses, this`crashed
      ensures Valid()
      ensures TrailEffectThrows(store.boats) ==>
        crashed && boatTrails == old(boatTrails) && boatStatuses == old(boatStatuses)
      ensures !TrailEffectThrows(store.boats) ==> crashed == old(crashed)
      ensures !TrailEffectThrows(store.boats) ==>
        boatTrails == TrailsAfter(old(boatTrails), store.boats)
        && boatStatuses == StatusesAfter(old(boatStatuses), store.boats)
    {
      var threw, trails, statuses := RunTrailEffect(boatTrails, boatStatuses, store.boats);
      if threw {
        crashed := true;
        return;
      }
      TrailsStayBounded(boatTrails, store.boats);
      StatusRetained(boatStatuses, store.boats, "");
      boatTrails := trails;
      boatStatuses := statuses;
    }

    /** The notification effect: the last "reached" boat in list order sets the
        notification; with none, it stays as it was. */
    method UpdateNotification()
      modifies this`notification
      ensures notification == if LastReached(store.boats).Some? then LastReached(store.boats)
                              else old(notification)
    {
      var boats := store.boats;
      var i := 0;
      while i < |boats|
        invariant 0 <= i <= |boats|
        invariant notification == if LastReached(boats[..i]).Some? then LastReached(boats[..i])
                                  else old(notification)
      {
        assert boats[..i + 1][..i] == boats[..i];
        if Reached(boats[i]) {
          notification := Some(NoticeFor(boats[i]));
        }
        i := i + 1;
      }
      assert boats[..i] == boats;
    }

    /** Choosing a boat in the picker: the option's value, which is always text. */
    method HandleBoatChange(value: string)
      modifies this`targetBoatId
      ensures targetBoatId == Str(value)
    {
      targetBoatId := Str(value);
    }

    /** Clicking a boat's marker targets that boat by its id as the store holds it. */
    method HandleBoatMarkerClick(boatId: Value)
      modifies this`targetBoatId
      ensures targetBoatId == boatId
    {
      targetBoatId := boatId;
    }

    /** The notification's timer, two seconds after it was shown, clears it. */
    method NotificationExpires()
      modifies this`notification
      ensures notification == None
    {
      notification := None;
    }

    /** A click on the map selects that position. */
    method HandleMapClick(p: LatLng)
      modifies this`selectedPosition
      ensures selectedPosition == Some(p)
    {
      selectedPosition := Some(p);
    }

    /** Copying the selected position (offered only while there is one); the copy is kept
        once the clipboard accepted it. */
    method CopySelectedPosition(clipboardAccepted: bool)
      requires selectedPosition.Some?
      modifies this`copiedPosition
      ensures copiedPosition == if clipboardAccepted then selectedPosition else old(copiedPosition)
    {
      if clipboardAccepted {
        copiedPosition := selectedPosition;
      }
    }

    /** Sends the selected position as a route to the target boat: one command when a
        socket is held and connected, a target is chosen and a position is selected;
        otherwise nothing. */
    method SendRouteToCurrentBoat()
      modifies this`sent
      ensures sock.socket != null && sock.isConnected && Truthy(targetBoatId) && selectedPosition.Some? ==>
        sent == old(sent) + [RouteCommand(targetBoatId, selectedPosition.value)]
      ensures !(sock.socket != null && sock.isConnected && Truthy(targetBoatId) && selectedPosition.Some?) ==>
        sent == old(sent)
    {
      if sock.socket != null && sock.isConnected && Truthy(targetBoatId) && selectedPosition.Some? {
        sent := sent + [RouteCommand(targetBoatId, selectedPosition.value)];
      }
    }

    /** Pastes the copied position into one boat's target, keeping its other fields and
        every other boat's target. */
    method PasteCopiedPosition(boatId: Value)
      requires Valid()
      modifies this`boatTargets
      ensures Valid()
      ensures copiedPosition.None? ==> boatTargets == old(boatTargets)
      ensures copiedPosition.Some? ==>
        boatTargets == old(boatTargets)[ToJsString(boatId) :=
          PastedTarget(TargetOf(old(boatTargets), ToJsString(boatId)), copiedPosition.value)]
    {
      if copiedPosition.Some? {
        var key := ToJsString(boatId);
        PastedTargetReads(TargetOf(boatTargets, key), copiedPosition.value, "");
        boatTargets := boatTargets[key := PastedTarget(TargetOf(boatTargets, key), copiedPosition.value)];
      }
    }

    /** Typing a target latitude or longitude for one boat. */
    method SetTargetField(boatId: Value, k: string, v: Value)
      requires Valid()
      modifies this`boatTargets
      ensures Valid()
      ensures boatTargets == old(boatTargets)[ToJsString(boatId) :=
                WithField(TargetOf(old(boatTargets), ToJsString(boatId)), k, v)]
    {
      var key := ToJsString(boatId);
      WithFieldReads(TargetOf(boatTargets, key), k, v, "");
      boatTargets := boatTargets[key := WithField(TargetOf(boatTargets, key), k, v)];
    }
  }
}
