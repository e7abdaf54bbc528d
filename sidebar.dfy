/** The sidebar: the current command mode and one row per online boat with its status. */
module Sidebar {
  import opened JsValues
  import opened Text
  import opened BoatStore

  /** The style class of a status: "Reached Destination" is reached, a text starting with
      "In Progress" is in progress, a falsy status is station-keeping, any other text is
      station-keeping too; a truthy status that is not text has no `startsWith`, and the
      render throws. */
  function StatusClass(status: Value): (r: Completion<string>)
    ensures r == Normal("reached") <==> status == Str("Reached Destination")
    ensures r == Normal("in-progress") <==> status.Str? && StartsWith(status.s, "In Progress")
    ensures r.TypeError? <==> Truthy(status) && !status.Str?
    ensures r.Normal? ==> r.value in {"reached", "in-progress", "station-keeping"}
  {
    if StrictEquals(status, Str("Reached Destination")) then
      assert status.s[0] == 'R' != "In Progress"[0];
      Normal("reached")
    else if !Truthy(status) then Normal("station-keeping")
    else if status.Str? then
      (if StartsWith(status.s, "In Progress") then Normal("in-progress") else Normal("station-keeping"))
    else TypeError
  }

  /** The status as shown: the status itself, or "station-keeping" when it is falsy. */
  function StatusText(status: Value): (t: Value)
    ensures Truthy(t)
    ensures Truthy(status) ==> t == status
  {
    if Truthy(status) then status else Str("station-keeping")
  }

  /** What the text shows agrees with the class: a reached boat shows "Reached
      Destination", an in-progress boat shows its own status, and a boat whose status is
      falsy shows and is styled as station-keeping. */
  lemma ClassAgreesWithText(status: Value)
    ensures StatusClass(status) == Normal("reached") ==> StatusText(status) == Str("Reached Destination")
    ensures StatusClass(status) == Normal("in-progress") ==>
      StatusText(status).Str? && StartsWith(StatusText(status).s, "In Progress")
    ensures !Truthy(status) ==>
      StatusClass(status) == Normal("station-keeping") && StatusText(status) == Str("station-keeping")
  {
    if StatusClass(status) == Normal("in-progress") {
      assert |status.s| >= |"In Progress"| && Truthy(status);
    }
  }

  /** The mode's style class: "manual" for exactly the text "manual", else "autonomous". */
  function ModeClass(mode: string): (c: string)
    ensures c == "manual" <==> mode == "manual"
    ensures c != "manual" ==> c == "autonomous"
  {
    if mode == "manual" then "manual" else "autonomous"
  }

  /** `mode.charAt(0).toUpperCase() + mode.slice(1)`. */
  function ModeLabel(mode: string): (shown: string)
    ensures |shown| == |mode|
    ensures |mode| > 0 ==> shown[1..] == mode[1..] && shown[0] == UpperAscii(mode[0])
  {
    if |mode| == 0 then "" else [UpperAscii(mode[0])] + mode[1..]
  }

  /** The two modes the views set are shown as "Manual" and "Autonomous", each with its
      own style class. */
  lemma ModeLabelsOfKnownModes()
    ensures ModeLabel("manual") == "Manual" && ModeClass("manual") == "manual"
    ensures ModeLabel("autonomous") == "Autonomous" && ModeClass("autonomous") == "autonomous"
  {
    assert ModeLabel("manual") == ['M'] + "anual";
    assert ModeLabel("autonomous") == ['A'] + "utonomous";
  }

  /** Capitalising a label again changes nothing. */
  lemma ModeLabelIdempotent(mode: string)
    ensures ModeLabel(ModeLabel(mode)) == ModeLabel(mode)
  {
    if |mode| > 0 {
      var l := ModeLabel(mode);
      assert UpperAscii(l[0]) == l[0];
      assert ModeLabel(l) == [l[0]] + l[1..];
    }
  }

  /** One line of the boat list. */
  datatype Row = Row(boatId: Value, statusClass: string, statusText: Value)

  datatype BoatList = NoBoatsOnline | Rows(rows: seq<Row>)

  /** Why rendering the list throws: a truthy status that is not text has no `startsWith`
      (a TypeError while the rows are built), or an id shown in `<strong>` is an object,
      which React refuses as a child. */
  datatype RenderError = StatusNotText | ObjectAsChild

  datatype Render<+T> = Shown(value: T) | Throws(error: RenderError)

  /** Whether React accepts `v` as a child: anything but an object, an array item by item. */
  predicate RendersAsChild(v: Value) {
    match v
    case Obj(_) => false
    case Arr(items) => forall i :: 0 <= i < |items| ==> RendersAsChild(items[i])
    case _ => true
  }

  /** The `boats.map` callback for one boat. */
  function RowFor(boat: Object): (r: Completion<Row>)
    ensures r.TypeError? <==> Truthy(Get(boat, "status")) && !Get(boat, "status").Str?
    ensures r.Normal? ==> r.value.boatId == RecordId(boat) && Truthy(r.value.statusText)
  {
    match StatusClass(Get(boat, "status"))
    case Normal(c) => Normal(Row(RecordId(boat), c, StatusText(Get(boat, "status"))))
    case TypeError => TypeError
  }

  /** The rows `boats.map` builds, or the TypeError of the first boat whose status throws. */
  function RowsFor(boats: seq<Object>): (r: Completion<seq<Row>>)
    ensures r.TypeError? <==> exists i :: 0 <= i < |boats| && RowFor(boats[i]).TypeError?
    ensures r.Normal? ==>
      (|r.value| == |boats| && forall i :: 0 <= i < |boats| ==> RowFor(boats[i]) == Normal(r.value[i]))
  {
    if |boats| == 0 then Normal([])
    else
      match RowFor(boats[0])
      case TypeError => TypeError
      case Normal(row) =>
        match RowsFor(boats[1..])
        case TypeError =>
          assert forall i :: 0 <= i < |boats| - 1 ==> boats[1..][i] == boats[i + 1];
          TypeError
        case Normal(rest) =>
          assert forall i :: 1 <= i < |boats| ==> boats[i] == boats[1..][i - 1];
          Normal([row] + rest)
  }

  /** The boat list: "No boats online." for an empty fleet, else one row per boat, once
      React accepts every row's id as a child. */
  function BoatListFor(boats: seq<Object>): (r: Render<BoatList>)
    ensures |boats| == 0 ==> r == Shown(NoBoatsOnline)
    ensures r == Throws(StatusNotText) <==> exists i :: 0 <= i < |boats| && RowFor(boats[i]).TypeError?
    ensures r == Throws(ObjectAsChild) <==>
      (forall i :: 0 <= i < |boats| ==> RowFor(boats[i]).Normal?)
      && exists i :: 0 <= i < |boats| && !RendersAsChild(RecordId(boats[i]))
    ensures |boats| > 0 && r.Shown? ==>
      r.value.Rows? && |r.value.rows| == |boats|
      && forall i :: 0 <= i < |boats| ==>
           RowFor(boats[i]) == Normal(r.value.rows[i]) && RendersAsChild(r.value.rows[i].boatId)
  {
    if |boats| == 0 then Shown(NoBoatsOnline)
    else
      match RowsFor(boats)
      case TypeError => Throws(StatusNotText)
      case Normal(rows) =>
        assert forall i :: 0 <= i < |boats| ==> rows[i].boatId == RecordId(boats[i]);
        if exists i :: 0 <= i < |rows| && !RendersAsChild(rows[i].boatId) then Throws(ObjectAsChild)
        else Shown(Rows(rows))
  }

  /** Records of the store carry no top-level `status`: every boat shows as
      station-keeping, and the list renders exactly when every id is a valid child (an
      object id, which the store takes as it comes, makes it throw). */
  lemma ShapedStoreAllStationKeeping(boats: seq<Object>)
    requires StoreShaped(boats) && |boats| > 0
    ensures BoatListFor(boats).Shown? <==> forall i :: 0 <= i < |boats| ==> RendersAsChild(RecordId(boats[i]))
    ensures BoatListFor(boats).Shown? ==> forall i :: 0 <= i < |boats| ==>
      BoatListFor(boats).value.rows[i] == Row(RecordId(boats[i]), "station-keeping", Str("station-keeping"))
  {
    forall i | 0 <= i < |boats|
      ensures RowFor(boats[i]) == Normal(Row(RecordId(boats[i]), "station-keeping", Str("station-keeping")))
    {
      ShapedRecordLacksTopLevelFields(boats, i, "status");
    }
  }

  /** The store takes an object id as it comes: a first event `{boat_id: {n: 1}, data: {}}`
      leaves a fleet whose list throws. */
  lemma ObjectIdBreaksList(timeNow: string)
    ensures BoatListFor(MergeBoatData([], [Field("boat_id", Obj([Field("n", Num("1"))])),
                                           Field("data", Obj([]))], timeNow))
            == Throws(ObjectAsChild)
  {
    var id := Obj([Field("n", Num("1"))]);
    var payload := [Field("boat_id", id), Field("data", Obj([]))];
    assert Get(payload, "boat_id") == id;
    var boats := MergeBoatData([], payload, timeNow);
    assert boats == [NewRecord(id, Get(payload, "data"), timeNow)];
    assert RecordId(boats[0]) == id;
    assert Get(boats[0], "status") == Undefined;
    assert RowFor(boats[0]).Normal?;
    assert !RendersAsChild(RecordId(boats[0]));
  }
}
