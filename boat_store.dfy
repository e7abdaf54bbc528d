/** The fleet telemetry store (`BoatProvider`): an ordered list of boat records, each
    `{boat_id, data}`, into which every inbound `boat_data` delta is merged. */
module BoatStore {
  import opened JsValues

  /** `record.boat_id`. */
  function RecordId(record: Object): Value {
    Get(record, "boat_id")
  }

  /** `boats.findIndex(b => b.boat_id === id)`, with "not found" as `|boats|`. */
  function FindBoatIndex(boats: seq<Object>, id: Value): (i: nat)
    ensures i <= |boats|
    ensures i < |boats| ==> StrictEquals(RecordId(boats[i]), id)
    ensures forall j :: 0 <= j < i ==> !StrictEquals(RecordId(boats[j]), id)
  {
    if |boats| == 0 then 0
    else if StrictEquals(RecordId(boats[0]), id) then 0
    else 1 + FindBoatIndex(boats[1..], id)
  }

  /** `boats.find(b => b.boat_id === id)`: the first record with that id. */
  function FindBoat(boats: seq<Object>, id: Value): (r: Option<Object>)
    ensures r.None? <==> forall j :: 0 <= j < |boats| ==> !StrictEquals(RecordId(boats[j]), id)
    ensures r.Some? ==> exists i :: (0 <= i < |boats| && r.value == boats[i]
      && StrictEquals(RecordId(boats[i]), id)
      && forall j :: 0 <= j < i ==> !StrictEquals(RecordId(boats[j]), id))
  {
    var i := FindBoatIndex(boats, id);
    if i < |boats| then Some(boats[i]) else None
  }

  /** `{...current, ...delta, time_now}`: the `data` of a record the store already holds. */
  function MergedData(current: Value, delta: Value, timeNow: string): Object {
    Set(Assign(Assign([], SpreadOf(current)), SpreadOf(delta)), "time_now", Str(timeNow))
  }

  /** `{...delta, time_now}`: the `data` of a record for a boat seen for the first time. */
  function FreshData(delta: Value, timeNow: string): Object {
    Set(Assign([], SpreadOf(delta)), "time_now", Str(timeNow))
  }

  /** The state updater `handleBoatData` passes to `setBoats`: find the record by
      `boat_id`, merge the delta's `data` keys into it and stamp `time_now`; a boat not
      seen before is appended as `{boat_id, data}`. Only the record the id finds changes,
      and the list grows by one exactly when no record is found. */
  function MergeBoatData(prev: seq<Object>, payload: Object, timeNow: string): (r: seq<Object>)
    ensures var i := FindBoatIndex(prev, Get(payload, "boat_id"));
      && |r| == (if i < |prev| then |prev| else |prev| + 1)
      && forall j :: 0 <= j < |prev| && j != i ==> r[j] == prev[j]
  {
    var id := Get(payload, "boat_id");
    var i := FindBoatIndex(prev, id);
    if i < |prev| then
      prev[i := UpdateRecord(prev[i], Get(payload, "data"), timeNow)]
    else
      prev + [NewRecord(id, Get(payload, "data"), timeNow)]
  }

  /** `{...record, data: {...record.data, ...data, time_now}}`: the record of a boat the
      store already holds, after a delta. */
  function UpdateRecord(record: Object, data: Value, timeNow: string): Object {
    Set(Assign([], record), "data", Obj(MergedData(Get(record, "data"), data, timeNow)))
  }

  /** `{boat_id, data: {...data, time_now}}`: the record appended for a boat not yet seen. */
  function NewRecord(id: Value, data: Value, timeNow: string): Object {
    [Field("boat_id", id), Field("data", Obj(FreshData(data, timeNow)))]
  }

  /** Records as JavaScript objects: distinct keys, and a `data` object with distinct keys. */
  predicate RecordsWellFormed(boats: seq<Object>) {
    forall i :: 0 <= i < |boats| ==>
      UniqueKeys(boats[i]) && UniqueKeys(SpreadOf(Get(boats[i], "data")))
  }

  predicate PayloadWellFormed(payload: Object) {
    UniqueKeys(payload) && UniqueKeys(SpreadOf(Get(payload, "data")))
  }

  /** No two records carry strictly equal ids. */
  predicate UniqueIds(boats: seq<Object>) {
    forall i, j :: 0 <= i < j < |boats| ==> !StrictEquals(RecordId(boats[i]), RecordId(boats[j]))
  }

  /** Every record has exactly the two keys the store writes. */
  predicate StoreShaped(boats: seq<Object>) {
    forall i :: 0 <= i < |boats| ==> Keys(boats[i]) == ["boat_id", "data"]
  }

  // ---------------------------------------------------------------------------
  // The store as the provider holds it

  class BoatProvider {
    var boats: seq<Object>
    /** A state updater threw while the provider rendered: with no error boundary above
        it, React unmounts the whole console. */
    var crashed: bool

    ghost predicate Valid()
      reads this
    {
      RecordsWellFormed(boats) && UniqueIds(boats) && StoreShaped(boats)
    }

    constructor ()
      ensures Valid() && boats == [] && !crashed
    {
      boats := [];
      crashed := false;
    }

    /** A `boat_data` event with its payload, received at `timeNow`. The updater reads
        `data.boat_id`: on a `null` or `undefined` payload that throws and the console
        crashes with the store as it was. Any other payload that is not an object (a number,
        a text, an array) owns neither `boat_id` nor `data`, so it is merged as a record
        whose id is `undefined`. */
    method HandleBoatData(payload: Value, timeNow: string)
      requires Valid() && PayloadWellFormed(SpreadOf(payload))
      modifies this
      ensures Valid()
      ensures Nullish(payload) ==> crashed && boats == old(boats)
      ensures !Nullish(payload) ==>
        crashed == old(crashed) && boats == MergeBoatData(old(boats), SpreadOf(payload), timeNow)
    {
      if Nullish(payload) {
        crashed := true;
        return;
      }
      var fields := SpreadOf(payload);
      MergeKeepsWellFormed(boats, fields, timeNow);
      MergeKeepsIdsUnique(boats, fields, timeNow);
      MergeKeepsShape(boats, fields, timeNow);
      boats := MergeBoatData(boats, fields, timeNow);
    }
  }

  /** A payload that is not an object (and not null or undefined) reads `undefined` for
      both `boat_id` and `data`: the store then holds a record whose id is `undefined`,
      either the one it already had, restamped, or a new `{boat_id: undefined, data:
      {time_now}}` at the end. */
  lemma NonObjectPayloadStoredUnderUndefined(prev: seq<Object>, payload: Value, timeNow: string)
    requires RecordsWellFormed(prev) && !payload.Obj? && !Nullish(payload)
    ensures var r := MergeBoatData(prev, SpreadOf(payload), timeNow);
      FindBoat(r, Undefined).Some?
      && (FindBoat(prev, Undefined).None? ==>
            r == prev + [[Field("boat_id", Undefined), Field("data", Obj([Field("time_now", Str(timeNow))]))]])
  {
    var r := MergeBoatData(prev, SpreadOf(payload), timeNow);
    var i := FindBoatIndex(prev, Undefined);
    if i < |prev| {
      SpreadCopies(prev[i]);
      GetSet(prev[i], "data", Obj(MergedData(Get(prev[i], "data"), Undefined, timeNow)), "boat_id");
      assert StrictEquals(RecordId(r[i]), Undefined);
    } else {
      assert FreshData(Undefined, timeNow) == [Field("time_now", Str(timeNow))] by {
        assert Assign([], SpreadOf(Undefined)) == [];
        assert KeyIndex([], "time_now") == 0;
      }
      assert StrictEquals(RecordId(r[|prev|]), Undefined);
    }
  }

  // ---------------------------------------------------------------------------
  // Properties of the merge

  lemma FindBoatIndexAt(boats: seq<Object>, id: Value, i: nat)
    requires i < |boats| && StrictEquals(RecordId(boats[i]), id)
    requires forall j :: 0 <= j < i ==> !StrictEquals(RecordId(boats[j]), id)
    ensures FindBoatIndex(boats, id) == i
  {
  }

  /** The record the merge writes for an existing boat: the old record with only its
      `data` replaced. */
  lemma UpdatedRecord(rec: Object, data: Object)
    requires UniqueKeys(rec)
    ensures Set(Assign([], rec), "data", Obj(data)) == Set(rec, "data", Obj(data))
    ensures UniqueKeys(Set(rec, "data", Obj(data)))
    ensures forall k :: k != "data" ==> Get(Set(rec, "data", Obj(data)), k) == Get(rec, k)
    ensures Get(Set(rec, "data", Obj(data)), "data") == Obj(data)
    ensures Keys(Set(rec, "data", Obj(data))) == if Has(rec, "data") then Keys(rec) else Keys(rec) + ["data"]
  {
    SpreadCopies(rec);
    SetUnique(rec, "data", Obj(data));
    KeysSet(rec, "data", Obj(data));
    forall k ensures Get(Set(rec, "data", Obj(data)), k) == if k == "data" then Obj(data) else Get(rec, k) {
      GetSet(rec, "data", Obj(data), k);
    }
  }

  /** The merged `data`: every key of the delta reads as in the delta, every other old
      key is kept, and `time_now` is the store's timestamp whatever the delta carried. */
  lemma MergedDataReads(old_: Object, delta: Object, timeNow: string, k: string)
    requires UniqueKeys(old_) && UniqueKeys(delta)
    ensures UniqueKeys(MergedData(Obj(old_), Obj(delta), timeNow))
    ensures Get(MergedData(Obj(old_), Obj(delta), timeNow), k) ==
      if k == "time_now" then Str(timeNow)
      else if Has(delta, k) then Get(delta, k)
      else Get(old_, k)
    ensures Has(MergedData(Obj(old_), Obj(delta), timeNow), k) <==>
      k == "time_now" || Has(delta, k) || Has(old_, k)
  {
    SpreadCopies(old_);
    var y := Assign(old_, delta);
    AssignUnique(old_, delta);
    SetUnique(y, "time_now", Str(timeNow));
    GetSet(y, "time_now", Str(timeNow), k);
    AssignGet(old_, delta, k);
    AssignKeys(old_, delta);
    KeysSet(y, "time_now", Str(timeNow));
  }

  /** Updating a boat the store knows replaces only the record at its index; the list
      keeps its length and order, and the record keeps its id. */
  lemma MergeUpdatesKnownBoat(prev: seq<Object>, payload: Object, timeNow: string)
    requires RecordsWellFormed(prev)
    requires FindBoatIndex(prev, Get(payload, "boat_id")) < |prev|
    ensures var i := FindBoatIndex(prev, Get(payload, "boat_id"));
      var r := MergeBoatData(prev, payload, timeNow);
      && |r| == |prev|
      && (forall j :: 0 <= j < |prev| && j != i ==> r[j] == prev[j])
      && RecordId(r[i]) == RecordId(prev[i])
      && (forall k :: k != "data" ==> Get(r[i], k) == Get(prev[i], k))
  {
    var i := FindBoatIndex(prev, Get(payload, "boat_id"));
    UpdatedRecord(prev[i], MergedData(Get(prev[i], "data"), Get(payload, "data"), timeNow));
  }

  /** A boat the store has not seen is appended at the end as `{boat_id, data}`, and the
      list grows by exactly one. */
  lemma MergeAppendsUnknownBoat(prev: seq<Object>, payload: Object, timeNow: string)
    requires FindBoatIndex(prev, Get(payload, "boat_id")) == |prev|
    ensures var r := MergeBoatData(prev, payload, timeNow);
      && |r| == |prev| + 1
      && r[..|prev|] == prev
      && Keys(r[|prev|]) == ["boat_id", "data"]
      && RecordId(r[|prev|]) == Get(payload, "boat_id")
      && Get(r[|prev|], "data") == Obj(FreshData(Get(payload, "data"), timeNow))
  {
    var rec := [Field("boat_id", Get(payload, "boat_id")),
                Field("data", Obj(FreshData(Get(payload, "data"), timeNow)))];
    assert Keys(rec) == ["boat_id", "data"];
    assert KeyIndex(rec, "data") == 1;
  }

  /** Last write wins per key, for the record the delta lands in (found or new): a key the
      delta names takes the delta's value, a key it does not name keeps the old value,
      and `time_now` always holds the store's own timestamp. */
  lemma MergeLastWriteWins(prev: seq<Object>, payload: Object, timeNow: string, k: string)
    requires RecordsWellFormed(prev) && PayloadWellFormed(payload)
    ensures var id := Get(payload, "boat_id");
      var i := FindBoatIndex(prev, id);
      var r := MergeBoatData(prev, payload, timeNow);
      var delta := SpreadOf(Get(payload, "data"));
      var before := if i < |prev| then SpreadOf(Get(prev[i], "data")) else [];
      && i < |r|
      && Get(r[i], "data").Obj?
      && Get(Get(r[i], "data").fields, k) ==
           (if k == "time_now" then Str(timeNow)
            else if Has(delta, k) then Get(delta, k)
            else Get(before, k))
      && (Has(Get(r[i], "data").fields, k) <==> k == "time_now" || Has(delta, k) || Has(before, k))
  {
    var id := Get(payload, "boat_id");
    var i := FindBoatIndex(prev, id);
    var delta := SpreadOf(Get(payload, "data"));
    if i < |prev| {
      var before := SpreadOf(Get(prev[i], "data"));
      MergedDataReads(before, delta, timeNow, k);
      assert MergedData(Get(prev[i], "data"), Get(payload, "data"), timeNow)
          == MergedData(Obj(before), Obj(delta), timeNow);
      UpdatedRecord(prev[i], MergedData(Get(prev[i], "data"), Get(payload, "data"), timeNow));
    } else {
      MergeAppendsUnknownBoat(prev, payload, timeNow);
      MergedDataReads([], delta, timeNow, k);
      assert FreshData(Get(payload, "data"), timeNow) == MergedData(Obj([]), Obj(delta), timeNow);
    }
  }

  /** A record appended by the merge is a well-formed record. */
  lemma NewRecordWellFormed(pd: Value, id: Value, t: string)
    requires UniqueKeys(SpreadOf(pd))
    ensures UniqueKeys(NewRecord(id, pd, t)) && UniqueKeys(SpreadOf(Get(NewRecord(id, pd, t), "data")))
  {
    MergedDataReads([], SpreadOf(pd), t, "");
    assert FreshData(pd, t) == MergedData(Obj([]), Obj(SpreadOf(pd)), t);
    assert KeyIndex(NewRecord(id, pd, t), "data") == 1;
  }

  /** A well-formed record updated by the merge stays well-formed. */
  lemma UpdatedRecordWellFormed(rec: Object, pd: Value, t: string)
    requires UniqueKeys(SpreadOf(pd)) && UniqueKeys(rec) && UniqueKeys(SpreadOf(Get(rec, "data")))
    ensures UniqueKeys(UpdateRecord(rec, pd, t)) && UniqueKeys(SpreadOf(Get(UpdateRecord(rec, pd, t), "data")))
  {
    var m := MergedData(Get(rec, "data"), pd, t);
    UpdatedRecord(rec, m);
    MergedDataReads(SpreadOf(Get(rec, "data")), SpreadOf(pd), t, "");
    assert m == MergedData(Obj(SpreadOf(Get(rec, "data"))), Obj(SpreadOf(pd)), t);
  }

  lemma MergeKeepsWellFormed(prev: seq<Object>, payload: Object, timeNow: string)
    requires RecordsWellFormed(prev) && PayloadWellFormed(payload)
    ensures RecordsWellFormed(MergeBoatData(prev, payload, timeNow))
  {
    var id := Get(payload, "boat_id");
    var pd := Get(payload, "data");
    var i := FindBoatIndex(prev, id);
    if i < |prev| {
      UpdatedRecordWellFormed(prev[i], pd, timeNow);
    } else {
      NewRecordWellFormed(pd, id, timeNow);
    }
  }

  /** If ids are unique before a merge, they are unique after it. */
  lemma MergeKeepsIdsUnique(prev: seq<Object>, payload: Object, timeNow: string)
    requires RecordsWellFormed(prev) && UniqueIds(prev)
    ensures UniqueIds(MergeBoatData(prev, payload, timeNow))
  {
    var id := Get(payload, "boat_id");
    var i := FindBoatIndex(prev, id);
    var r := MergeBoatData(prev, payload, timeNow);
    if i < |prev| {
      MergeUpdatesKnownBoat(prev, payload, timeNow);
      forall a, b | 0 <= a < b < |r| ensures !StrictEquals(RecordId(r[a]), RecordId(r[b])) {
        assert RecordId(r[a]) == RecordId(prev[a]) && RecordId(r[b]) == RecordId(prev[b]);
      }
    } else {
      MergeAppendsUnknownBoat(prev, payload, timeNow);
      forall a, b | 0 <= a < b < |r| ensures !StrictEquals(RecordId(r[a]), RecordId(r[b])) {
        assert r[a] == r[..|prev|][a] == prev[a];
        if b < |prev| {
          assert r[b] == r[..|prev|][b] == prev[b];
        }
      }
    }
  }

  /** Records the store builds only ever have the keys `boat_id` and `data`. */
  lemma MergeKeepsShape(prev: seq<Object>, payload: Object, timeNow: string)
    requires RecordsWellFormed(prev) && StoreShaped(prev)
    ensures StoreShaped(MergeBoatData(prev, payload, timeNow))
  {
    var i := FindBoatIndex(prev, Get(payload, "boat_id"));
    var r := MergeBoatData(prev, payload, timeNow);
    if i < |prev| {
      UpdatedRecord(prev[i], MergedData(Get(prev[i], "data"), Get(payload, "data"), timeNow));
      assert Keys(prev[i])[1] == "data";
    } else {
      MergeAppendsUnknownBoat(prev, payload, timeNow);
      assert forall j :: 0 <= j < |prev| ==> r[j] == prev[j];
    }
  }

  /** So a record of the store has no top-level telemetry: `lat`, `lng`, `status`,
      `location` and `notification` all read as undefined on it. */
  lemma ShapedRecordLacksTopLevelFields(boats: seq<Object>, i: nat, k: string)
    requires StoreShaped(boats) && i < |boats| && k != "boat_id" && k != "data"
    ensures Get(boats[i], k) == Undefined
  {
    assert Keys(boats[i]) == ["boat_id", "data"];
    assert boats[i][0].key == "boat_id" && boats[i][1].key == "data";
  }

  lemma MergedDataIs(before: Object, delta: Object, t: string)
    requires UniqueKeys(before)
    ensures MergedData(Obj(before), Obj(delta), t) == Set(Assign(before, delta), "time_now", Str(t))
  {
    SpreadCopies(before);
  }

  /** Re-merging the same delta keeps the key order of merging it once. */
  lemma RemergeKeys(before: Object, delta: Object, t1: string, t2: string)
    requires UniqueKeys(before) && UniqueKeys(delta)
    ensures Keys(MergedData(Obj(MergedData(Obj(before), Obj(delta), t1)), Obj(delta), t2))
         == Keys(MergedData(Obj(before), Obj(delta), t2))
  {
    var y := Assign(before, delta);
    MergedDataIs(before, delta, t1);
    MergedDataIs(before, delta, t2);
    var m1 := Set(y, "time_now", Str(t1));
    AssignUnique(before, delta);
    SetUnique(y, "time_now", Str(t1));
    MergedDataIs(m1, delta, t2);
    AssignKeys(before, delta);
    KeysSet(y, "time_now", Str(t1));
    KeysSet(y, "time_now", Str(t2));
    assert forall k :: Has(delta, k) ==> Has(m1, k);
    AssignKeys(m1, delta);
    var a := Assign(m1, delta);
    assert Has(m1, "time_now");
    KeysSet(a, "time_now", Str(t2));
  }

  /** Merging a second time with the same delta: only the timestamp moves. */
  lemma RemergeSameDelta(before: Object, delta: Object, t1: string, t2: string)
    requires UniqueKeys(before) && UniqueKeys(delta)
    ensures MergedData(Obj(MergedData(Obj(before), Obj(delta), t1)), Obj(delta), t2)
         == MergedData(Obj(before), Obj(delta), t2)
  {
    var m1 := MergedData(Obj(before), Obj(delta), t1);
    var m2 := MergedData(Obj(m1), Obj(delta), t2);
    var want := MergedData(Obj(before), Obj(delta), t2);
    MergedDataReads(before, delta, t1, "");
    MergedDataReads(m1, delta, t2, "");
    MergedDataReads(before, delta, t2, "");
    RemergeKeys(before, delta, t1, t2);
    forall k | Has(m2, k) ensures Get(m2, k) == Get(want, k) {
      MergedDataReads(before, delta, t1, k);
      MergedDataReads(m1, delta, t2, k);
      MergedDataReads(before, delta, t2, k);
    }
    ObjectExt(m2, want);
  }

  lemma SetTwice(o: Object, k: string, v1: Value, v2: Value)
    requires UniqueKeys(o)
    ensures Set(Set(o, k, v1), k, v2) == Set(o, k, v2)
  {
    SetUnique(o, k, v1);
    SetUnique(Set(o, k, v1), k, v2);
    SetUnique(o, k, v2);
    KeysSet(o, k, v1);
    KeysSet(Set(o, k, v1), k, v2);
    KeysSet(o, k, v2);
    forall k' ensures Get(Set(Set(o, k, v1), k, v2), k') == Get(Set(o, k, v2), k') {
      GetSet(Set(o, k, v1), k, v2, k');
      GetSet(o, k, v1, k');
      GetSet(o, k, v2, k');
    }
    ObjectExt(Set(Set(o, k, v1), k, v2), Set(o, k, v2));
  }

  /** One record merged with the same delta twice reads as merged once at the later time. */
  lemma RecordRemerge(rec: Object, payloadData: Value, t1: string, t2: string)
    requires UniqueKeys(rec) && UniqueKeys(SpreadOf(Get(rec, "data"))) && UniqueKeys(SpreadOf(payloadData))
    ensures UpdateRecord(UpdateRecord(rec, payloadData, t1), payloadData, t2)
         == UpdateRecord(rec, payloadData, t2)
  {
    var before := SpreadOf(Get(rec, "data"));
    var delta := SpreadOf(payloadData);
    var m1 := MergedData(Get(rec, "data"), payloadData, t1);
    var m2 := MergedData(Get(rec, "data"), payloadData, t2);
    assert m1 == MergedData(Obj(before), Obj(delta), t1);
    assert m2 == MergedData(Obj(before), Obj(delta), t2);
    UpdatedRecord(rec, m1);
    var r1 := Set(rec, "data", Obj(m1));
    RemergeSameDelta(before, delta, t1, t2);
    assert MergedData(Get(r1, "data"), payloadData, t2) == m2;
    UpdatedRecord(r1, m2);
    SetTwice(rec, "data", Obj(m1), Obj(m2));
    UpdatedRecord(rec, m2);
  }

  lemma MergeIdempotentKnown(prev: seq<Object>, payload: Object, t1: string, t2: string)
    requires RecordsWellFormed(prev) && PayloadWellFormed(payload)
    requires FindBoatIndex(prev, Get(payload, "boat_id")) < |prev|
    ensures MergeBoatData(MergeBoatData(prev, payload, t1), payload, t2)
         == MergeBoatData(prev, payload, t2)
  {
    var id := Get(payload, "boat_id");
    var i := FindBoatIndex(prev, id);
    var r1 := MergeBoatData(prev, payload, t1);
    MergeUpdatesKnownBoat(prev, payload, t1);
    FindBoatIndexAt(r1, id, i);
    RecordRemerge(prev[i], Get(payload, "data"), t1, t2);
  }

  /** A freshly appended record merged again with the same delta. */
  lemma AppendedRecordRemerge(id: Value, pd: Value, t1: string, t2: string)
    requires UniqueKeys(SpreadOf(pd))
    ensures var rec1 := NewRecord(id, pd, t1);
      UpdateRecord(rec1, pd, t2) == NewRecord(id, pd, t2)
  {
    var f1 := FreshData(pd, t1);
    var rec1 := NewRecord(id, pd, t1);
    var f2 := FreshData(pd, t2);
    assert KeyIndex(rec1, "data") == 1;
    assert MergedData(Get(rec1, "data"), pd, t2) == f2 by {
      RemergeSameDelta([], SpreadOf(pd), t1, t2);
      assert f1 == MergedData(Obj([]), Obj(SpreadOf(pd)), t1);
    }
    UpdatedRecord(rec1, f2);
  }

  /** Merging into a list whose last record is the first with the payload's id updates
      that record. */
  lemma MergeIntoLast(prev: seq<Object>, payload: Object, rec: Object, t: string)
    requires FindBoatIndex(prev, Get(payload, "boat_id")) == |prev|
    requires StrictEquals(RecordId(rec), Get(payload, "boat_id"))
    ensures MergeBoatData(prev + [rec], payload, t) == prev + [UpdateRecord(rec, Get(payload, "data"), t)]
  {
    var r := prev + [rec];
    assert r[|prev|] == rec;
    FindBoatIndexAt(r, Get(payload, "boat_id"), |prev|);
    assert r[|prev| := UpdateRecord(rec, Get(payload, "data"), t)]
        == prev + [UpdateRecord(rec, Get(payload, "data"), t)];
  }

  lemma RemergeAppended(prev: seq<Object>, payload: Object, t1: string, t2: string)
    requires PayloadWellFormed(payload)
    requires StrictEquals(Get(payload, "boat_id"), Get(payload, "boat_id"))
    requires FindBoatIndex(prev, Get(payload, "boat_id")) == |prev|
    ensures var id := Get(payload, "boat_id");
      MergeBoatData(prev + [NewRecord(id, Get(payload, "data"), t1)], payload, t2)
        == prev + [NewRecord(id, Get(payload, "data"), t2)]
  {
    var id := Get(payload, "boat_id");
    var pd := Get(payload, "data");
    var rec := NewRecord(id, pd, t1);
    assert RecordId(rec) == id;
    MergeIntoLast(prev, payload, rec, t2);
    AppendedRecordRemerge(id, pd, t1, t2);
  }

  lemma MergeIdempotentUnknown(prev: seq<Object>, payload: Object, t1: string, t2: string)
    requires PayloadWellFormed(payload)
    requires StrictEquals(Get(payload, "boat_id"), Get(payload, "boat_id"))
    requires FindBoatIndex(prev, Get(payload, "boat_id")) == |prev|
    ensures MergeBoatData(MergeBoatData(prev, payload, t1), payload, t2)
         == MergeBoatData(prev, payload, t2)
  {
    RemergeAppended(prev, payload, t1, t2);
  }

  /** Applying the same delta twice gives the list applying it once gives, apart from
      `time_now`, which holds the later timestamp. This needs the id to be strictly equal
      to itself: a NaN or object id never matches, so every delivery appends a record. */
  lemma MergeIdempotent(prev: seq<Object>, payload: Object, t1: string, t2: string)
    requires RecordsWellFormed(prev) && PayloadWellFormed(payload)
    requires StrictEquals(Get(payload, "boat_id"), Get(payload, "boat_id"))
    ensures MergeBoatData(MergeBoatData(prev, payload, t1), payload, t2)
         == MergeBoatData(prev, payload, t2)
  {
    if FindBoatIndex(prev, Get(payload, "boat_id")) < |prev| {
      MergeIdempotentKnown(prev, payload, t1, t2);
    } else {
      MergeIdempotentUnknown(prev, payload, t1, t2);
    }
  }
}
