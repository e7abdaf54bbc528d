/** The recording provider: a fleet-wide recording and per-boat recordings of inbound
    telemetry, each buffered in memory and offered as a JSON download when stopped. */
module Recording {
  import opened JsValues
  import opened Text

  /** `iso.replace(/[:.]/g, "-")`: the timestamp made safe for a file name. */
  function Sanitize(iso: string): (r: string)
    ensures |r| == |iso|
    ensures forall i :: 0 <= i < |iso| ==>
      r[i] == (if iso[i] == ':' || iso[i] == '.' then '-' else iso[i])
  {
    if |iso| == 0 then ""
    else [if iso[0] == ':' || iso[0] == '.' then '-' else iso[0]] + Sanitize(iso[1..])
  }

  /** A sanitized timestamp holds no ':' and no '.', and sanitizing is idempotent. */
  lemma SanitizeClean(iso: string)
    ensures ':' !in Sanitize(iso) && '.' !in Sanitize(iso)
    ensures Sanitize(Sanitize(iso)) == Sanitize(iso)
  {
    var r := Sanitize(iso);
    assert forall i :: 0 <= i < |r| ==> r[i] != ':' && r[i] != '.';
  }

  /** `boat_data_all_<timestamp>.json`. */
  function AllFileName(isoNow: string): string {
    "boat_data_all_" + Sanitize(isoNow) + ".json"
  }

  /** `boat_data_<boatId>_<timestamp>.json`, the id written as `String(boatId)`. */
  function BoatFileName(boatId: Value, isoNow: string): string {
    "boat_data_" + ToJsString(boatId) + "_" + Sanitize(isoNow) + ".json"
  }

  /** In `body + ".json"`, the first '.' is the one before the extension when the body has
      none. */
  lemma ExtensionDot(body: string)
    requires '.' !in body
    ensures IndexOfChar(body + ".json", '.') == |body|
  {
    var s := body + ".json";
    assert forall j :: 0 <= j < |body| ==> s[j] == body[j];
    assert s[|body|] == '.';
  }

  /** The file names carry the timestamp with no ':' and no '.': the only '.' of a name
      is the one before the extension, provided the boat id itself has none. */
  lemma FileNamesHaveOneDot(boatId: Value, isoNow: string)
    ensures IndexOfChar(AllFileName(isoNow), '.') == |AllFileName(isoNow)| - 5
    ensures '.' !in ToJsString(boatId) ==>
      IndexOfChar(BoatFileName(boatId, isoNow), '.') == |BoatFileName(boatId, isoNow)| - 5
    ensures ':' !in AllFileName(isoNow)
    ensures ':' !in ToJsString(boatId) ==> ':' !in BoatFileName(boatId, isoNow)
  {
    SanitizeClean(isoNow);
    var ts := Sanitize(isoNow);
    var id := ToJsString(boatId);
    ExtensionDot("boat_data_all_" + ts);
    assert AllFileName(isoNow) == ("boat_data_all_" + ts) + ".json";
    if '.' !in id {
      ExtensionDot("boat_data_" + id + "_" + ts);
      assert BoatFileName(boatId, isoNow) == ("boat_data_" + id + "_" + ts) + ".json";
    }
  }

  /** A download the browser is asked to perform: the file name and the records written to
      it as indented JSON. */
  datatype Download = Download(fileName: string, records: seq<Value>)

  /** `[boatId]` as a property key: `String(boatId)`. */
  function BoatKey(boatId: Value): string {
    ToJsString(boatId)
  }

  /** `data.boat_id` as a property key, for an event that is not null or undefined. */
  function EventKey(data: Value): string {
    BoatKey(Member(data, "boat_id"))
  }

  /** Every event of the buffer is an event of the boat `key`. */
  predicate OwnEvents(buffer: seq<Value>, key: string) {
    forall e :: e in buffer ==> !Nullish(e) && EventKey(e) == key
  }

  class RecordingProvider {
    var isRecordingAll: bool
    var recordingBoats: map<string, bool>
    var recordedDataAll: seq<Value>
    var recordedDataBoats: map<string, seq<Value>>
    /** Downloads triggered so far, oldest first. */
    var downloads: seq<Download>
    /** A state updater threw while the provider rendered: with no error boundary above
        it, React unmounts the whole console. */
    var crashed: bool

    /** The fleet buffer is empty while the fleet is not recorded; a boat has a buffer
        exactly while it is being recorded, and its buffer holds only its own events. */
    ghost predicate Valid()
      reads this
    {
      && (!isRecordingAll ==> recordedDataAll == [])
      && (forall k :: k in recordedDataBoats <==> k in recordingBoats && recordingBoats[k])
      && (forall k :: k in recordedDataBoats ==> OwnEvents(recordedDataBoats[k], k))
    }

    /** Whether `recordingBoats[boatId]` is truthy. */
    predicate IsRecordingBoat(boatId: Value)
      reads this
    {
      BoatKey(boatId) in recordingBoats && recordingBoats[BoatKey(boatId)]
    }

    /** Whether `recordingBoats[boatId]` reads an inherited `Object.prototype` member: the
        flag is truthy although the boat was never recorded. */
    predicate ReadsInheritedFlag(boatId: Value)
      reads this
    {
      BoatKey(boatId) !in recordingBoats && Inherited(BoatKey(boatId))
    }

    constructor ()
      ensures Valid()
      ensures !isRecordingAll && recordingBoats == map[] && recordedDataAll == []
      ensures recordedDataBoats == map[] && downloads == [] && !crashed
    {
      isRecordingAll := false;
      recordingBoats := map[];
      recordedDataAll := [];
      recordedDataBoats := map[];
      downloads := [];
      crashed := false;
    }

    /** Starts (or restarts, discarding what was buffered) the fleet-wide recording. */
    method StartRecordingAll()
      requires Valid()
      modifies this
      ensures Valid()
      ensures crashed == old(crashed)
      ensures isRecordingAll && recordedDataAll == []
      ensures recordingBoats == old(recordingBoats) && recordedDataBoats == old(recordedDataBoats)
      ensures downloads == old(downloads)
    {
      isRecordingAll := true;
      recordedDataAll := [];
    }

    /** Offers the fleet buffer as a download, unless it is empty. */
    method SaveDataToFileAll(isoNow: string)
      modifies this`downloads
      ensures downloads == old(downloads) + SavedAll(recordedDataAll, isoNow)
    {
      if |recordedDataAll| == 0 {
        return;
      }
      downloads := downloads + [Download(AllFileName(isoNow), recordedDataAll)];
    }

    /** Stops the fleet-wide recording, saves what it buffered and empties the buffer. */
    method StopRecordingAll(isoNow: string)
      requires Valid()
      modifies this
      ensures Valid()
      ensures crashed == old(crashed)
      ensures !isRecordingAll && recordedDataAll == []
      ensures downloads == old(downloads) + SavedAll(old(recordedDataAll), isoNow)
      ensures recordingBoats == old(recordingBoats) && recordedDataBoats == old(recordedDataBoats)
    {
      isRecordingAll := false;
      SaveDataToFileAll(isoNow);
      recordedDataAll := [];
    }

    /** Starts (or restarts, discarding what was buffered) the recording of one boat. */
    method StartRecordingBoat(boatId: Value)
      requires Valid()
      modifies this
      ensures Valid()
      ensures crashed == old(crashed)
      ensures recordingBoats == old(recordingBoats)[BoatKey(boatId) := true]
      ensures recordedDataBoats == old(recordedDataBoats)[BoatKey(boatId) := []]
      ensures isRecordingAll == old(isRecordingAll) && recordedDataAll == old(recordedDataAll)
      ensures downloads == old(downloads)
    {
      var key := BoatKey(boatId);
      recordingBoats := recordingBoats[key := true];
      recordedDataBoats := recordedDataBoats[key := []];
    }

    /** Offers one boat's buffer as a download, unless it is missing or empty. */
    method SaveDataToFileBoat(boatId: Value, isoNow: string)
      modifies this`downloads
      ensures downloads == old(downloads) + SavedBoat(recordedDataBoats, boatId, isoNow)
    {
      var key := BoatKey(boatId);
      if key !in recordedDataBoats || |recordedDataBoats[key]| == 0 {
        return;
      }
      downloads := downloads + [Download(BoatFileName(boatId, isoNow), recordedDataBoats[key])];
    }

    /** Stops one boat's recording (its flag stays, set to false), saves its buffer and
        drops it. */
    method StopRecordingBoat(boatId: Value, isoNow: string)
      requires Valid()
      modifies this
      ensures Valid()
      ensures crashed == old(crashed)
      ensures recordingBoats == old(recordingBoats)[BoatKey(boatId) := false]
      ensures recordedDataBoats == old(recordedDataBoats) - {BoatKey(boatId)}
      ensures downloads == old(downloads) + SavedBoat(old(recordedDataBoats), boatId, isoNow)
      ensures isRecordingAll == old(isRecordingAll) && recordedDataAll == old(recordedDataAll)
    {
      var key := BoatKey(boatId);
      recordingBoats := recordingBoats[key := false];
      SaveDataToFileBoat(boatId, isoNow);
      recordedDataBoats := recordedDataBoats - {key};
    }

    /** Buffers one inbound event in every recording that is active for it. Reading
        `data.boat_id` throws on a `null` or `undefined` event before anything is buffered.
        When the boat's flag reads an inherited member, the fleet buffer still takes the
        event, but the boat's updater spreads that member, which is not iterable, and the
        console crashes. */
    method AddRecordedData(data: Value) returns (threw: bool)
      requires Valid()
      modifies this
      ensures Valid()
      ensures threw <==> Nullish(data)
      ensures recordedDataAll ==
        old(if !Nullish(data) && isRecordingAll then recordedDataAll + [data] else recordedDataAll)
      ensures recordedDataBoats == old(
        if !Nullish(data) && IsRecordingBoat(Member(data, "boat_id"))
        then recordedDataBoats[EventKey(data) := BufferOf(recordedDataBoats, EventKey(data)) + [data]]
        else recordedDataBoats)
      ensures crashed == old(crashed || (!Nullish(data) && ReadsInheritedFlag(Member(data, "boat_id"))))
      ensures isRecordingAll == old(isRecordingAll) && recordingBoats == old(recordingBoats)
      ensures downloads == old(downloads)
    {
      if Nullish(data) {
        return true;
      }
      threw := false;
      var boatId := Member(data, "boat_id");
      if isRecordingAll {
        recordedDataAll := recordedDataAll + [data];
      }
      if IsRecordingBoat(boatId) {
        var key := BoatKey(boatId);
        recordedDataBoats := recordedDataBoats[key := BufferOf(recordedDataBoats, key) + [data]];
      } else if ReadsInheritedFlag(boatId) {
        crashed := true;
      }
    }
  }

  /** `prev[key] || []`. */
  function BufferOf(buffers: map<string, seq<Value>>, key: string): seq<Value> {
    if key in buffers then buffers[key] else []
  }

  /** What saving the fleet buffer downloads: nothing when it is empty. */
  function SavedAll(data: seq<Value>, isoNow: string): (r: seq<Download>)
    ensures |r| <= 1
    ensures |r| == 1 <==> |data| > 0
    ensures |r| == 1 ==> r[0].records == data && r[0].fileName == AllFileName(isoNow)
  {
    if |data| == 0 then [] else [Download(AllFileName(isoNow), data)]
  }

  /** What saving one boat's buffer downloads: nothing when it has none or it is empty. */
  function SavedBoat(buffers: map<string, seq<Value>>, boatId: Value, isoNow: string): (r: seq<Download>)
    ensures |r| <= 1
    ensures |r| == 1 <==> BoatKey(boatId) in buffers && |buffers[BoatKey(boatId)]| > 0
    ensures |r| == 1 ==>
      r[0].records == buffers[BoatKey(boatId)] && r[0].fileName == BoatFileName(boatId, isoNow)
  {
    var key := BoatKey(boatId);
    if key !in buffers || |buffers[key]| == 0 then []
    else [Download(BoatFileName(boatId, isoNow), buffers[key])]
  }

  /** Stopping the fleet recording twice downloads at most once: the first stop emptied
      the buffer, and the second finds nothing to save. */
  method StopAllTwice(p: RecordingProvider, iso1: string, iso2: string)
    requires p.Valid()
    modifies p
    ensures p.Valid() && !p.isRecordingAll
    ensures p.downloads == old(p.downloads) + SavedAll(old(p.recordedDataAll), iso1)
  {
    p.StopRecordingAll(iso1);
    p.StopRecordingAll(iso2);
  }

  /** Stopping a boat's recording twice downloads at most once: the first stop dropped its
      buffer, and the second finds none. */
  method StopBoatTwice(p: RecordingProvider, boatId: Value, iso1: string, iso2: string)
    requires p.Valid()
    modifies p
    ensures p.Valid() && !p.IsRecordingBoat(boatId)
    ensures p.downloads == old(p.downloads) + SavedBoat(old(p.recordedDataBoats), boatId, iso1)
  {
    p.StopRecordingBoat(boatId, iso1);
    p.StopRecordingBoat(boatId, iso2);
  }

  /** A boat's recording session: started, fed events in order, then stopped. The console
      crashes exactly when an event of another boat names an inherited `Object.prototype`
      member; the console is then unmounted, its Stop button is gone and nothing is
      downloaded. Otherwise the file downloaded holds exactly the events of that boat fed
      while it was recorded, in arrival order, and when there were none, nothing is
      downloaded. Null and undefined events throw at their caller and are not kept. */
  method RecordBoatSession(boatId: Value, events: seq<Value>, isoNow: string)
    returns (saved: seq<Download>, crashed: bool)
    ensures crashed <==> exists i :: 0 <= i < |events| && CrashesSession(events[i], boatId)
    ensures crashed ==> saved == []
    ensures !crashed ==>
      saved == if |Matching(events, boatId)| == 0 then []
               else [Download(BoatFileName(boatId, isoNow), Matching(events, boatId))]
  {
    var p := new RecordingProvider();
    p.StartRecordingBoat(boatId);
    FeedEvents(p, boatId, events);
    AnyCrashesSessionIff(events, boatId);
    crashed := p.crashed;
    saved := [];
    if !crashed {
      p.StopRecordingBoat(boatId, isoNow);
      saved := p.downloads;
    }
  }

  /** Feeds `events` in order to a provider that records `boatId` alone, from an empty
      buffer. */
  method FeedEvents(p: RecordingProvider, boatId: Value, events: seq<Value>)
    requires p.Valid() && p.recordingBoats == map[BoatKey(boatId) := true]
    requires p.recordedDataBoats == map[BoatKey(boatId) := []] && !p.crashed
    modifies p
    ensures p.Valid() && p.recordingBoats == old(p.recordingBoats)
    ensures BoatKey(boatId) in p.recordedDataBoats
    ensures p.recordedDataBoats[BoatKey(boatId)] == Matching(events, boatId)
    ensures p.downloads == old(p.downloads)
    ensures p.crashed == AnyCrashesSession(events, boatId)
  {
    var i := 0;
    while i < |events|
      invariant 0 <= i <= |events|
      invariant p.Valid() && p.recordingBoats == old(p.recordingBoats)
      invariant BoatKey(boatId) in p.recordedDataBoats
      invariant p.recordedDataBoats[BoatKey(boatId)] == Matching(events[..i], boatId)
      invariant p.downloads == old(p.downloads)
      invariant p.crashed == AnyCrashesSession(events[..i], boatId)
    {
      assert events[..i + 1] == events[..i] + [events[i]];
      FeedOne(p, boatId, events[..i], events[i]);
      i := i + 1;
    }
    assert events[..i] == events;
  }

  /** One step of `FeedEvents`: the event after `prefix`. */
  method FeedOne(p: RecordingProvider, boatId: Value, prefix: seq<Value>, e: Value)
    requires p.Valid() && p.recordingBoats == map[BoatKey(boatId) := true]
    requires BoatKey(boatId) in p.recordedDataBoats
    requires p.recordedDataBoats[BoatKey(boatId)] == Matching(prefix, boatId)
    requires p.crashed == AnyCrashesSession(prefix, boatId)
    modifies p
    ensures p.Valid() && p.recordingBoats == old(p.recordingBoats)
    ensures BoatKey(boatId) in p.recordedDataBoats
    ensures p.recordedDataBoats[BoatKey(boatId)] == Matching(prefix + [e], boatId)
    ensures p.downloads == old(p.downloads)
    ensures p.crashed == AnyCrashesSession(prefix + [e], boatId)
  {
    MatchingAppend(prefix, e, boatId);
    assert (prefix + [e])[..|prefix|] == prefix;
    var matches := !Nullish(e) && EventKey(e) == BoatKey(boatId);
    assert matches == (!Nullish(e) && p.IsRecordingBoat(Member(e, "boat_id")));
    var flagInherited := !Nullish(e) && p.ReadsInheritedFlag(Member(e, "boat_id"));
    assert flagInherited == CrashesSession(e, boatId);
    var _ := p.AddRecordedData(e);
  }

  /** Whether feeding `e` while only `boatId` is recorded crashes the console: its own id
      is another boat's and names an inherited member. */
  predicate CrashesSession(e: Value, boatId: Value) {
    !Nullish(e) && EventKey(e) != BoatKey(boatId) && Inherited(EventKey(e))
  }

  function AnyCrashesSession(events: seq<Value>, boatId: Value): bool {
    if |events| == 0 then false
    else AnyCrashesSession(events[..|events| - 1], boatId) || CrashesSession(events[|events| - 1], boatId)
  }

  lemma {:induction false} AnyCrashesSessionIff(events: seq<Value>, boatId: Value)
    ensures AnyCrashesSession(events, boatId) <==>
      exists i :: 0 <= i < |events| && CrashesSession(events[i], boatId)
    decreases |events|
  {
    if |events| > 0 {
      var init := events[..|events| - 1];
      AnyCrashesSessionIff(init, boatId);
      assert forall i :: 0 <= i < |init| ==> init[i] == events[i];
    }
  }

  /** The events that are not null or undefined and whose `boat_id` names the boat
      `boatId` as a property key does. */
  function Matching(events: seq<Value>, boatId: Value): (r: seq<Value>)
    ensures |r| <= |events|
    ensures forall e :: e in r ==> e in events && !Nullish(e) && EventKey(e) == BoatKey(boatId)
  {
    if |events| == 0 then []
    else
      var last := events[|events| - 1];
      var init := Matching(events[..|events| - 1], boatId);
      if !Nullish(last) && EventKey(last) == BoatKey(boatId) then init + [last] else init
  }

  lemma MatchingAppend(events: seq<Value>, e: Value, boatId: Value)
    ensures Matching(events + [e], boatId) ==
      if !Nullish(e) && EventKey(e) == BoatKey(boatId) then Matching(events, boatId) + [e]
      else Matching(events, boatId)
  {
    assert (events + [e])[..|events|] == events;
  }
}
