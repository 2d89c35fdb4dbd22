/**
 * The timeline processor: the entries a tracked-object or API event
 * produces, the per-event cache that holds them until the event itself is
 * saved, and the Timeline table they are finally written to, which only
 * ever grows. The queue is a sequence of messages; `toRelative` is the
 * conversion of a box to frame-relative coordinates for a camera.
 */
module Timeline {
  import opened Wrappers
  import opened Json
  import Seqs

  /** The event states the maintainer publishes. */
  const EventStart: string := "start"
  const EventUpdate: string := "update"
  const EventEnd: string := "end"

  /**
   * A tracked object's published state. `attributes` are the keys of its
   * attributes dict in order; `attributeBoxes` the boxes of its current
   * attributes. An absent sub label is Null.
   */
  datatype ObjectState = ObjectState(
    id: string, frameTime: JSON, box: JSON, objectLabel: string, subLabel: JSON, region: JSON, score: JSON,
    hasClip: bool, hasSnapshot: bool, currentZones: seq<string>, stationary: bool,
    attributes: seq<string>, attributeBoxes: seq<JSON>)

  /** An event posted through the API; `kind` is its optional "type". */
  datatype ApiEvent = ApiEvent(kind: Option<string>, startTime: JSON, id: string, objectLabel: string, subLabel: JSON)

  /** The data column of a timeline entry. */
  datatype EntryData =
    | Tracked(box: JSON, objectLabel: string, subLabel: JSON, region: JSON, attribute: string, score: JSON,
              zones: Option<seq<string>>, attributeBox: Option<JSON>)
    | External(objectLabel: string, subLabel: JSON)

  datatype Entry = Entry(classType: string, timestamp: JSON, camera: string, source: string, sourceId: string, data: EntryData)

  /** One message taken off the queue. */
  datatype Message =
    | TrackedObject(camera: string, eventType: string, prev: Option<ObjectState>, data: ObjectState)
    | Api(camera: string, eventType: string, event: ApiEvent)
    | OtherInput

  /** The processor's state: cached entries by event id, and the Timeline table. */
  datatype Store = Store(cache: map<string, seq<Entry>>, table: seq<Entry>)

  function CachedFor(cache: map<string, seq<Entry>>, id: string): seq<Entry> {
    if id in cache then cache[id] else []
  }

  /** The event has been written: it has a clip or a snapshot. */
  predicate EventSaved(data: ObjectState) {
    data.hasClip || data.hasSnapshot
  }

  // ------------------------------------------------------------- caching

  /**
   * `insert_or_save` on the state: an entry of an unsaved event is appended
   * to that event's cache; otherwise the event's cached entries are
   * written, in order, the cache key is dropped, and the entry is written.
   */
  function Save(s: Store, entry: Entry, saved: bool): Store {
    var id := entry.sourceId;
    if !saved then Store(s.cache[id := CachedFor(s.cache, id) + [entry]], s.table)
    else Store(s.cache - {id}, s.table + CachedFor(s.cache, id) + [entry])
  }

  /** Saving the entries one after the other. */
  function SaveAll(s: Store, entries: seq<Entry>, saved: bool): Store {
    if entries == [] then s else Save(SaveAll(s, entries[..|entries| - 1], saved), entries[|entries| - 1], saved)
  }

  /** All entries belong to the event `id`. */
  predicate AllOf(entries: seq<Entry>, id: string) {
    forall i :: 0 <= i < |entries| ==> entries[i].sourceId == id
  }

  /**
   * Entries of an unsaved event write nothing and wait in its cache, after
   * those cached before; the caches of other events are untouched.
   */
  lemma {:induction false} SaveAllPending(s: Store, entries: seq<Entry>, id: string)
    requires AllOf(entries, id)
    ensures var r := SaveAll(s, entries, false);
            && r.table == s.table
            && r.cache - {id} == s.cache - {id}
            && (entries != [] ==> id in r.cache && r.cache[id] == CachedFor(s.cache, id) + entries)
    decreases |entries|
  {
    if entries != [] {
      var init, e := entries[..|entries| - 1], entries[|entries| - 1];
      assert AllOf(init, id) && e.sourceId == id;
      SaveAllPending(s, init, id);
      var mid := SaveAll(s, init, false);
      assert SaveAll(s, entries, false) == Save(mid, e, false);
      assert mid.cache[id := CachedFor(mid.cache, id) + [e]] - {id} == mid.cache - {id};
      Seqs.AppendSnoc(CachedFor(s.cache, id), init, e, entries);
    }
  }

  /**
   * Entries of a saved event are written after that event's cached entries,
   * in order, and the event's cache is gone; other events are untouched.
   */
  lemma {:induction false} SaveAllFlushed(s: Store, entries: seq<Entry>, id: string)
    requires AllOf(entries, id) && entries != []
    ensures var r := SaveAll(s, entries, true);
            && r.table == s.table + CachedFor(s.cache, id) + entries
            && id !in r.cache
            && r.cache - {id} == s.cache - {id}
    decreases |entries|
  {
    var init := entries[..|entries| - 1];
    assert AllOf(init, id);
    if init != [] {
      SaveAllFlushed(s, init, id);
      assert init + [entries[|entries| - 1]] == entries;
    }
  }

  /** Saving never removes or changes an entry already in the table. */
  lemma {:induction false} SaveAllGrows(s: Store, entries: seq<Entry>, saved: bool)
    ensures s.table <= SaveAll(s, entries, saved).table
    decreases |entries|
  {
    if entries != [] {
      SaveAllGrows(s, entries[..|entries| - 1], saved);
    }
  }

  // ------------------------------------------------------------- sub labels

  /** The entry with its data's sub label replaced. */
  function WithSubLabel(e: Entry, subLabel: JSON): Entry {
    e.(data := e.data.(subLabel := subLabel))
  }

  /** Every cached entry relabelled. */
  function Relabelled(entries: seq<Entry>, subLabel: JSON): (r: seq<Entry>)
    ensures |r| == |entries|
  {
    if entries == [] then []
    else Relabelled(entries[..|entries| - 1], subLabel) + [WithSubLabel(entries[|entries| - 1], subLabel)]
  }

  /** Relabelling changes the sub label of every entry and nothing else. */
  lemma {:induction false} RelabelledEntries(entries: seq<Entry>, subLabel: JSON)
    ensures forall i :: 0 <= i < |entries| ==>
              var e := Relabelled(entries, subLabel)[i];
              && e.data.subLabel == subLabel
              && e == entries[i].(data := e.data) && e.data == entries[i].data.(subLabel := subLabel)
    decreases |entries|
  {
    if entries != [] {
      RelabelledEntries(entries[..|entries| - 1], subLabel);
    }
  }

  /** A changed sub label is copied into the cached entries of the event, when it has any. */
  function Relabel(s: Store, prev: Option<ObjectState>, data: ObjectState): Store {
    if prev.Some? && prev.value.subLabel != data.subLabel && data.id in s.cache then
      Store(s.cache[data.id := Relabelled(s.cache[data.id], data.subLabel)], s.table)
    else s
  }

  // ------------------------------------------------------------- entry rules

  /** The entry every tracked-object entry starts from, with its class. */
  function BaseEntry(camera: string, data: ObjectState, toRelative: (string, JSON) -> JSON, classType: string): Entry {
    Entry(classType, data.frameTime, camera, "tracked_object", data.id,
          Tracked(toRelative(camera, data.box), data.objectLabel, data.subLabel, toRelative(camera, data.region),
                  "", data.score, None, None))
  }

  /** The zone set changed. */
  predicate ZonesChanged(prev: ObjectState, data: ObjectState) {
    (set z | z in prev.currentZones) != (set z | z in data.currentZones)
  }

  /** An "entered_zone" entry is due: the zones changed, the object moves and is in some zone. */
  predicate EntersZone(prev: ObjectState, data: ObjectState) {
    ZonesChanged(prev, data) && !data.stationary && data.currentZones != []
  }

  /** An "attribute" entry is due: the object had no attributes and now has some. */
  predicate GainsAttribute(prev: ObjectState, data: ObjectState) {
    prev.attributes == [] && data.attributes != []
  }

  /** The "entered_zone" entry of an update, listing the current zones, when due. */
  function ZoneEntries(camera: string, prev: ObjectState, data: ObjectState, toRelative: (string, JSON) -> JSON): seq<Entry> {
    var base := BaseEntry(camera, data, toRelative, "entered_zone");
    if EntersZone(prev, data) then [base.(data := base.data.(zones := Some(data.currentZones)))] else []
  }

  /** The "stationary" or "active" entry of an update, when the flag flipped. */
  function FlipEntries(camera: string, prev: ObjectState, data: ObjectState, toRelative: (string, JSON) -> JSON): seq<Entry> {
    if prev.stationary != data.stationary then [BaseEntry(camera, data, toRelative, if data.stationary then "stationary" else "active")]
    else []
  }

  /** The "attribute" entry of an update, naming the first attribute and the first current attribute's box. */
  function AttributeEntries(camera: string, prev: ObjectState, data: ObjectState, toRelative: (string, JSON) -> JSON): seq<Entry> {
    if GainsAttribute(prev, data) then
      var base := BaseEntry(camera, data, toRelative, "attribute");
      var attributeBox := if data.attributeBoxes != [] then Some(toRelative(camera, data.attributeBoxes[0])) else None;
      [base.(data := base.data.(attribute := data.attributes[0], attributeBox := attributeBox))]
    else []
  }

  /** The entries an update produces: zone, then stationary flip, then first attribute. */
  function UpdateEntries(camera: string, prev: ObjectState, data: ObjectState, toRelative: (string, JSON) -> JSON): seq<Entry> {
    ZoneEntries(camera, prev, data, toRelative) + FlipEntries(camera, prev, data, toRelative)
    + AttributeEntries(camera, prev, data, toRelative)
  }

  /** Where a class of update entry goes in the order. */
  function Rank(classType: string): int {
    if classType == "entered_zone" then 0 else if classType == "attribute" then 2 else 1
  }

  /** Some entry has the class. */
  predicate HasClass(entries: seq<Entry>, classType: string) {
    exists i :: 0 <= i < |entries| && entries[i].classType == classType
  }

  lemma HasClassConcat(a: seq<Entry>, b: seq<Entry>, c: string)
    ensures HasClass(a + b, c) <==> HasClass(a, c) || HasClass(b, c)
  {
    if HasClass(a + b, c) {
      var i :| 0 <= i < |a + b| && (a + b)[i].classType == c;
      if i >= |a| {
        assert b[i - |a|] == (a + b)[i];
      }
    }
    if HasClass(a, c) {
      var i :| 0 <= i < |a| && a[i].classType == c;
      assert (a + b)[i] == a[i];
    }
    if HasClass(b, c) {
      var i :| 0 <= i < |b| && b[i].classType == c;
      assert (a + b)[|a| + i] == b[i];
    }
  }

  lemma HasClassOne(e: Entry, c: string)
    ensures HasClass([e], c) <==> e.classType == c
  {
    if e.classType == c {
      assert [e][0] == e;
    }
  }

  /** The four classes an update can produce are different strings. */
  lemma UpdateClassesDistinct()
    ensures "entered_zone" != "stationary" && "entered_zone" != "active" && "entered_zone" != "attribute"
    ensures "stationary" != "active" && "stationary" != "attribute" && "active" != "attribute"
  {
    assert "entered_zone"[0] == 'e' && "stationary"[0] == 's' && "active"[0] == 'a' && "attribute"[0] == 'a';
    assert "active"[1] == 'c' && "attribute"[1] == 't';
  }

  /**
   * An update produces "entered_zone" exactly when the zones changed while
   * the object moves and is in a zone; "stationary" or "active" exactly
   * when the stationary flag flipped, naming the new state; and
   * "attribute" exactly when attributes first appear.
   */
  lemma UpdateEntryClasses(camera: string, prev: ObjectState, data: ObjectState, toRelative: (string, JSON) -> JSON)
    ensures var es := UpdateEntries(camera, prev, data, toRelative);
            && (HasClass(es, "entered_zone") <==> EntersZone(prev, data))
            && (HasClass(es, "stationary") <==> !prev.stationary && data.stationary)
            && (HasClass(es, "active") <==> prev.stationary && !data.stationary)
            && (HasClass(es, "attribute") <==> GainsAttribute(prev, data))
  {
    var zs := ZoneEntries(camera, prev, data, toRelative);
    var fs := FlipEntries(camera, prev, data, toRelative);
    var ats := AttributeEntries(camera, prev, data, toRelative);
    UpdateClassesDistinct();
    forall c | c in ["entered_zone", "stationary", "active", "attribute"]
      ensures HasClass(zs + fs + ats, c) <==> HasClass(zs, c) || HasClass(fs, c) || HasClass(ats, c)
      ensures zs != [] ==> (HasClass(zs, c) <==> zs[0].classType == c)
      ensures fs != [] ==> (HasClass(fs, c) <==> fs[0].classType == c)
      ensures ats != [] ==> (HasClass(ats, c) <==> ats[0].classType == c)
    {
      HasClassConcat(zs, fs, c);
      HasClassConcat(zs + fs, ats, c);
      if zs != [] { HasClassOne(zs[0], c); assert zs == [zs[0]]; }
      if fs != [] { HasClassOne(fs[0], c); assert fs == [fs[0]]; }
      if ats != [] { HasClassOne(ats[0], c); assert ats == [ats[0]]; }
    }
  }

  /**
   * An update's entries all belong to the object's event, are in the order
   * zone, stationary flip, attribute, and an attribute entry names the
   * first attribute.
   */
  lemma UpdateEntryOrder(camera: string, prev: ObjectState, data: ObjectState, toRelative: (string, JSON) -> JSON)
    ensures var es := UpdateEntries(camera, prev, data, toRelative);
            && |es| <= 3
            && AllOf(es, data.id)
            && (forall i :: 0 <= i < |es| && es[i].classType == "attribute" ==> es[i].data.attribute == data.attributes[0])
            && (forall i, j :: 0 <= i < j < |es| ==> Rank(es[i].classType) < Rank(es[j].classType))
  {
    var zs := ZoneEntries(camera, prev, data, toRelative);
    var fs := FlipEntries(camera, prev, data, toRelative);
    var ats := AttributeEntries(camera, prev, data, toRelative);
    var es := zs + fs + ats;
    UpdateClassesDistinct();
    assert forall i :: 0 <= i < |es| ==> Rank(es[i].classType) == (if i < |zs| then 0 else if i < |zs| + |fs| then 1 else 2);
  }

  /** The entries a tracked-object message produces: "visible" on start, the update rules, "gone" on end. */
  function Produced(camera: string, eventType: string, prev: Option<ObjectState>, data: ObjectState,
                    toRelative: (string, JSON) -> JSON): seq<Entry>
    requires eventType == EventUpdate ==> prev.Some?
  {
    if eventType == EventStart then [BaseEntry(camera, data, toRelative, "visible")]
    else if eventType == EventUpdate then UpdateEntries(camera, prev.value, data, toRelative)
    else if eventType == EventEnd then [BaseEntry(camera, data, toRelative, "gone")]
    else []
  }

  /** `handle_object_detection` on the state: relabel the cache, then save what the message produces. */
  function Detect(s: Store, camera: string, eventType: string, prev: Option<ObjectState>, data: ObjectState,
                  toRelative: (string, JSON) -> JSON): Store
    requires eventType == EventUpdate ==> prev.Some?
  {
    SaveAll(Relabel(s, prev, data), Produced(camera, eventType, prev, data, toRelative), EventSaved(data))
  }

  /**
   * For an unsaved event, a message writes nothing and leaves the event's
   * cache as its earlier entries, relabelled to the new sub label when it
   * changed, followed by the new ones. For a saved event, those earlier
   * entries are written first, then the new ones, and the cache is cleared.
   */
  lemma DetectEffect(s: Store, camera: string, eventType: string, prev: Option<ObjectState>, data: ObjectState,
                     toRelative: (string, JSON) -> JSON)
    requires eventType == EventUpdate ==> prev.Some?
    ensures var produced := Produced(camera, eventType, prev, data, toRelative);
            var earlier := CachedFor(Relabel(s, prev, data).cache, data.id);
            var r := Detect(s, camera, eventType, prev, data, toRelative);
            && r.cache - {data.id} == s.cache - {data.id}
            && (!EventSaved(data) ==> r.table == s.table && (produced != [] ==> r.cache[data.id] == earlier + produced))
            && (EventSaved(data) && produced != [] ==> r.table == s.table + earlier + produced && data.id !in r.cache)
  {
    var produced := Produced(camera, eventType, prev, data, toRelative);
    if eventType == EventUpdate {
      UpdateEntryOrder(camera, prev.value, data, toRelative);
    }
    assert AllOf(produced, data.id);
    var s1 := Relabel(s, prev, data);
    assert s1.cache - {data.id} == s.cache - {data.id};
    if EventSaved(data) {
      if produced != [] {
        SaveAllFlushed(s1, produced, data.id);
      }
    } else {
      SaveAllPending(s1, produced, data.id);
    }
  }

  // ------------------------------------------------------------- API entries

  /** `handle_api_entry`'s entry: "heard" from audio for an audio event, otherwise "external" from the API. */
  function ApiEntry(camera: string, event: ApiEvent): (e: Entry)
    ensures event.kind == Some("audio") ==> e.classType == "heard" && e.source == "audio"
    ensures event.kind != Some("audio") ==> e.classType == "external" && e.source == "api"
    ensures e.sourceId == event.id && e.camera == camera && e.timestamp == event.startTime
    ensures e.data == External(event.objectLabel, event.subLabel)
  {
    var audio := event.kind.GetOr("api") == "audio";
    Entry(if audio then "heard" else "external", event.startTime, camera, if audio then "audio" else "api",
          event.id, External(event.objectLabel, event.subLabel))
  }

  /** The queue loop's handling of one message; `run` skips a non-start tracked-object message without previous data. */
  function Step(s: Store, m: Message, toRelative: (string, JSON) -> JSON): Store {
    match m
    case TrackedObject(camera, eventType, prev, data) =>
      if eventType != EventStart && prev.None? then s else Detect(s, camera, eventType, prev, data, toRelative)
    case Api(camera, eventType, event) =>
      if eventType != EventStart then s else Store(s.cache, s.table + [ApiEntry(camera, event)])
    case OtherInput => s
  }

  /** The messages handled in queue order. */
  function RunAll(s: Store, messages: seq<Message>, toRelative: (string, JSON) -> JSON): Store {
    if messages == [] then s else Step(RunAll(s, messages[..|messages| - 1], toRelative), messages[|messages| - 1], toRelative)
  }

  /** The Timeline table is append-only: whatever the messages, every written entry stays, in place. */
  lemma {:induction false} TableAppendOnly(s: Store, messages: seq<Message>, toRelative: (string, JSON) -> JSON)
    ensures s.table <= RunAll(s, messages, toRelative).table
    decreases |messages|
  {
    if messages != [] {
      var before := RunAll(s, messages[..|messages| - 1], toRelative);
      TableAppendOnly(s, messages[..|messages| - 1], toRelative);
      var m := messages[|messages| - 1];
      if m.TrackedObject? && !(m.eventType != EventStart && m.prev.None?) {
        var s1 := Relabel(before, m.prev, m.data);
        SaveAllGrows(s1, Produced(m.camera, m.eventType, m.prev, m.data, toRelative), EventSaved(m.data));
      }
    }
  }

  /** API messages never touch the cache, and write exactly one entry on start and none otherwise. */
  lemma ApiBypassesCache(s: Store, camera: string, eventType: string, event: ApiEvent, toRelative: (string, JSON) -> JSON)
    ensures var r := Step(s, Api(camera, eventType, event), toRelative);
            && r.cache == s.cache
            && |r.table| == |s.table| + (if eventType == EventStart then 1 else 0)
  {
  }

  // ------------------------------------------------------------- processor

  /** `TimelineProcessor`: its pending cache and the Timeline table it writes. */
  class TimelineProcessor {
    var preEventCache: map<string, seq<Entry>>
    var timeline: seq<Entry>

    constructor ()
      ensures preEventCache == map[] && timeline == []
    {
      preEventCache := map[];
      timeline := [];
    }

    function State(): Store
      reads this
    {
      Store(preEventCache, timeline)
    }

    /** `insert_or_save`. */
    method InsertOrSave(entry: Entry, eventData: ObjectState)
      modifies this
      ensures State() == Save(old(State()), entry, EventSaved(eventData))
    {
      var id := entry.sourceId;
      if !eventData.hasClip && !eventData.hasSnapshot {
        if id in preEventCache {
          preEventCache := preEventCache[id := preEventCache[id] + [entry]];
        } else {
          assert CachedFor(preEventCache, id) + [entry] == [entry];
          preEventCache := preEventCache[id := [entry]];
        }
      } else {
        if id in preEventCache {
          var cached := preEventCache[id];
          for i := 0 to |cached|
            invariant timeline == old(timeline) + cached[..i]
            invariant preEventCache == old(preEventCache)
          {
            timeline := timeline + [cached[i]];
          }
          assert cached[..|cached|] == cached;
          preEventCache := preEventCache - {id};
        } else {
          assert preEventCache - {id} == preEventCache;
        }
        timeline := timeline + [entry];
      }
    }

    /** The loop that saves the entries of one message in order. */
    method SaveEntries(entries: seq<Entry>, eventData: ObjectState)
      modifies this
      ensures State() == SaveAll(old(State()), entries, EventSaved(eventData))
    {
      for i := 0 to |entries|
        invariant State() == SaveAll(old(State()), entries[..i], EventSaved(eventData))
      {
        assert entries[..i + 1][..i] == entries[..i];
        InsertOrSave(entries[i], eventData);
      }
      assert entries[..|entries|] == entries;
    }

    /** The loop writing the new sub label into each cached entry. */
    static method RelabelEntries(cached: seq<Entry>, subLabel: JSON) returns (relabelled: seq<Entry>)
      ensures relabelled == Relabelled(cached, subLabel)
    {
      relabelled := [];
      for i := 0 to |cached|
        invariant relabelled == Relabelled(cached[..i], subLabel)
      {
        assert cached[..i + 1][..i] == cached[..i];
        relabelled := relabelled + [WithSubLabel(cached[i], subLabel)];
      }
      assert cached[..|cached|] == cached;
    }

    /** `entries_to_save` of an update, built check by check. */
    static method EntriesToSave(camera: string, prev: ObjectState, data: ObjectState, toRelative: (string, JSON) -> JSON)
      returns (entries: seq<Entry>)
      ensures entries == UpdateEntries(camera, prev, data, toRelative)
    {
      entries := [];
      if ZonesChanged(prev, data) && !data.stationary && |data.currentZones| > 0 {
        var zone := BaseEntry(camera, data, toRelative, "entered_zone");
        entries := entries + [zone.(data := zone.data.(zones := Some(data.currentZones)))];
      }
      if prev.stationary != data.stationary {
        entries := entries + [BaseEntry(camera, data, toRelative, if data.stationary then "stationary" else "active")];
      }
      if prev.attributes == [] && data.attributes != [] {
        var attribute := BaseEntry(camera, data, toRelative, "attribute");
        var attributeBox := if |data.attributeBoxes| > 0 then Some(toRelative(camera, data.attributeBoxes[0])) else None;
        entries := entries + [attribute.(data := attribute.data.(attribute := data.attributes[0], attributeBox := attributeBox))];
      }
    }

    /** `handle_object_detection`. */
    method HandleObjectDetection(camera: string, eventType: string, prev: Option<ObjectState>, data: ObjectState,
                                 toRelative: (string, JSON) -> JSON)
      requires eventType == EventUpdate ==> prev.Some?
      modifies this
      ensures State() == Detect(old(State()), camera, eventType, prev, data, toRelative)
    {
      if prev.Some? && prev.value.subLabel != data.subLabel && data.id in preEventCache {
        var relabelled := RelabelEntries(preEventCache[data.id], data.subLabel);
        preEventCache := preEventCache[data.id := relabelled];
      }
      var entries: seq<Entry> := [];
      if eventType == EventStart {
        entries := [BaseEntry(camera, data, toRelative, "visible")];
      } else if eventType == EventUpdate {
        entries := EntriesToSave(camera, prev.value, data, toRelative);
      } else if eventType == EventEnd {
        entries := [BaseEntry(camera, data, toRelative, "gone")];
      }
      assert entries == Produced(camera, eventType, prev, data, toRelative);
      SaveEntries(entries, data);
    }

    /** `handle_api_entry`: true when an entry was written. */
    method HandleApiEntry(camera: string, eventType: string, event: ApiEvent) returns (written: bool)
      modifies this
      ensures preEventCache == old(preEventCache)
      ensures timeline == old(timeline) + (if eventType == EventStart then [ApiEntry(camera, event)] else [])
      ensures written <==> eventType == EventStart
    {
      if eventType != EventStart {
        return false;
      }
      timeline := timeline + [ApiEntry(camera, event)];
      written := true;
    }

    /** `run`: the queue's messages handled in order until it is exhausted. */
    method Run(messages: seq<Message>, toRelative: (string, JSON) -> JSON)
      modifies this
      ensures State() == RunAll(old(State()), messages, toRelative)
    {
      for i := 0 to |messages|
        invariant State() == RunAll(old(State()), messages[..i], toRelative)
      {
        assert messages[..i + 1][..i] == messages[..i];
        var m := messages[i];
        match m
        case TrackedObject(camera, eventType, prev, data) =>
          if eventType != EventStart && prev.None? {
            continue;
          }
          HandleObjectDetection(camera, eventType, prev, data, toRelative);
        case Api(camera, eventType, event) =>
          var _ := HandleApiEntry(camera, eventType, event);
        case OtherInput =>
      }
      assert messages[..|messages|] == messages;
    }
  }
}
