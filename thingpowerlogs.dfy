/**
 * The power log of a set of things: entries fetched from the server arrive
 * sorted by timestamp and are appended to the list in batches of one
 * timestamp each; live notifications are collected in a cache and appended
 * once the timestamp moves on or the cache timer fires; the latest
 * one-minute sample of each thing is kept as its live entry.  Timestamps are
 * whole seconds and the three power values are carried along uninterpreted.
 */
module PowerLogs {
  import opened Common

  /** A thing id: the string the server sent, compared as it is (QUuid's parsing is not modelled). */
  type Uuid = string

  /** `ThingPowerLogEntry`. */
  datatype Entry = Entry(timestamp: int, thingId: Uuid, currentPower: Value, totalConsumption: Value, totalProduction: Value)

  /** Signals of the log model other than the batches it appends. */
  datatype Signal = ThingIdsChanged | LiveEntryChanged(entry: Entry)

  /** `unpack`: an entry read from its map. */
  function Unpack(m: Document): (e: Entry)
    ensures e.thingId == AsString(Get(m, "thingId")) && e.timestamp == AsInt(Get(m, "timestamp"))
  {
    Entry(AsInt(Get(m, "timestamp")), AsString(Get(m, "thingId")),
          Get(m, "currentPower"), Get(m, "totalConsumption"), Get(m, "totalProduction"))
  }

  function Unpacked(vs: seq<Value>): (es: seq<Entry>)
    ensures |es| == |vs|
    ensures forall k :: 0 <= k < |vs| ==> es[k] == Unpack(AsDocument(vs[k]))
  {
    seq(|vs|, k requires 0 <= k < |vs| => Unpack(AsDocument(vs[k])))
  }

  /** `QMetaEnum::keyToValue` over `EnergyLogs::SampleRate`: minutes per sample, -1 for an unknown name. */
  function SampleRateOf(name: string): (minutes: int)
    ensures minutes == -1 || minutes in {1, 15, 60, 180, 1440, 10080, 43200, 525600}
  {
    if name == "SampleRate1Min" then 1
    else if name == "SampleRate15Mins" then 15
    else if name == "SampleRate1Hour" then 60
    else if name == "SampleRate3Hours" then 180
    else if name == "SampleRate1Day" then 1440
    else if name == "SampleRate1Week" then 10080
    else if name == "SampleRate1Month" then 43200
    else if name == "SampleRate1Year" then 525600
    else -1
  }

  /** The default sample rate of a log, fifteen minutes. */
  const DefaultSampleRate: int := 15

  predicate SameTimestamp(batch: seq<Entry>)
  {
    forall j :: 0 <= j < |batch| ==> batch[j].timestamp == batch[0].timestamp
  }

  /** Live entries are filed under their own thing. */
  predicate LiveKeyed(live: map<Uuid, Entry>)
  {
    forall k :: k in live ==> live[k].thingId == k
  }

  function Flatten(batches: seq<seq<Entry>>): seq<Entry>
  {
    if batches == [] then [] else Flatten(batches[..|batches| - 1]) + batches[|batches| - 1]
  }

  /**
   * The grouping loop of `logEntriesReceived` after the entries `es`: the
   * batches already closed and the group still open.  An entry joins the open
   * group when it is empty or its first entry has the same timestamp, and
   * otherwise closes it and opens a new one.
   */
  function Grouping(es: seq<Entry>): (g: (seq<seq<Entry>>, seq<Entry>))
    ensures g.1 == [] <==> es == []
    decreases |es|
  {
    if es == [] then ([], [])
    else
      var g := Grouping(es[..|es| - 1]);
      var e := es[|es| - 1];
      if g.1 == [] || g.1[0].timestamp == e.timestamp then (g.0, g.1 + [e])
      else (g.0 + [g.1], [e])
  }

  /** The batches `logEntriesReceived` appends for the entries `es`. */
  function Batches(es: seq<Entry>): (bs: seq<seq<Entry>>)
    ensures bs == [] <==> es == []
  {
    var g := Grouping(es);
    if g.1 == [] then g.0 else g.0 + [g.1]
  }

  /** Batches are non-empty, each of one timestamp, and neighbours differ in timestamp. */
  predicate WellBatched(batches: seq<seq<Entry>>)
  {
    && (forall i :: 0 <= i < |batches| ==> batches[i] != [] && SameTimestamp(batches[i]))
    && (forall i :: 0 < i < |batches| ==> batches[i - 1][0].timestamp != batches[i][0].timestamp)
  }

  lemma FlattenAppend(batches: seq<seq<Entry>>, batch: seq<Entry>)
    ensures Flatten(batches + [batch]) == Flatten(batches) + batch
  {
    assert (batches + [batch])[..|batches|] == batches;
  }

  lemma WellBatchedAppend(batches: seq<seq<Entry>>, batch: seq<Entry>)
    requires WellBatched(batches)
    requires batch != [] && SameTimestamp(batch)
    requires batches != [] ==> batches[|batches| - 1][0].timestamp != batch[0].timestamp
    ensures WellBatched(batches + [batch])
  {
    var bs := batches + [batch];
    assert forall i :: 0 <= i < |batches| ==> bs[i] == batches[i];
  }

  /** One more entry in the grouping loop. */
  lemma GroupingNext(es: seq<Entry>, n: nat)
    requires n < |es|
    ensures var g := Grouping(es[..n]);
      var e := es[n];
      var next := Grouping(es[..n + 1]);
      && (g.1 == [] || g.1[0].timestamp == e.timestamp ==> next.0 == g.0 && next.1 == g.1 + [e])
      && (g.1 != [] && g.1[0].timestamp != e.timestamp ==> next.0 == g.0 + [g.1] && next.1 == [e])
  {
    assert es[..n + 1][..n] == es[..n];
  }

  /** The closed batches followed by the open group are the entries so far. */
  lemma {:induction false} GroupingKeepsEntries(es: seq<Entry>)
    ensures var g := Grouping(es);
      Flatten(g.0) + g.1 == es && (g.1 == [] <==> es == [])
    decreases |es|
  {
    if es != [] {
      var init := es[..|es| - 1];
      var e := es[|es| - 1];
      GroupingKeepsEntries(init);
      var g := Grouping(init);
      assert es == init + [e];
      if g.1 == [] || g.1[0].timestamp == e.timestamp {
        Reassociate(Flatten(g.0), g.1, [e]);
      } else {
        FlattenAppend(g.0, g.1);
      }
    }
  }

  /** The closed batches are well formed, the open group holds one timestamp and differs from the last batch. */
  lemma {:induction false} GroupingInvariant(es: seq<Entry>)
    ensures var g := Grouping(es);
      && WellBatched(g.0)
      && SameTimestamp(g.1)
      && (g.1 == [] <==> es == [])
      && (g.0 != [] && g.1 != [] ==> g.0[|g.0| - 1][0].timestamp != g.1[0].timestamp)
    decreases |es|
  {
    if es != [] {
      var init := es[..|es| - 1];
      var e := es[|es| - 1];
      GroupingInvariant(init);
      var g := Grouping(init);
      if g.1 == [] || g.1[0].timestamp == e.timestamp {
        assert SameTimestamp(g.1 + [e]);
      } else {
        WellBatchedAppend(g.0, g.1);
      }
    }
  }

  /**
   * Grouping fetched entries loses and reorders nothing, every batch holds
   * one timestamp, and two consecutive batches hold different timestamps.
   */
  lemma BatchesPartition(es: seq<Entry>)
    ensures Flatten(Batches(es)) == es
    ensures WellBatched(Batches(es))
  {
    GroupingKeepsEntries(es);
    GroupingInvariant(es);
    var g := Grouping(es);
    if g.1 != [] {
      FlattenAppend(g.0, g.1);
      WellBatchedAppend(g.0, g.1);
    } else {
      assert Flatten(g.0) + [] == Flatten(g.0);
    }
  }

  /** The things the entries `es` belong to. */
  function ThingsOf(es: seq<Entry>): set<Uuid>
  {
    set e | e in es :: e.thingId
  }

  /** The live entries after `es` arrived one after the other: each replaces its thing's previous one. */
  function LiveAfter(live: map<Uuid, Entry>, es: seq<Entry>): (r: map<Uuid, Entry>)
    ensures LiveKeyed(live) ==> LiveKeyed(r)
    ensures r.Keys == live.Keys + ThingsOf(es)
    decreases |es|
  {
    if es == [] then live
    else
      var init := es[..|es| - 1];
      var e := es[|es| - 1];
      assert es == init + [e];
      assert ThingsOf(es) == ThingsOf(init) + {e.thingId};
      LiveAfter(live, init)[e.thingId := e]
  }

  /** A thing's live entry is the last of its entries that arrived, if any did. */
  lemma {:induction false} LiveAfterLatest(live: map<Uuid, Entry>, es: seq<Entry>, j: nat)
    requires j < |es|
    requires forall k :: j < k < |es| ==> es[k].thingId != es[j].thingId
    ensures es[j].thingId in LiveAfter(live, es) && LiveAfter(live, es)[es[j].thingId] == es[j]
    decreases |es|
  {
    if j < |es| - 1 {
      var init := es[..|es| - 1];
      assert init[j] == es[j];
      LiveAfterLatest(live, init, j);
    }
  }

  function Announced(es: seq<Entry>): (signals: seq<Signal>)
    ensures |signals| == |es|
    ensures forall k :: 0 <= k < |es| ==> signals[k] == LiveEntryChanged(es[k])
  {
    seq(|es|, k requires 0 <= k < |es| => LiveEntryChanged(es[k]))
  }

  lemma AnnouncedAppend(es: seq<Entry>, e: Entry)
    ensures Announced(es + [e]) == Announced(es) + [LiveEntryChanged(e)]
  {
    assert Announced(es + [e])[..|es|] == Announced(es);
  }

  lemma LiveAfterAppend(live: map<Uuid, Entry>, es: seq<Entry>, e: Entry)
    ensures LiveAfter(live, es + [e]) == LiveAfter(live, es)[e.thingId := e]
  {
    assert (es + [e])[..|es|] == es;
  }

  /**
   * The backward search of `find` stops at the first entry of the thing
   * (seen from the end) that is not later than `timestamp`, and answers it
   * when the timestamps are equal.
   */
  predicate FoundAt(list: seq<Entry>, thingId: Uuid, timestamp: int, i: nat)
  {
    && i < |list| && list[i].thingId == thingId && list[i].timestamp == timestamp
    && forall j :: i < j < |list| && list[j].thingId == thingId ==> list[j].timestamp > timestamp
  }

  /** A later entry of the thing with an earlier timestamp ends the backward search before position `i`. */
  predicate Shadowed(list: seq<Entry>, thingId: Uuid, timestamp: int, i: nat)
  {
    exists j :: i < j < |list| && list[j].thingId == thingId && list[j].timestamp < timestamp
  }

  /** The entries of each thing are in increasing timestamp order. */
  predicate SortedPerThing(list: seq<Entry>)
  {
    forall i, j :: 0 <= i < j < |list| && list[i].thingId == list[j].thingId ==> list[i].timestamp <= list[j].timestamp
  }

  class ThingPowerLogs {
    var thingIds: seq<Uuid>
    var sampleRate: int
    /** `m_list`: what `appendEntries` appended, in order. */
    var list: seq<Entry>
    /** The batches handed to `appendEntries`, in order. */
    var batches: seq<seq<Entry>>
    var cachedEntries: seq<Entry>
    var liveEntries: map<Uuid, Entry>
    var cacheTimerRunning: bool
    var signals: seq<Signal>

    ghost predicate Valid()
      reads this
    {
      SameTimestamp(cachedEntries) && LiveKeyed(liveEntries)
    }

    constructor()
      ensures Valid()
      ensures thingIds == [] && sampleRate == DefaultSampleRate && list == [] && batches == []
      ensures cachedEntries == [] && liveEntries == map[] && !cacheTimerRunning && signals == []
    {
      thingIds := [];
      sampleRate := DefaultSampleRate;
      list := [];
      batches := [];
      cachedEntries := [];
      liveEntries := map[];
      cacheTimerRunning := false;
      signals := [];
    }

    /** `addEntries`: one batch appended to the list. */
    method AddEntries(batch: seq<Entry>)
      modifies this`list, this`batches
      ensures list == old(list) + batch && batches == old(batches) + [batch]
    {
      list := list + batch;
      batches := batches + [batch];
    }

    /** `setThingIds`: only a different list is taken, and announced once. */
    method SetThingIds(ids: seq<Uuid>)
      modifies this`thingIds, this`signals
      ensures thingIds == ids
      ensures signals == old(signals) + (if old(thingIds) != ids then [ThingIdsChanged] else [])
    {
      if thingIds != ids {
        thingIds := ids;
        signals := signals + [ThingIdsChanged];
      }
    }

    /** The current entries of `logEntriesReceived`: each becomes its thing's live entry. */
    method TakeLiveEntries(current: seq<Value>)
      requires LiveKeyed(liveEntries)
      modifies this`liveEntries, this`signals
      ensures LiveKeyed(liveEntries)
      ensures liveEntries == LiveAfter(old(liveEntries), Unpacked(current))
      ensures signals == old(signals) + Announced(Unpacked(current))
    {
      ghost var es := Unpacked(current);
      var i := 0;
      while i < |current|
        invariant 0 <= i <= |current|
        invariant liveEntries == LiveAfter(old(liveEntries), es[..i])
        invariant signals == old(signals) + Announced(es[..i])
        invariant LiveKeyed(liveEntries)
      {
        var entry := Unpack(AsDocument(current[i]));
        assert es[..i + 1] == es[..i] + [entry];
        AnnouncedAppend(es[..i], entry);
        LiveAfterAppend(old(liveEntries), es[..i], entry);
        liveEntries := liveEntries[entry.thingId := entry];
        signals := signals + [LiveEntryChanged(entry)];
        i := i + 1;
      }
      assert es[..i] == es;
    }

    /** The log entries of `logEntriesReceived`: appended one batch per run of equal timestamps. */
    method AppendGrouped(logged: seq<Value>)
      modifies this`list, this`batches
      ensures list == old(list) + Unpacked(logged) && batches == old(batches) + Batches(Unpacked(logged))
    {
      ghost var es := Unpacked(logged);
      var group: seq<Entry> := [];
      var n := 0;
      while n < |logged|
        invariant 0 <= n <= |logged|
        invariant batches == old(batches) + Grouping(es[..n]).0
        invariant group == Grouping(es[..n]).1
        invariant list == old(list) + Flatten(Grouping(es[..n]).0)
      {
        var entry := Unpack(AsDocument(logged[n]));
        GroupingNext(es, n);
        ghost var closed := Grouping(es[..n]).0;
        if group == [] || group[0].timestamp == entry.timestamp {
          group := group + [entry];
        } else {
          FlattenAppend(closed, group);
          Reassociate(old(list), Flatten(closed), group);
          AddEntries(group);
          group := [entry];
        }
        n := n + 1;
      }
      assert es[..n] == es;
      FlushGroup(es, old(list), old(batches), group);
    }

    /** The end of the grouping loop: the group still open becomes the last batch. */
    method FlushGroup(ghost es: seq<Entry>, ghost list0: seq<Entry>, ghost batches0: seq<seq<Entry>>, group: seq<Entry>)
      requires group == Grouping(es).1
      requires list == list0 + Flatten(Grouping(es).0) && batches == batches0 + Grouping(es).0
      modifies this`list, this`batches
      ensures list == list0 + es && batches == batches0 + Batches(es)
    {
      ghost var g := Grouping(es);
      GroupingKeepsEntries(es);
      if group != [] {
        AddEntries(group);
        Reassociate(list0, Flatten(g.0), group);
        Reassociate(batches0, g.0, [group]);
      } else {
        assert Flatten(g.0) + [] == Flatten(g.0);
      }
    }

    /**
     * `logEntriesReceived`: the current entries become the live entries of
     * their things, then the log entries are appended, one batch per run of
     * equal timestamps.
     */
    method LogEntriesReceived(params: Document)
      requires Valid()
      modifies this`liveEntries, this`signals, this`list, this`batches
      ensures Valid()
      ensures var current := Unpacked(AsList(Get(params, "currentEntries")));
        liveEntries == LiveAfter(old(liveEntries), current) && signals == old(signals) + Announced(current)
      ensures var es := Unpacked(AsList(Get(params, "thingPowerLogEntries")));
        list == old(list) + es && batches == old(batches) + Batches(es)
    {
      TakeLiveEntries(AsList(Get(params, "currentEntries")));
      AppendGrouped(AsList(Get(params, "thingPowerLogEntries")));
    }

    /**
     * `notificationReceived`: a sample of a thing the log does not watch is
     * ignored; a one-minute sample becomes its thing's live entry; a sample
     * at the log's own rate that announces a new entry is cached, and an
     * entry with another timestamp than the cached ones first flushes them
     * as one batch.  The cache timer is (re)started.
     */
    method NotificationReceived(data: Document)
      requires Valid()
      modifies this`liveEntries, this`signals, this`list, this`batches, this`cachedEntries, this`cacheTimerRunning
      ensures Valid()
      ensures var params := AsDocument(Get(data, "params"));
        var entryMap := AsDocument(Get(params, "thingPowerLogEntry"));
        var thingId := AsString(Get(entryMap, "thingId"));
        var rate := SampleRateOf(AsString(Get(params, "sampleRate")));
        var entry := Unpack(entryMap);
        && (old(thingIds) != [] && thingId !in old(thingIds) ==> unchanged(this))
        && (old(thingIds) == [] || thingId in old(thingIds) ==>
              && liveEntries == (if rate == 1 then old(liveEntries)[thingId := entry] else old(liveEntries))
              && signals == old(signals) + (if rate == 1 then [LiveEntryChanged(entry)] else []))
        && (rate != sampleRate || AsString(Get(data, "notification")) != "Energy.ThingPowerLogEntryAdded" ==>
              && list == old(list) && batches == old(batches) && cachedEntries == old(cachedEntries)
              && cacheTimerRunning == old(cacheTimerRunning))
        && ((old(thingIds) == [] || thingId in old(thingIds)) && rate == sampleRate
            && AsString(Get(data, "notification")) == "Energy.ThingPowerLogEntryAdded" ==>
              && cacheTimerRunning
              && (old(cachedEntries) == [] || old(cachedEntries)[0].timestamp == entry.timestamp ==>
                    cachedEntries == old(cachedEntries) + [entry] && list == old(list) && batches == old(batches))
              && (old(cachedEntries) != [] && old(cachedEntries)[0].timestamp != entry.timestamp ==>
                    && cachedEntries == [entry] && list == old(list) + old(cachedEntries)
                    && batches == old(batches) + [old(cachedEntries)]))
    {
      var notification := AsString(Get(data, "notification"));
      var params := AsDocument(Get(data, "params"));
      var rate := SampleRateOf(AsString(Get(params, "sampleRate")));
      var entryMap := AsDocument(Get(params, "thingPowerLogEntry"));
      var thingId := AsString(Get(entryMap, "thingId"));
      if thingIds != [] && thingId !in thingIds {
        return;
      }
      if rate == 1 {
        var live := Unpack(entryMap);
        liveEntries := liveEntries[thingId := live];
        signals := signals + [LiveEntryChanged(live)];
      }
      if rate != sampleRate {
        return;
      }
      // The entry is read from the same map again, so the thing filter the
      // source repeats here cannot reject it.
      if notification == "Energy.ThingPowerLogEntryAdded" {
        var entry := Unpack(entryMap);
        if cachedEntries == [] || entry.timestamp == cachedEntries[0].timestamp {
          cachedEntries := cachedEntries + [entry];
        } else {
          AddEntries(cachedEntries);
          cachedEntries := [entry];
        }
        cacheTimerRunning := true;
      }
    }

    /** The cache timer: a non-empty cache is appended as one batch and emptied. */
    method CacheTimerFired()
      requires Valid()
      modifies this`list, this`batches, this`cachedEntries
      ensures Valid()
      ensures old(cachedEntries) == [] ==> list == old(list) && batches == old(batches) && cachedEntries == []
      ensures old(cachedEntries) != [] ==>
        list == old(list) + old(cachedEntries) && batches == old(batches) + [old(cachedEntries)] && cachedEntries == []
    {
      if |cachedEntries| > 0 {
        AddEntries(cachedEntries);
        cachedEntries := [];
      }
    }

    /**
     * `find`: the list is searched from the end; entries of other things are
     * skipped, an entry of the thing at the timestamp is the answer, and one
     * before the timestamp ends the search with no answer.
     */
    method Find(thingId: Uuid, timestamp: int) returns (r: Option<nat>)
      ensures r.Some? ==> FoundAt(list, thingId, timestamp, r.value)
      ensures r.None? ==> forall i :: 0 <= i < |list| && list[i].thingId == thingId && list[i].timestamp == timestamp ==>
        Shadowed(list, thingId, timestamp, i)
      ensures r.None? && SortedPerThing(list) ==>
        forall i :: 0 <= i < |list| ==> !(list[i].thingId == thingId && list[i].timestamp == timestamp)
    {
      var i := |list| - 1;
      while i >= 0
        invariant -1 <= i < |list|
        invariant forall j :: i < j < |list| && list[j].thingId == thingId ==> list[j].timestamp > timestamp
      {
        var entry := list[i];
        if entry.thingId != thingId {
          i := i - 1;
          continue;
        }
        if timestamp == entry.timestamp {
          return Some(i);
        }
        if timestamp > entry.timestamp {
          return None;
        }
        i := i - 1;
      }
      return None;
    }
  }

  /** Out of order, an entry that is there can be missed: a later, older entry of the thing ends the search. */
  lemma FindMissesUnsorted()
    ensures var list := [Entry(600, "thing", Null, Null, Null), Entry(300, "thing", Null, Null, Null)];
      && !SortedPerThing(list)
      && list[0].thingId == "thing" && list[0].timestamp == 600
      && forall i :: !FoundAt(list, "thing", 600, i)
  {
    var list := [Entry(600, "thing", Null, Null, Null), Entry(300, "thing", Null, Null, Null)];
    assert list[0].thingId == list[1].thingId && list[0].timestamp > list[1].timestamp;
    forall i ensures !FoundAt(list, "thing", 600, i) {
      if i == 0 {
        assert list[1].thingId == "thing" && list[1].timestamp <= 600;
      }
    }
  }
}
