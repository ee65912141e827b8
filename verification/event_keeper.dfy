/**
  The event accumulator of the subscription resolvers: a two-level dict from
  event type ("CONFIG", "CHANGE", ...) to attribute name to the latest value.
  `put` overwrites, so the last value recorded between two drains wins; `get`
  swaps in an empty dict, returns what it swapped out and folds that into a
  `latest` snapshot that is never drained.
*/
module EventKeeping {
  import opened Wrappers
  import opened Dicts

  type Pending<V> = Dict<string, Dict<string, V>>

  /** `events[action][model] = value` on a dict of dicts that creates a missing inner dict. */
  function PutEntry<V>(events: Pending<V>, action: string, model: string, value: V): Pending<V> {
    Set(events, action, Set(GetOrEmpty(events, action), model, value))
  }

  /** `latest[t].update(evs)` on a dict of dicts that creates a missing inner dict. */
  function MergeEntry<V>(latest: Pending<V>, t: string, evs: Dict<string, V>): Pending<V> {
    Set(latest, t, Update(GetOrEmpty(latest, t), evs))
  }

  /** The snapshot after folding every drained entry, in drain order, into `latest`. */
  function MergeAll<V>(latest: Pending<V>, drained: Pending<V>): Pending<V>
    decreases |drained|
  {
    if drained == [] then latest
    else
      var n := |drained| - 1;
      MergeEntry(MergeAll(latest, drained[..n]), drained[n].0, drained[n].1)
  }

  /** Folding one more drained entry is one more `update` of the snapshot. */
  lemma MergeAllStep<V>(latest: Pending<V>, drained: Pending<V>, i: nat)
    requires i < |drained|
    ensures MergeAll(latest, drained[..i + 1]) == MergeEntry(MergeAll(latest, drained[..i]), drained[i].0, drained[i].1)
  {
    assert drained[..i + 1][..i] == drained[..i];
  }

  /** Putting makes the entry for `(action, model)` the new value and leaves every other entry alone. */
  lemma PutEntryLookup<V>(events: Pending<V>, action: string, model: string, value: V, t: string, m: string)
    ensures Get2(PutEntry(events, action, model, value), t, m)
         == if t == action && m == model then Some(value) else Get2(events, t, m)
  {
    var inner := Set(GetOrEmpty(events, action), model, value);
    GetSet(events, action, inner, t);
    if t == action {
      GetSet(GetOrEmpty(events, action), model, value, m);
    }
  }

  lemma PutEntryWellFormed<V>(events: Pending<V>, action: string, model: string, value: V)
    requires WellFormed(events)
    ensures WellFormed(PutEntry(events, action, model, value))
  {
    GetWellFormed(events, action);
    SetDistinct(GetOrEmpty(events, action), model, value);
    SetWellFormed(events, action, Set(GetOrEmpty(events, action), model, value));
  }

  lemma MergeEntryWellFormed<V>(latest: Pending<V>, t: string, evs: Dict<string, V>)
    requires WellFormed(latest)
    ensures WellFormed(MergeEntry(latest, t, evs))
  {
    GetWellFormed(latest, t);
    UpdateDistinct(GetOrEmpty(latest, t), evs);
    SetWellFormed(latest, t, Update(GetOrEmpty(latest, t), evs));
  }

  /**
    After a drain, `latest[t][m]` is the drained value for every drained key,
    and keys that were not drained keep their previous snapshot value.
  */
  lemma {:induction false} MergeAllLookup<V>(latest: Pending<V>, drained: Pending<V>, t: string, m: string)
    requires WellFormed(drained)
    ensures Get2(MergeAll(latest, drained), t, m)
         == if Get2(drained, t, m).Some? then Get2(drained, t, m) else Get2(latest, t, m)
    decreases |drained|
  {
    if drained != [] {
      var n := |drained| - 1;
      var init, t0, evs := drained[..n], drained[n].0, drained[n].1;
      assert drained == init + [(t0, evs)];
      assert WellFormed(init) by {
        assert forall i :: 0 <= i < |init| ==> init[i] == drained[i];
      }
      assert t0 !in Keys(init) by {
        assert forall i :: 0 <= i < |init| ==> Keys(init)[i] == drained[i].0;
      }
      assert DistinctKeys(evs);
      MergeAllLookup(latest, init, t, m);
      var before := MergeAll(latest, init);
      var merged := Update(GetOrEmpty(before, t0), evs);
      GetSet(before, t0, merged, t);
      GetAppend(init, t0, evs, t);
      if t == t0 {
        GetUpdate(GetOrEmpty(before, t0), evs, m);
      }
    }
  }

  lemma {:induction false} MergeAllWellFormed<V>(latest: Pending<V>, drained: Pending<V>)
    requires WellFormed(latest)
    ensures WellFormed(MergeAll(latest, drained))
    decreases |drained|
  {
    if drained != [] {
      var n := |drained| - 1;
      MergeAllWellFormed(latest, drained[..n]);
      MergeEntryWellFormed(MergeAll(latest, drained[..n]), drained[n].0, drained[n].1);
    }
  }

  /** One recorded `put(model, action, value)`. */
  datatype PutCall<V> = PutCall(model: string, action: string, value: V)

  /** The pending dict after the given puts, in order, starting from `events`. */
  function PutAll<V>(events: Pending<V>, puts: seq<PutCall<V>>): Pending<V>
    decreases |puts|
  {
    if puts == [] then events
    else
      var n := |puts| - 1;
      PutEntry(PutAll(events, puts[..n]), puts[n].action, puts[n].model, puts[n].value)
  }

  /** The value of the last put for `(action, model)` among `puts`, if any. */
  function LastPut<V>(puts: seq<PutCall<V>>, action: string, model: string): Option<V>
    decreases |puts|
  {
    if puts == [] then None
    else
      var n := |puts| - 1;
      if puts[n].action == action && puts[n].model == model then Some(puts[n].value)
      else LastPut(puts[..n], action, model)
  }

  /**
    Coalescing: after a drain left the pending dict empty, what the next drain
    returns for `(action, model)` is exactly the last value put for that key
    since, and nothing when there was none. A value overwritten before a drain
    is never returned, and a drained value is never returned again.
  */
  lemma {:induction false} PendingIsLastPut<V>(puts: seq<PutCall<V>>, action: string, model: string)
    ensures Get2(PutAll([], puts), action, model) == LastPut(puts, action, model)
    decreases |puts|
  {
    if puts != [] {
      var n := |puts| - 1;
      PendingIsLastPut(puts[..n], action, model);
      PutEntryLookup(PutAll([], puts[..n]), puts[n].action, puts[n].model, puts[n].value, action, model);
    }
  }

  /**
    The loop of `get`: each drained type's entries, in drain order, are
    merged into that type's dict in the snapshot with `update`.
  */
  method FoldDrained<V>(latest: Pending<V>, drained: Pending<V>) returns (snapshot: Pending<V>)
    requires WellFormed(latest)
    ensures snapshot == MergeAll(latest, drained)
    ensures WellFormed(snapshot)
  {
    snapshot := latest;
    var i := 0;
    while i < |drained|
      invariant 0 <= i <= |drained|
      invariant snapshot == MergeAll(latest, drained[..i])
      invariant WellFormed(snapshot)
    {
      var t, evs := drained[i].0, drained[i].1;
      MergeEntryWellFormed(snapshot, t, evs);
      MergeAllStep(latest, drained, i);
      snapshot := Set(snapshot, t, Update(GetOrEmpty(snapshot, t), evs));
      i := i + 1;
    }
    assert drained[..i] == drained;
  }

  class EventKeeper<V> {
    /** `_events`: what was put since the last drain. */
    var events: Pending<V>
    /** `_timestamps`: when each key was last put; never drained. */
    var timestamps: Pending<real>
    /** `_latest`: every drained value, the most recent per key. */
    var latest: Pending<V>

    ghost predicate Valid()
      reads this
    {
      WellFormed(events) && WellFormed(timestamps) && WellFormed(latest)
    }

    constructor ()
      ensures Valid()
      ensures events == [] && timestamps == [] && latest == []
    {
      events, timestamps, latest := [], [], [];
    }

    /** `put(model, action, value)`, with the clock reading `now` as a parameter. */
    method Put(model: string, action: string, value: V, now: real)
      requires Valid()
      modifies this
      ensures Valid()
      ensures events == PutEntry(old(events), action, model, value)
      ensures timestamps == PutEntry(old(timestamps), action, model, now)
      ensures latest == old(latest)
    {
      PutEntryWellFormed(events, action, model, value);
      PutEntryWellFormed(timestamps, action, model, now);
      var inner := Set(GetOrEmpty(events, action), model, value);
      events := Set(events, action, inner);
      var stamps := Set(GetOrEmpty(timestamps, action), model, now);
      timestamps := Set(timestamps, action, stamps);
    }

    /** `get()`: drains the pending dict and folds what it drained into `latest`. */
    method Get() returns (drained: Pending<V>)
      requires Valid()
      modifies this
      ensures Valid()
      ensures drained == old(events) && WellFormed(drained)
      ensures events == []
      ensures latest == MergeAll(old(latest), drained)
      ensures timestamps == old(timestamps)
    {
      drained, events := events, [];
      latest := FoldDrained(latest, drained);
    }
  }

  /**
    Exactly-once delivery across two drains: whatever was pending before, a
    value just put is returned by the next drain, and a drain right after it
    returns nothing.
  */
  method DeliveredOnce<V>(keeper: EventKeeper<V>, model: string, action: string, v: V, now: real)
    returns (first: Pending<V>, second: Pending<V>)
    requires keeper.Valid()
    modifies keeper
    ensures Get2(first, action, model) == Some(v)
    ensures second == []
  {
    PutEntryLookup(keeper.events, action, model, v, action, model);
    keeper.Put(model, action, v, now);
    first := keeper.Get();
    second := keeper.Get();
  }
}
