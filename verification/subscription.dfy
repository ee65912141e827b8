/**
  The GraphQL subscription resolvers: the change-event resolver's split of
  models into push-subscribed and polled attributes and the order in which a
  round emits events, the batch the config-event resolver builds from a
  drained event accumulator, and the unsubscribe resolvers over the
  module-level listener registries.
*/
module Subscription {
  import opened Wrappers
  import opened Dicts
  import opened Values
  import opened EventKeeping

  // ---------------------------------------------------------------------------
  // Splitting "device/attribute" names

  /** The index of the last '/' among the first `n` characters of `s`, if any. */
  function LastSlashBelow(s: string, n: nat): (r: Option<nat>)
    requires n <= |s|
    ensures r.Some? ==> r.value < n && s[r.value] == '/' && forall j :: r.value < j < n ==> s[j] != '/'
    ensures r.None? ==> forall j :: 0 <= j < n ==> s[j] != '/'
  {
    if n == 0 then None
    else if s[n - 1] == '/' then Some(n - 1)
    else LastSlashBelow(s, n - 1)
  }

  /** The index of the last '/' in `s`, if any. */
  function LastSlash(s: string): (r: Option<nat>)
    ensures r.Some? ==> r.value < |s| && s[r.value] == '/' && '/' !in s[r.value + 1..]
    ensures r.None? ==> '/' !in s
  {
    var r := LastSlashBelow(s, |s|);
    if r.None? then r
    else
      var after := s[r.value + 1..];
      assert forall j :: 0 <= j < |after| ==> after[j] == s[r.value + 1 + j];
      r
  }

  /**
    `s.rsplit('/', 1)` unpacked into two names: the part before the last '/'
    and the part after it. None stands for the ValueError the unpacking
    raises when `s` holds no '/'.
  */
  function RSplitSlash(s: string): (r: Option<(string, string)>)
    ensures r.Some? <==> '/' in s
    ensures r.Some? ==> r.value.0 + "/" + r.value.1 == s && '/' !in r.value.1
  {
    match LastSlash(s)
    case None => None
    case Some(i) =>
      assert s == s[..i] + "/" + s[i + 1..];
      Some((s[..i], s[i + 1..]))
  }

  /** Joining a device and a slash-free name with '/' and splitting at the last '/' gives both back. */
  lemma RSplitJoin(device: string, name: string)
    requires '/' !in name
    ensures RSplitSlash(device + "/" + name) == Some((device, name))
  {
    var s := device + "/" + name;
    LastSlashOfJoin(device, name);
    assert s[..|device|] == device && s[|device| + 1..] == name;
  }

  lemma {:induction false} LastSlashOfJoin(device: string, name: string)
    requires '/' !in name
    ensures LastSlash(device + "/" + name) == Some(|device|)
  {
    var s := device + "/" + name;
    var n := |s|;
    while n > |device| + 1
      invariant |device| + 1 <= n <= |s|
      invariant LastSlashBelow(s, n) == LastSlashBelow(s, |s|)
    {
      assert s[n - 1] == name[n - 1 - |device| - 1];
      n := n - 1;
    }
    assert s[|device|] == '/';
  }


  // ---------------------------------------------------------------------------
  // The config-event batch

  /** The dict a listener records for a configuration event: field name to text. */
  type ConfigValue = map<string, string>

  datatype ConfigData = ConfigData(
    description: string, labelText: string, unit: string,
    format: string, dataFormat: string, dataType: string)

  datatype ConfigEvent = ConfigEvent(eventType: string, device: string, name: string, data: ConfigData)

  /** The exceptions that escape the batch-building loop. */
  datatype BatchError =
    | ValueError(attrName: string)   // the attribute name holds no '/'
    | KeyError(field: string)        // a config value lacks a field

  /** The fields the resolver reads from a config value, in the order it reads them. */
  const ConfigFields: seq<string> := ["description", "label", "unit", "format", "data_format", "data_type"]

  predicate HasAllFields(value: ConfigValue) {
    && "description" in value && "label" in value && "unit" in value
    && "format" in value && "data_format" in value && "data_type" in value
  }

  /** The KeyError raised at the `i`th field read, every earlier field being present. */
  function Missing(value: ConfigValue, i: nat): (r: Result<ConfigData, BatchError>)
    requires i < |ConfigFields| && ConfigFields[i] !in value
    requires forall j :: 0 <= j < i ==> ConfigFields[j] in value
    ensures r.Err? && exists k :: 0 <= k < |ConfigFields| && r.error == KeyError(ConfigFields[k])
                        && ConfigFields[k] !in value && forall j :: 0 <= j < k ==> ConfigFields[j] in value
  {
    Err(KeyError(ConfigFields[i]))
  }

  /** `ConfigData(description=value['description'], ...)`: the first missing field raises KeyError. */
  function MakeConfigData(value: ConfigValue): (r: Result<ConfigData, BatchError>)
    ensures r.Ok? <==> HasAllFields(value)
    ensures r.Ok? ==> r.value == ConfigData(value["description"], value["label"], value["unit"],
                                            value["format"], value["data_format"], value["data_type"])
    ensures r.Err? ==> exists i :: 0 <= i < |ConfigFields| && r.error == KeyError(ConfigFields[i])
                          && ConfigFields[i] !in value && forall j :: 0 <= j < i ==> ConfigFields[j] in value
  {
    if "description" !in value then Missing(value, 0)
    else if "label" !in value then Missing(value, 1)
    else if "unit" !in value then Missing(value, 2)
    else if "format" !in value then Missing(value, 3)
    else if "data_format" !in value then Missing(value, 4)
    else if "data_type" !in value then Missing(value, 5)
    else Ok(ConfigData(value["description"], value["label"], value["unit"],
                       value["format"], value["data_format"], value["data_type"]))
  }

  /**
    One pass of the inner loop: the attribute name is split before the type
    test, so a name without '/' raises ValueError whatever the type; only a
    "CONFIG" entry builds an event.
  */
  function EntryEvent(eventType: string, attrName: string, value: ConfigValue): (r: Result<Option<ConfigEvent>, BatchError>)
    ensures r.Ok? <==> '/' in attrName && (eventType == "CONFIG" ==> HasAllFields(value))
    ensures '/' !in attrName ==> r == Err(ValueError(attrName))
    ensures r.Ok? ==> (r.value.Some? <==> eventType == "CONFIG")
    ensures r.Ok? && r.value.Some? ==> Describes(r.value.value, attrName, value)
    ensures '/' in attrName && eventType == "CONFIG" && !HasAllFields(value) ==> r == Err(MakeConfigData(value).error)
  {
    match RSplitSlash(attrName)
    case None => Err(ValueError(attrName))
    case Some((device, attr)) =>
      if eventType != "CONFIG" then Ok(None)
      else
        match MakeConfigData(value)
        case Err(e) => Err(e)
        case Ok(data) => Ok(Some(ConfigEvent(eventType, device, attr, data)))
  }

  /** The events one inner dict contributes, in its order. */
  function EntriesBatch(eventType: string, entries: Dict<string, ConfigValue>): Result<seq<ConfigEvent>, BatchError>
    decreases |entries|
  {
    if entries == [] then Ok([])
    else
      match EntryEvent(eventType, entries[0].0, entries[0].1)
      case Err(e) => Err(e)
      case Ok(event) =>
        match EntriesBatch(eventType, entries[1..])
        case Err(e) => Err(e)
        case Ok(rest) => Ok((if event.Some? then [event.value] else []) + rest)
  }

  /** The batch one round of the config-event resolver builds from the drained dict. */
  function BuildConfigBatch(events: Pending<ConfigValue>): Result<seq<ConfigEvent>, BatchError>
    decreases |events|
  {
    if events == [] then Ok([])
    else
      match EntriesBatch(events[0].0, events[0].1)
      case Err(e) => Err(e)
      case Ok(batch) =>
        match BuildConfigBatch(events[1..])
        case Err(e) => Err(e)
        case Ok(rest) => Ok(batch + rest)
  }

  /** Every attribute name of the drained dict, of every event type, in iteration order. */
  function AllNames(events: Pending<ConfigValue>): seq<string>
    decreases |events|
  {
    if events == [] then [] else Keys(events[0].1) + AllNames(events[1..])
  }

  /** The "CONFIG"-typed entries of the drained dict, in iteration order. */
  function ConfigEntries(events: Pending<ConfigValue>): Dict<string, ConfigValue>
    decreases |events|
  {
    if events == [] then []
    else (if events[0].0 == "CONFIG" then events[0].1 else []) + ConfigEntries(events[1..])
  }

  /** Every name holds a '/', so `rsplit('/', 1)` unpacks into two parts. */
  predicate AllSplittable(names: seq<string>) {
    forall n :: n in names ==> '/' in n
  }

  /** Every value of `entries` has all the fields the resolver reads. */
  predicate AllComplete(entries: Dict<string, ConfigValue>) {
    forall i :: 0 <= i < |entries| ==> HasAllFields(entries[i].1)
  }

  lemma AllCompleteConcat(a: Dict<string, ConfigValue>, b: Dict<string, ConfigValue>)
    ensures AllComplete(a + b) <==> AllComplete(a) && AllComplete(b)
  {
    var ab := a + b;
    assert forall i :: 0 <= i < |a| ==> ab[i] == a[i];
    assert forall i :: 0 <= i < |b| ==> ab[|a| + i] == b[i];
  }

  /** `e` is the event built for the config entry `(attrName, value)`. */
  predicate Describes(e: ConfigEvent, attrName: string, value: ConfigValue) {
    && e.eventType == "CONFIG"
    && e.device + "/" + e.name == attrName
    && '/' !in e.name
    && HasAllFields(value)
    && e.data == ConfigData(value["description"], value["label"], value["unit"],
                            value["format"], value["data_format"], value["data_type"])
  }

  /** The events `b` are, one by one and in order, the events built for the entries `ce`. */
  predicate DescribesAll(b: seq<ConfigEvent>, ce: Dict<string, ConfigValue>) {
    |b| == |ce| && forall i :: 0 <= i < |b| ==> Describes(b[i], ce[i].0, ce[i].1)
  }

  lemma DescribesAllConcat(b1: seq<ConfigEvent>, c1: Dict<string, ConfigValue>,
                           b2: seq<ConfigEvent>, c2: Dict<string, ConfigValue>)
    requires DescribesAll(b1, c1) && DescribesAll(b2, c2)
    ensures DescribesAll(b1 + b2, c1 + c2)
  {
    var b, c := b1 + b2, c1 + c2;
    forall i | 0 <= i < |b| ensures Describes(b[i], c[i].0, c[i].1) {
      if i < |b1| {
        assert b[i] == b1[i] && c[i] == c1[i];
      } else {
        assert b[i] == b2[i - |b1|] && c[i] == c2[i - |b1|];
      }
    }
  }

  /** One inner dict gives events exactly when its names split and, for "CONFIG", its values are complete. */
  lemma {:induction false} EntriesBatchOk(eventType: string, entries: Dict<string, ConfigValue>)
    ensures EntriesBatch(eventType, entries).Ok? <==>
      AllSplittable(Keys(entries)) && (eventType == "CONFIG" ==> AllComplete(entries))
    decreases |entries|
  {
    if entries != [] {
      var tail := entries[1..];
      EntriesBatchOk(eventType, tail);
      var step := EntryEvent(eventType, entries[0].0, entries[0].1);
      assert EntriesBatch(eventType, entries).Ok? <==> step.Ok? && EntriesBatch(eventType, tail).Ok?;
      assert AllSplittable(Keys(entries)) <==> '/' in entries[0].0 && AllSplittable(Keys(tail)) by {
        assert Keys(entries) == [entries[0].0] + Keys(tail);
      }
      assert AllComplete(entries) <==> HasAllFields(entries[0].1) && AllComplete(tail) by {
        assert entries == [entries[0]] + tail;
        AllCompleteConcat([entries[0]], tail);
      }
    }
  }

  lemma DescribesAllCons(e: ConfigEvent, rest: seq<ConfigEvent>, entries: Dict<string, ConfigValue>)
    requires |entries| > 0 && Describes(e, entries[0].0, entries[0].1) && DescribesAll(rest, entries[1..])
    ensures DescribesAll([e] + rest, entries)
  {
    var b := [e] + rest;
    forall i | 0 < i < |b| ensures Describes(b[i], entries[i].0, entries[i].1) {
      assert b[i] == rest[i - 1] && entries[i] == entries[1..][i - 1];
    }
  }

  /** The events of one inner dict: one per entry, in order, for "CONFIG"; none for other types. */
  lemma {:induction false} EntriesBatchShape(eventType: string, entries: Dict<string, ConfigValue>)
    requires EntriesBatch(eventType, entries).Ok?
    ensures var b := EntriesBatch(eventType, entries).value;
      if eventType == "CONFIG" then DescribesAll(b, entries) else b == []
    decreases |entries|
  {
    if entries != [] {
      var tail := entries[1..];
      EntriesBatchShape(eventType, tail);
      if eventType == "CONFIG" {
        var e := EntryEvent(eventType, entries[0].0, entries[0].1).value.value;
        var b, rest := EntriesBatch(eventType, entries).value, EntriesBatch(eventType, tail).value;
        assert b == [e] + rest;
        DescribesAllCons(e, rest, entries);
      }
    }
  }

  /**
    The batch is built exactly when every attribute name, of any event type,
    holds a '/' and every "CONFIG" value has all six fields.
  */
  lemma {:induction false} ConfigBatchOk(events: Pending<ConfigValue>)
    ensures BuildConfigBatch(events).Ok? <==> AllSplittable(AllNames(events)) && AllComplete(ConfigEntries(events))
    decreases |events|
  {
    if events != [] {
      var t, entries, tail := events[0].0, events[0].1, events[1..];
      EntriesBatchOk(t, entries);
      ConfigBatchOk(tail);
      var head := if t == "CONFIG" then entries else [];
      assert ConfigEntries(events) == head + ConfigEntries(tail);
      AllCompleteConcat(head, ConfigEntries(tail));
      assert AllNames(events) == Keys(entries) + AllNames(tail);
      assert AllSplittable(AllNames(events)) <==> AllSplittable(Keys(entries)) && AllSplittable(AllNames(tail));
    }
  }

  /**
    The config batch holds one event per "CONFIG"-typed entry, in iteration
    order, whose device and name are the entry's attribute name split at its
    last '/' and whose data are the entry's fields; entries of other types
    add nothing.
  */
  lemma {:induction false} ConfigBatchShape(events: Pending<ConfigValue>)
    requires BuildConfigBatch(events).Ok?
    ensures DescribesAll(BuildConfigBatch(events).value, ConfigEntries(events))
    decreases |events|
  {
    if events != [] {
      var t, entries, tail := events[0].0, events[0].1, events[1..];
      EntriesBatchShape(t, entries);
      ConfigBatchShape(tail);
      var head := if t == "CONFIG" then entries else [];
      var hb, rb := EntriesBatch(t, entries).value, BuildConfigBatch(tail).value;
      assert DescribesAll(hb, head);
      DescribesAllConcat(hb, head, rb, ConfigEntries(tail));
    }
  }

  /**
    One round of the config-event resolver: drain the accumulator and build
    the batch. The batch is yielded (Some) only when it is not empty.
  */
  method ConfigRound(keeper: EventKeeper<ConfigValue>) returns (r: Result<Option<seq<ConfigEvent>>, BatchError>)
    requires keeper.Valid()
    modifies keeper
    ensures keeper.Valid() && keeper.events == []
    ensures keeper.latest == MergeAll(old(keeper.latest), old(keeper.events))
    ensures keeper.timestamps == old(keeper.timestamps)
    ensures r == match BuildConfigBatch(old(keeper.events))
                 case Err(e) => Err(e)
                 case Ok(b) => Ok(if b == [] then None else Some(b))
  {
    var events := keeper.Get();
    var batch := BuildConfigBatch(events);
    match batch
    case Err(e) => r := Err(e);
    case Ok(b) =>
      if b != [] {
        r := Ok(Some(b));
      } else {
        r := Ok(None);
      }
  }

  // ---------------------------------------------------------------------------
  // The listener registries and the unsubscribe resolvers

  /** The listener an attribute name is registered with. */
  datatype RegisteredListener = RegisteredListener(attribute: string)

  /** A registry value: a listener, or a value Python treats as false. */
  datatype Slot = Vacant | Held(listener: RegisteredListener)

  /** What an unsubscribe resolver yields, or the KeyError that escapes it. */
  datatype UnsubOutcome = Status(text: string) | MissingKey(key: string)

  /** Python's `repr` of a list of names, each written in single quotes. */
  function ListRepr(names: seq<string>): string {
    "[" + JoinQuoted(names) + "]"
  }

  function JoinQuoted(names: seq<string>): string
    decreases |names|
  {
    if names == [] then ""
    else if |names| == 1 then "'" + names[0] + "'"
    else "'" + names[0] + "', " + JoinQuoted(names[1..])
  }

  /**
    The loop of an unsubscribe resolver over the requested names: the
    registry it leaves, the names it deleted (and whose listener it cleared)
    in request order, and the name whose lookup raised KeyError, if any.
    Deletions made before a KeyError stay made.
  */
  function UnsubLoop(reg: map<string, Slot>, models: seq<string>): (map<string, Slot>, seq<string>, Option<string>)
    decreases |models|
  {
    if models == [] then (reg, [], None)
    else if models[0] !in reg then (reg, [], Some(models[0]))
    else if reg[models[0]].Vacant? then UnsubLoop(reg, models[1..])
    else
      var (left, removed, missing) := UnsubLoop(reg - {models[0]}, models[1..]);
      (left, [models[0]] + removed, missing)
  }

  /** The requested names registered with a listener, in request order. */
  function HeldNames(reg: map<string, Slot>, models: seq<string>): seq<string>
    decreases |models|
  {
    if models == [] then []
    else (if models[0] in reg && reg[models[0]].Held? then [models[0]] else []) + HeldNames(reg, models[1..])
  }

  /** An unsubscribe resolver: the registry it leaves and what it yields or raises. */
  function UnsubscribeFrom(reg: map<string, Slot>, models: seq<string>): (map<string, Slot>, UnsubOutcome) {
    if reg == map[] then (reg, Status("No attribute to unsubscribe"))
    else
      var r := UnsubLoop(reg, models);
      (r.0, if r.2.Some? then MissingKey(r.2.value) else Status("Unsubscribed: " + ListRepr(r.1)))
  }

  lemma {:induction false} HeldNamesWithout(reg: map<string, Slot>, models: seq<string>, x: string)
    requires x !in models
    ensures HeldNames(reg - {x}, models) == HeldNames(reg, models)
    decreases |models|
  {
    if models != [] {
      HeldNamesWithout(reg, models[1..], x);
    }
  }

  /**
    The loop deletes exactly the names it reports, each of which was
    registered with a listener, and leaves every other name registered as it
    was. It raises KeyError exactly at a requested name that is absent by the
    time it is looked up: never registered, or deleted by an earlier request.
    When it raises nothing, every requested name was registered and the
    report is the requested names held by a listener, in request order.
  */
  lemma {:induction false} UnsubLoopSpec(reg: map<string, Slot>, models: seq<string>)
    ensures var (left, removed, missing) := UnsubLoop(reg, models);
      && left == reg - (set n | n in removed)
      && (forall n :: n in removed ==> n in reg && reg[n].Held?)
      && (missing.Some? ==> missing.value in models && (missing.value !in reg || missing.value in removed))
      && (missing.None? ==> (forall n :: n in models ==> n in reg) && removed == HeldNames(reg, models))
    decreases |models|
  {
    if models != [] && models[0] in reg {
      var m, tail := models[0], models[1..];
      assert forall n :: n in models ==> n == m || n in tail;
      if reg[m].Vacant? {
        UnsubLoopSpec(reg, tail);
      } else {
        var reg' := reg - {m};
        UnsubLoopSpec(reg', tail);
        var (left, removed, missing) := UnsubLoop(reg', tail);
        assert (set n | n in [m] + removed) == {m} + (set n | n in removed);
        assert left == reg' - (set n | n in removed);
        if missing.None? {
          assert m !in tail;
          HeldNamesWithout(reg, tail, m);
          assert forall n :: n in models ==> n == m || n in tail;
        }
      }
    }
  }

  /**
    The lookup of the `k`th requested name raises KeyError: the name was
    never registered, or it was held by a listener and an earlier request
    already deleted it.
  */
  predicate Fails(reg: map<string, Slot>, models: seq<string>, k: nat)
    requires k < |models|
  {
    models[k] !in reg || (reg[models[k]].Held? && models[k] in models[..k])
  }

  /**
    The loop stops at the first failing request, if any: it raises KeyError
    for that name, and the deletions made before it, which stay made, are
    the held names requested before it, in request order. When no request
    fails it runs through and deletes every held requested name.
  */
  lemma {:induction false} UnsubLoopStops(reg: map<string, Slot>, models: seq<string>, k: nat)
    requires k <= |models|
    requires forall j :: 0 <= j < k ==> !Fails(reg, models, j)
    requires k < |models| ==> Fails(reg, models, k)
    ensures UnsubLoop(reg, models).2 == (if k < |models| then Some(models[k]) else None)
    ensures UnsubLoop(reg, models).1 == HeldNames(reg, models[..k])
    decreases |models|
  {
    if k == 0 {
      assert models[..0] == [];
    } else {
      var m, tail := models[0], models[1..];
      assert !Fails(reg, models, 0);
      assert models[..k][1..] == tail[..k - 1];
      var reg' := if reg[m].Held? then reg - {m} else reg;
      forall j | 0 <= j < |tail| && j <= k - 1
        ensures Fails(reg', tail, j) <==> Fails(reg, models, j + 1)
      {
        assert models[j + 1] == tail[j];
        assert models[..j + 1] == [m] + tail[..j];
      }
      UnsubLoopStops(reg', tail, k - 1);
      if reg[m].Held? {
        assert m !in tail[..k - 1] by {
          if m in tail[..k - 1] {
            var i :| 0 <= i < k - 1 && tail[..k - 1][i] == m;
            assert models[..i + 1] == [m] + tail[..i];
            assert Fails(reg, models, i + 1);
          }
        }
        HeldNamesWithout(reg, tail[..k - 1], m);
      }
    }
  }

  /** The loop runs through without KeyError exactly when no requested name fails. */
  lemma UnsubLoopOutcome(reg: map<string, Slot>, models: seq<string>)
    ensures UnsubLoop(reg, models).2.None? <==> forall j :: 0 <= j < |models| ==> !Fails(reg, models, j)
  {
    var k := 0;
    while k < |models| && !Fails(reg, models, k)
      invariant k <= |models|
      invariant forall j :: 0 <= j < k ==> !Fails(reg, models, j)
    {
      k := k + 1;
    }
    UnsubLoopStops(reg, models, k);
  }

  /** A name absent from the registry makes a non-empty registry's unsubscribe raise KeyError. */
  lemma {:induction false} MissingNameRaises(reg: map<string, Slot>, models: seq<string>, i: nat)
    requires reg != map[] && i < |models| && models[i] !in reg
    ensures UnsubscribeFrom(reg, models).1.MissingKey?
  {
    UnsubLoopSpec(reg, models);
    assert models[i] in models;
  }

  /** A module-level registry of listeners: `change_listeners` or `config_listeners`. */
  class ListenerRegistry {
    var listeners: map<string, Slot>

    constructor ()
      ensures listeners == map[]
    {
      listeners := map[];
    }

    /**
      The setup of the config-event resolver: registers a fresh listener for
      every requested name, replacing any earlier one.
    */
    method Register(models: seq<string>)
      modifies this
      ensures listeners.Keys == old(listeners).Keys + (set n | n in models)
      ensures forall n :: n in models ==> listeners[n] == Held(RegisteredListener(n))
      ensures forall n :: n in old(listeners) && n !in models ==> listeners[n] == old(listeners)[n]
    {
      for i := 0 to |models|
        invariant listeners.Keys == old(listeners).Keys + (set n | n in models[..i])
        invariant forall n :: n in models[..i] ==> listeners[n] == Held(RegisteredListener(n))
        invariant forall n :: n in old(listeners) && n !in models[..i] ==> listeners[n] == old(listeners)[n]
      {
        assert models[..i + 1] == models[..i] + [models[i]];
        listeners := listeners[models[i] := Held(RegisteredListener(models[i]))];
      }
      assert models[..|models|] == models;
    }

    /**
      `resolve_unsub_change_event` / `resolve_unsub_config_event` on this
      registry. `cleared` lists the names whose listener's `clear()` was
      called, in call order.
    */
    method Unsubscribe(models: seq<string>) returns (outcome: UnsubOutcome, cleared: seq<string>)
      modifies this
      ensures (listeners, outcome) == UnsubscribeFrom(old(listeners), models)
      ensures cleared == if old(listeners) == map[] then [] else UnsubLoop(old(listeners), models).1
    {
      cleared := [];
      if listeners == map[] {
        outcome := Status("No attribute to unsubscribe");
        return;
      }
      ghost var whole := UnsubLoop(listeners, models);
      var i := 0;
      assert models[i..] == models;
      while i < |models|
        invariant 0 <= i <= |models|
        invariant whole == UnsubLoop(old(listeners), models) && old(listeners) != map[]
        invariant whole.0 == UnsubLoop(listeners, models[i..]).0
        invariant whole.1 == cleared + UnsubLoop(listeners, models[i..]).1
        invariant whole.2 == UnsubLoop(listeners, models[i..]).2
      {
        var attr := models[i];
        assert models[i..][0] == attr && models[i..][1..] == models[i + 1..];
        if attr !in listeners {
          outcome := MissingKey(attr);
          assert whole.2 == Some(attr) && whole.0 == listeners;
          assert UnsubscribeFrom(old(listeners), models).0 == listeners;
          assert UnsubscribeFrom(old(listeners), models).1 == outcome;
          return;
        }
        var listener := listeners[attr];
        if listener.Held? {
          ghost var rest := UnsubLoop(listeners - {attr}, models[i + 1..]);
          assert cleared + ([attr] + rest.1) == (cleared + [attr]) + rest.1;
          listeners := listeners - {attr};
          cleared := cleared + [attr];
        }
        i := i + 1;
      }
      assert models[i..] == [];
      assert cleared + [] == cleared;
      assert whole.1 == cleared && whole.2 == None;
      outcome := Status("Unsubscribed: " + ListRepr(cleared));
      assert UnsubscribeFrom(old(listeners), models).0 == listeners;
      assert UnsubscribeFrom(old(listeners), models).1 == outcome;
    }
  }

  // ---------------------------------------------------------------------------
  // The change-event resolver

  /** What a device reports for an attribute: read value, set value, quality and time. */
  datatype AttrReading = AttrReading(value: Json, wValue: Json, quality: string, time: TimeVal)

  /** An attribute proxy, with the names its `get_device_proxy().name()` and `name()` return. */
  datatype AttrProxy = AttrProxy(device: string, name: string)

  /** The outcome of `AttributeProxy(model)` followed by `subscribe_event(CHANGE_EVENT, 1)`. */
  datatype Resolution =
    | Unresolvable(reason: string)                  // an exception escapes the resolver
    | PushRefused(proxy: AttrProxy)                 // subscribe_event raised DevFailed
    | Subscribed(proxy: AttrProxy, eventId: int)    // push subscription succeeded

  datatype Attempt = Attempt(model: string, resolution: Resolution)

  datatype ChangeData = ChangeData(value: Json, wValue: Json, quality: string, time: real)
  datatype ChangeEvent = ChangeEvent(device: string, name: string, data: ChangeData)

  /** `change_event_from(proxy, value)`. */
  function ChangeEventFrom(p: AttrProxy, r: AttrReading): (e: ChangeEvent)
    ensures e.device == p.device && e.name == p.name
    ensures e.data.value == r.value && e.data.wValue == r.wValue && e.data.quality == r.quality
    ensures e.data.time == ToTime(r.time)
  {
    ChangeEvent(p.device, p.name, ChangeData(r.value, r.wValue, r.quality, ToTime(r.time)))
  }

  /**
    An event tells the client which attribute it is about and what was read:
    events that are equal come from the same proxy and carry the same value,
    set value and quality.
  */
  lemma ChangeEventIdentifies(p1: AttrProxy, r1: AttrReading, p2: AttrProxy, r2: AttrReading)
    requires ChangeEventFrom(p1, r1) == ChangeEventFrom(p2, r2)
    ensures p1 == p2
    ensures r1.value == r2.value && r1.wValue == r2.wValue && r1.quality == r2.quality
  {
  }

  /** The push-subscribed attributes, in model order. */
  function SubsOf(attempts: seq<Attempt>): seq<(AttrProxy, int)>
    decreases |attempts|
  {
    if attempts == [] then []
    else
      var n := |attempts| - 1;
      SubsOf(attempts[..n]) +
        (match attempts[n].resolution
         case Subscribed(p, id) => [(p, id)]
         case _ => [])
  }

  /** The attributes that have to be polled, in model order. */
  function PollOf(attempts: seq<Attempt>): seq<AttrProxy>
    decreases |attempts|
  {
    if attempts == [] then []
    else
      var n := |attempts| - 1;
      PollOf(attempts[..n]) +
        (match attempts[n].resolution
         case PushRefused(p) => [p]
         case _ => [])
  }

  predicate AllResolvable(attempts: seq<Attempt>) {
    forall i :: 0 <= i < |attempts| ==> !attempts[i].resolution.Unresolvable?
  }

  /**
    The setup loop of the change-event resolver: sorts the models into
    push-subscribed and polled attributes, in model order, or stops at the
    first model whose exception escapes.
  */
  method Partition(attempts: seq<Attempt>) returns (r: Result<(seq<(AttrProxy, int)>, seq<AttrProxy>), string>)
    ensures r.Ok? <==> AllResolvable(attempts)
    ensures r.Ok? ==> r.value == (SubsOf(attempts), PollOf(attempts))
    ensures r.Err? ==> exists i :: 0 <= i < |attempts| && attempts[i].resolution.Unresolvable?
                          && r.error == attempts[i].model && AllResolvable(attempts[..i])
  {
    var subs, poll := [], [];
    for i := 0 to |attempts|
      invariant AllResolvable(attempts[..i])
      invariant subs == SubsOf(attempts[..i]) && poll == PollOf(attempts[..i])
    {
      assert attempts[..i + 1][..i] == attempts[..i];
      match attempts[i].resolution
      case Unresolvable(_) =>
        return Err(attempts[i].model);
      case Subscribed(p, id) =>
        subs := subs + [(p, id)];
      case PushRefused(p) =>
        poll := poll + [p];
    }
    assert attempts[..|attempts|] == attempts;
    r := Ok((subs, poll));
  }

  /** Each model that resolved lands in exactly one of the two lists. */
  lemma {:induction false} PartitionCount(attempts: seq<Attempt>)
    requires AllResolvable(attempts)
    ensures |SubsOf(attempts)| + |PollOf(attempts)| == |attempts|
    decreases |attempts|
  {
    if attempts != [] {
      var n := |attempts| - 1;
      assert AllResolvable(attempts[..n]) by {
        assert forall i :: 0 <= i < n ==> attempts[..n][i] == attempts[i];
      }
      PartitionCount(attempts[..n]);
      assert !attempts[n].resolution.Unresolvable?;
    }
  }

  /** A model whose push subscription succeeded is in the subscribed list. */
  lemma {:induction false} SubscribedListed(attempts: seq<Attempt>, i: nat)
    requires i < |attempts| && attempts[i].resolution.Subscribed?
    ensures (attempts[i].resolution.proxy, attempts[i].resolution.eventId) in SubsOf(attempts)
    decreases |attempts|
  {
    var n := |attempts| - 1;
    if i < n {
      assert attempts[..n][i] == attempts[i];
      SubscribedListed(attempts[..n], i);
    }
  }

  /** A model whose push subscription raised DevFailed is in the polled list. */
  lemma {:induction false} RefusedPolled(attempts: seq<Attempt>, i: nat)
    requires i < |attempts| && attempts[i].resolution.PushRefused?
    ensures attempts[i].resolution.proxy in PollOf(attempts)
    decreases |attempts|
  {
    var n := |attempts| - 1;
    if i < n {
      assert attempts[..n][i] == attempts[i];
      RefusedPolled(attempts[..n], i);
    }
  }

  /**
    The device side of one polling round, as the resolver sees it:
    `get_events(event_id)` on a push-subscribed proxy returns the
    notifications queued since the last call, and `read()` on a polled proxy
    either returns a reading or raises DevFailed, which escapes the resolver.
  */
  type EventSource = (AttrProxy, int) -> seq<AttrReading>

  datatype ReadOutcome = ReadOk(reading: AttrReading) | ReadFailed(reason: string)

  type Reader = AttrProxy -> ReadOutcome

  /** The events one subscription's notifications give, in the order `get_events` returned them. */
  function SubscriptionEvents(sub: (AttrProxy, int), getEvents: EventSource): seq<ChangeEvent> {
    var readings := getEvents(sub.0, sub.1);
    seq(|readings|, j requires 0 <= j < |readings| => ChangeEventFrom(sub.0, readings[j]))
  }

  /** The events yielded for the pushed notifications, subscription by subscription. */
  function PushedEvents(subs: seq<(AttrProxy, int)>, getEvents: EventSource): seq<ChangeEvent>
    decreases |subs|
  {
    if subs == [] then []
    else
      var n := |subs| - 1;
      PushedEvents(subs[..n], getEvents) + SubscriptionEvents(subs[n], getEvents)
  }

  /** The events yielded for the polled reads, up to the first read that fails. */
  function PolledEvents(poll: seq<AttrProxy>, read: Reader): seq<ChangeEvent>
    decreases |poll|
  {
    if poll == [] then []
    else
      match read(poll[0])
      case ReadFailed(_) => []
      case ReadOk(r) => [ChangeEventFrom(poll[0], r)] + PolledEvents(poll[1..], read)
  }

  /** The failure of the first polled read that fails, if any. */
  function FirstReadFailure(poll: seq<AttrProxy>, read: Reader): Option<string>
    decreases |poll|
  {
    if poll == [] then None
    else
      match read(poll[0])
      case ReadFailed(reason) => Some(reason)
      case ReadOk(_) => FirstReadFailure(poll[1..], read)
  }

  /** How many notifications `get_events` returned over all subscriptions. */
  function TotalReadings(subs: seq<(AttrProxy, int)>, getEvents: EventSource): nat
    decreases |subs|
  {
    if subs == [] then 0
    else
      var n := |subs| - 1;
      TotalReadings(subs[..n], getEvents) + |getEvents(subs[n].0, subs[n].1)|
  }

  /** Every pushed notification becomes exactly one event: none is lost or repeated. */
  lemma {:induction false} PushedEventsCount(subs: seq<(AttrProxy, int)>, getEvents: EventSource)
    ensures |PushedEvents(subs, getEvents)| == TotalReadings(subs, getEvents)
    decreases |subs|
  {
    if subs != [] {
      PushedEventsCount(subs[..|subs| - 1], getEvents);
    }
  }

  /**
    Each polled attribute is read at most once per round, and every one of
    them yields an event exactly when no read fails.
  */
  lemma {:induction false} PolledEventsCount(poll: seq<AttrProxy>, read: Reader)
    ensures |PolledEvents(poll, read)| <= |poll|
    ensures |PolledEvents(poll, read)| == |poll| <==> FirstReadFailure(poll, read).None?
    decreases |poll|
  {
    if poll != [] {
      PolledEventsCount(poll[1..], read);
    }
  }

  /**
    One round of the change-event resolver over the lists the setup loop
    built: every pushed notification is yielded, subscription by
    subscription, before any polled read; then each polled attribute is read
    once, in order, and a failing read ends the stream.
  */
  method ChangeRound(subs: seq<(AttrProxy, int)>, poll: seq<AttrProxy>, getEvents: EventSource, read: Reader)
    returns (emitted: seq<ChangeEvent>, failure: Option<string>)
    ensures |PushedEvents(subs, getEvents)| <= |emitted|
    ensures emitted[..|PushedEvents(subs, getEvents)|] == PushedEvents(subs, getEvents)
    ensures emitted[|PushedEvents(subs, getEvents)|..] == PolledEvents(poll, read)
    ensures failure == FirstReadFailure(poll, read)
  {
    emitted := [];
    for i := 0 to |subs|
      invariant emitted == PushedEvents(subs[..i], getEvents)
    {
      var (proxy, eventId) := subs[i];
      var readings := getEvents(proxy, eventId);
      ghost var before := emitted;
      for j := 0 to |readings|
        invariant emitted == before + seq(j, k requires 0 <= k < j => ChangeEventFrom(proxy, readings[k]))
      {
        emitted := emitted + [ChangeEventFrom(proxy, readings[j])];
      }
      assert subs[..i + 1][..i] == subs[..i];
    }
    assert subs[..|subs|] == subs;
    ghost var pushedPart := emitted;
    failure := None;
    var i := 0;
    while i < |poll|
      invariant 0 <= i <= |poll|
      invariant emitted + PolledEvents(poll[i..], read) == pushedPart + PolledEvents(poll, read)
      invariant FirstReadFailure(poll[i..], read) == FirstReadFailure(poll, read)
    {
      assert poll[i..][1..] == poll[i + 1..];
      match read(poll[i])
      case ReadFailed(reason) =>
        failure := Some(reason);
        break;
      case ReadOk(r) =>
        emitted := emitted + [ChangeEventFrom(poll[i], r)];
      i := i + 1;
    }
    assert emitted == pushedPart + PolledEvents(poll, read);
  }

  /**
    The setup loop followed by the first polling round: the pushed events of
    the models whose subscription succeeded, in model order, then the reads
    of the models that have to be polled, in model order.
  */
  method FirstRound(attempts: seq<Attempt>, getEvents: EventSource, read: Reader)
    returns (r: Result<(seq<ChangeEvent>, Option<string>), string>)
    ensures r.Ok? <==> AllResolvable(attempts)
    ensures r.Ok? ==>
      var pushed := PushedEvents(SubsOf(attempts), getEvents);
      && |pushed| <= |r.value.0|
      && r.value.0[..|pushed|] == pushed
      && r.value.0[|pushed|..] == PolledEvents(PollOf(attempts), read)
      && r.value.1 == FirstReadFailure(PollOf(attempts), read)
    ensures r.Err? ==> exists i :: 0 <= i < |attempts| && attempts[i].resolution.Unresolvable?
                          && r.error == attempts[i].model && AllResolvable(attempts[..i])
  {
    var lists := Partition(attempts);
    match lists
    case Err(model) =>
      r := Err(model);
    case Ok((subs, poll)) =>
      var emitted, failure := ChangeRound(subs, poll, getEvents, read);
      r := Ok((emitted, failure));
  }
}
