/**
  The Taurus listener that turns attribute events into uniform records: the
  formatting helpers, the classification of an incoming event as ERROR,
  CONFIG or CHANGE with the cached field it updates, and the offer of the
  record to a bounded queue that drops it when full.
*/
module Listener {
  import opened Wrappers
  import opened Values

  // ---------------------------------------------------------------------------
  // Tango values and their Python `str`

  datatype DevState =
    ON | OFF | CLOSE | OPEN | INSERT | EXTRACT | MOVING | STANDBY | FAULT | INIT | RUNNING | ALARM | DISABLE | UNKNOWN

  /** `str(state)`: the state's name, which names no other state. */
  function StateName(s: DevState): (r: string)
    ensures StateFromName(r) == Some(s)
  {
    match s
    case ON => "ON"
    case OFF => "OFF"
    case CLOSE => "CLOSE"
    case OPEN => "OPEN"
    case INSERT => "INSERT"
    case EXTRACT => "EXTRACT"
    case MOVING => "MOVING"
    case STANDBY => "STANDBY"
    case FAULT => "FAULT"
    case INIT => "INIT"
    case RUNNING => "RUNNING"
    case ALARM => "ALARM"
    case DISABLE => "DISABLE"
    case UNKNOWN => "UNKNOWN"
  }

  /** `DevState.names[n]`: the state a name denotes. */
  function StateFromName(n: string): Option<DevState> {
    if n == "ON" then Some(ON)
    else if n == "OFF" then Some(OFF)
    else if n == "CLOSE" then Some(CLOSE)
    else if n == "OPEN" then Some(OPEN)
    else if n == "INSERT" then Some(INSERT)
    else if n == "EXTRACT" then Some(EXTRACT)
    else if n == "MOVING" then Some(MOVING)
    else if n == "STANDBY" then Some(STANDBY)
    else if n == "FAULT" then Some(FAULT)
    else if n == "INIT" then Some(INIT)
    else if n == "RUNNING" then Some(RUNNING)
    else if n == "ALARM" then Some(ALARM)
    else if n == "DISABLE" then Some(DISABLE)
    else if n == "UNKNOWN" then Some(UNKNOWN)
    else None
  }

  datatype AttrQuality = ATTR_VALID | ATTR_INVALID | ATTR_ALARM | ATTR_CHANGING | ATTR_WARNING

  /** `str(quality)`: the quality's name, which names no other quality. */
  function QualityName(q: AttrQuality): (r: string)
    ensures QualityFromName(r) == Some(q)
  {
    match q
    case ATTR_VALID => "ATTR_VALID"
    case ATTR_INVALID => "ATTR_INVALID"
    case ATTR_ALARM => "ATTR_ALARM"
    case ATTR_CHANGING => "ATTR_CHANGING"
    case ATTR_WARNING => "ATTR_WARNING"
  }

  /** `AttrQuality.names[n]`: the quality a name denotes. */
  function QualityFromName(n: string): Option<AttrQuality> {
    if n == "ATTR_VALID" then Some(ATTR_VALID)
    else if n == "ATTR_INVALID" then Some(ATTR_INVALID)
    else if n == "ATTR_ALARM" then Some(ATTR_ALARM)
    else if n == "ATTR_CHANGING" then Some(ATTR_CHANGING)
    else if n == "ATTR_WARNING" then Some(ATTR_WARNING)
    else None
  }

  /** The declared data type of an attribute; only DevState is told apart. */
  datatype ArgType = DevStateType | OtherType(code: int)

  /**
    A value read from an attribute. An ndarray carries its raw buffer (what
    `tobytes()` returns) and its printed form (what `str()` returns), both
    computed by numpy.
  */
  datatype TangoValue =
    | TNone
    | TBool(b: bool)
    | TInt(i: int)
    | TString(s: string)
    | TState(state: DevState)
    | TArray(raw: seq<bv8>, text: string)

  function DigitChar(d: nat): char
    requires d < 10
  {
    "0123456789"[d]
  }

  function NatDecimal(n: nat): (r: string)
    ensures |r| > 0
    decreases n
  {
    if n < 10 then [DigitChar(n)] else NatDecimal(n / 10) + [DigitChar(n % 10)]
  }

  /** Python's `str` of a value. */
  function Str(v: TangoValue): string {
    match v
    case TNone => "None"
    case TBool(b) => if b then "True" else "False"
    case TInt(i) => if i < 0 then "-" + NatDecimal(-i) else NatDecimal(i)
    case TString(s) => s
    case TState(state) => StateName(state)
    case TArray(_, text) => text
  }

  /** What `format_value` returns: a str, a bytes object, or the value itself. */
  datatype Formatted = FStr(text: string) | FBytes(bytes: seq<bv8>) | FSame(value: TangoValue)

  /**
    `format_value(value, attr_type)`: the value's `str` for a DevState
    attribute, the raw bytes of an ndarray, and the value unchanged otherwise.
  */
  function FormatValue(value: TangoValue, attrType: ArgType): (r: Formatted)
    ensures attrType == DevStateType <==> r.FStr?
    ensures r.FBytes? <==> attrType != DevStateType && value.TArray?
    ensures r.FBytes? ==> r.bytes == value.raw
    ensures r.FSame? ==> r.value == value
  {
    if attrType == DevStateType then FStr(Str(value))
    else if value.TArray? then FBytes(value.raw)
    else FSame(value)
  }

  // ---------------------------------------------------------------------------
  // error_str

  /** One entry of a DevFailed error stack. */
  datatype DevError = DevError(reason: string, desc: string, origin: string)

  /** An error delivered with an Error event: a DevFailed (its stack is never empty) or any other exception. */
  datatype PyError = DevFailed(first: DevError, rest: seq<DevError>) | OtherError(text: string)

  /**
    `error_str(err)`: for a DevFailed, text that reads back as the reason and
    description of the first entry of its stack (when the reason holds no
    ']'); for any other error, its `str`.
  */
  function ErrorStr(err: PyError): (r: string)
    ensures err.DevFailed? && ']' !in err.first.reason ==> ParseErrorStr(r) == Some((err.first.reason, err.first.desc))
    ensures err.OtherError? ==> r == err.text
  {
    match err
    case DevFailed(e, _) =>
      var s := "[" + e.reason + "] " + e.desc;
      assert ']' !in e.reason ==> ParseErrorStr(s) == Some((e.reason, e.desc)) by {
        if ']' !in e.reason { ParseBracketed(e.reason, e.desc); }
      }
      s
    case OtherError(text) => text
  }

  /** The position of the first `c` in `s`. */
  function IndexOf(s: string, c: char): (r: Option<nat>)
    ensures r.Some? ==> r.value < |s| && s[r.value] == c && c !in s[..r.value]
    ensures r.None? ==> c !in s
  {
    if s == [] then None
    else if s[0] == c then Some(0)
    else
      match IndexOf(s[1..], c)
      case None => None
      case Some(i) =>
        assert s[..i + 1] == [s[0]] + s[1..][..i];
        Some(i + 1)
  }

  /** Reads "[reason] desc" back into its reason and description. */
  function ParseErrorStr(s: string): Option<(string, string)> {
    if |s| == 0 || s[0] != '[' then None
    else
      match IndexOf(s[1..], ']')
      case None => None
      case Some(i) =>
        if i + 2 < |s| && s[i + 2] == ' ' then Some((s[1..i + 1], s[i + 3..])) else None
  }

  /** "[reason] desc" reads back as its reason and description when the reason holds no ']'. */
  lemma ParseBracketed(reason: string, desc: string)
    requires ']' !in reason
    ensures ParseErrorStr("[" + reason + "] " + desc) == Some((reason, desc))
  {
    var s := "[" + reason + "] " + desc;
    var n := |reason|;
    assert s[1..] == reason + ("] " + desc);
    IndexOfPrefix(reason, "] " + desc, ']');
    assert |s| == n + 3 + |desc| && s[n + 2] == ' ';
    assert s[1..n + 1] == reason && s[n + 3..] == desc;
    assert IndexOf(s[1..], ']') == Some(n);
    assert |s| > 0 && s[0] == '[';
  }

  lemma {:induction false} IndexOfPrefix(a: string, b: string, c: char)
    requires c !in a && |b| > 0 && b[0] == c
    ensures IndexOf(a + b, c) == Some(|a|)
    decreases |a|
  {
    if a != [] {
      assert (a + b)[1..] == a[1..] + b;
      IndexOfPrefix(a[1..], b, c);
    }
  }

  // ---------------------------------------------------------------------------
  // Formatted events

  /** The change value of an attribute event. */
  datatype AttrValue = AttrValue(value: TangoValue, wValue: TangoValue, attrType: ArgType, quality: AttrQuality, time: TimeVal)

  /** `format_value_event(evt)`. */
  datatype ValueRecord = ValueRecord(value: Formatted, wValue: Formatted, quality: string, time: real)

  /**
    For a DevState attribute, the value and the write value read back as the
    states they hold; for any other attribute an array is sent as its raw
    bytes and every other value unchanged. The quality reads back as the
    event's quality, and the time is the event's time in seconds.
  */
  function FormatValueEvent(evt: AttrValue): (r: ValueRecord)
    ensures evt.attrType == DevStateType && evt.value.TState? ==>
      r.value.FStr? && StateFromName(r.value.text) == Some(evt.value.state)
    ensures evt.attrType == DevStateType && evt.wValue.TState? ==>
      r.wValue.FStr? && StateFromName(r.wValue.text) == Some(evt.wValue.state)
    ensures evt.attrType != DevStateType ==>
      r.value == (if evt.value.TArray? then FBytes(evt.value.raw) else FSame(evt.value))
      && r.wValue == (if evt.wValue.TArray? then FBytes(evt.wValue.raw) else FSame(evt.wValue))
    ensures QualityFromName(r.quality) == Some(evt.quality)
    ensures r.time == ToTime(evt.time)
  {
    ValueRecord(FormatValue(evt.value, evt.attrType), FormatValue(evt.wValue, evt.attrType),
                QualityName(evt.quality), ToTime(evt.time))
  }

  /** The configuration of the attribute that sent an event. */
  datatype AttrConfig = AttrConfig(description: string, labelText: string, unit: string, format: string)

  /** `format_config_event(evt_src)`. */
  datatype ConfigRecord = ConfigRecord(description: string, labelText: string, unit: string, format: string)

  /** The unit shown to clients: Tango's "No unit" placeholder becomes empty. */
  function DisplayUnit(unit: string): (r: string)
    ensures r != "No unit"
    ensures unit != "No unit" ==> r == unit
    ensures unit == "No unit" ==> r == ""
  {
    if unit != "No unit" then unit else ""
  }

  function FormatConfigEvent(src: AttrConfig): (r: ConfigRecord)
    ensures r.description == src.description && r.labelText == src.labelText && r.format == src.format
    ensures r.unit == DisplayUnit(src.unit)
  {
    ConfigRecord(src.description, src.labelText, DisplayUnit(src.unit), src.format)
  }

  /** Formatting a formatted configuration again changes nothing. */
  lemma FormatConfigIdempotent(src: AttrConfig)
    ensures var r := FormatConfigEvent(src);
      FormatConfigEvent(AttrConfig(r.description, r.labelText, r.unit, r.format)) == r
  {
  }

  // ---------------------------------------------------------------------------
  // Event classification and the bounded queue

  /** `TaurusEventType`. */
  datatype EventType = Change | Config | Periodic | Error

  /** The value delivered with an event: the error for an Error event, the reading for a change. */
  datatype EventValue = ErrorValue(err: PyError) | ReadingValue(reading: AttrValue) | ConfigValue

  /** The value part of a record. */
  datatype Payload = ErrorText(text: string) | ConfigPayload(config: ConfigRecord) | ChangePayload(change: ValueRecord)

  /** `{"type": action, "data": {name: value}}`. */
  datatype QueuedEvent = QueuedEvent(action: string, data: map<string, Payload>)

  /** What Taurus promises a listener: an Error event carries an error and a change event a reading. */
  predicate WellTyped(evtType: EventType, evtValue: EventValue) {
    && (evtType == Error ==> evtValue.ErrorValue?)
    && (evtType != Error && evtType != Config ==> evtValue.ReadingValue?)
  }

  /** The record `eventReceived` builds for an event of the attribute `name`. */
  function EventRecord(name: string, src: AttrConfig, evtType: EventType, evtValue: EventValue): (r: QueuedEvent)
    requires WellTyped(evtType, evtValue)
    ensures r.data.Keys == {name}
    ensures r.action == (if evtType == Error then "ERROR" else if evtType == Config then "CONFIG" else "CHANGE")
    ensures evtType == Error ==> r.data[name] == ErrorText(ErrorStr(evtValue.err))
    ensures evtType == Config ==> r.data[name] == ConfigPayload(FormatConfigEvent(src))
    ensures evtType != Error && evtType != Config ==> r.data[name] == ChangePayload(FormatValueEvent(evtValue.reading))
  {
    if evtType == Error then QueuedEvent("ERROR", map[name := ErrorText(ErrorStr(evtValue.err))])
    else if evtType == Config then QueuedEvent("CONFIG", map[name := ConfigPayload(FormatConfigEvent(src))])
    else QueuedEvent("CHANGE", map[name := ChangePayload(FormatValueEvent(evtValue.reading))])
  }

  /** An `asyncio.Queue` of records; `maxsize` 0 means unbounded. */
  class BoundedQueue {
    var items: seq<QueuedEvent>
    const maxsize: nat

    ghost predicate Valid()
      reads this
    {
      maxsize == 0 || |items| <= maxsize
    }

    /** `full()`. */
    predicate Full()
      reads this
    {
      maxsize > 0 && |items| >= maxsize
    }

    constructor (maxsize: nat)
      ensures Valid() && items == [] && this.maxsize == maxsize
    {
      this.maxsize := maxsize;
      items := [];
    }

    /** `put_nowait(e)`: appends when there is room; `full` stands for the QueueFull it raises otherwise. */
    method PutNowait(e: QueuedEvent) returns (full: bool)
      requires Valid()
      modifies this
      ensures Valid()
      ensures full == old(Full())
      ensures items == if full then old(items) else old(items) + [e]
    {
      full := Full();
      if !full {
        items := items + [e];
      }
    }
  }

  /** The listener registered with one Taurus attribute. */
  class TaurusWebAttribute {
    const name: string
    const queue: BoundedQueue
    var lastTime: int
    var lastValueEvent: Option<ValueRecord>
    var lastConfigEvent: Option<ConfigRecord>

    constructor (name: string, queue: BoundedQueue)
      ensures this.name == name && this.queue == queue
      ensures lastTime == 0 && lastValueEvent == None && lastConfigEvent == None
    {
      this.name := name;
      this.queue := queue;
      lastTime := 0;
      lastValueEvent := None;
      lastConfigEvent := None;
    }

    /**
      `eventReceived(evt_src, evt_type, evt_value)`: updates the cached field
      the event's type calls for and offers the record to the queue, which
      drops it when full; the QueueFull is caught, so nothing escapes.
    */
    method EventReceived(src: AttrConfig, evtType: EventType, evtValue: EventValue)
      requires WellTyped(evtType, evtValue)
      requires queue.Valid()
      modifies this, queue
      ensures queue.Valid()
      ensures queue.items == if old(queue.Full()) then old(queue.items)
                             else old(queue.items) + [EventRecord(name, src, evtType, evtValue)]
      ensures evtType == Error ==>
        lastTime == old(lastTime) && lastValueEvent == old(lastValueEvent) && lastConfigEvent == old(lastConfigEvent)
      ensures evtType == Config ==>
        lastTime == old(lastTime) && lastValueEvent == old(lastValueEvent)
        && lastConfigEvent == Some(FormatConfigEvent(src))
      ensures evtType != Error && evtType != Config ==>
        lastTime == evtValue.reading.time.tvSec && lastConfigEvent == old(lastConfigEvent)
        && lastValueEvent == Some(FormatValueEvent(evtValue.reading))
    {
      var action: string;
      var value: Payload;
      if evtType == Error {
        action := "ERROR";
        value := ErrorText(ErrorStr(evtValue.err));
      } else {
        if evtType == Config {
          action := "CONFIG";
          var config := FormatConfigEvent(src);
          value := ConfigPayload(config);
          lastConfigEvent := Some(config);
        } else {
          lastTime := evtValue.reading.time.tvSec;
          action := "CHANGE";
          var change := FormatValueEvent(evtValue.reading);
          value := ChangePayload(change);
          lastValueEvent := Some(change);
        }
      }
      var event := QueuedEvent(action, map[name := value]);
      var full := queue.PutNowait(event);
    }
  }
}
