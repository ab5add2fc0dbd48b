/**
  The power-control channel to the cloud broker (server/src/services/mqttService.js).
  `MqttService` keeps three fields (`client`, `isConnected`, `retryCount`); the
  broker side is the list of messages handed to the client for delivery (the
  outbox) and the topic filters it subscribed to. The transport's own timing and
  delivery are not modelled; its events are method calls.
*/
module Mqtt {
  import opened Wrappers
  import opened JsText

  datatype Message = Message(topic: string, payload: string, qos: int)

  const LOGS_TOPIC := "rover/logs"
  const DEBUG_TOPIC := "rover/logs/debug"
  const PI_POWER_TOPIC := "rover/power/pi"
  const AUX_POWER_TOPIC := "rover/power/aux"
  const USB_STATUS_TOPIC := "rover/status/usb"
  const COMMANDS_FILTER := "rover/commands/#"
  const DEFAULT_QOS := 1

  const PI_OFF := "Off 15000"
  const AUX_OFF := "Off"
  const IDLE_TRIGGERED_TEXT := "\U{26A0}\U{FE0F} IDLE SHUTDOWN TRIGGERED"
  const POWER_OFF_SENT_TEXT := "\U{1F4E1} Power-off commands broadcasted to ESP32."

  /** The argument of `triggerIdleShutdown`; `None` in a field: the property is undefined. */
  datatype IdleStats = IdleStats(lastPing: Option<int>, uptime: Option<int>)

  /** A publish payload: a string, or the idle-timeout debug object. */
  datatype Payload =
    | Text(text: string)
    | IdleDebug(lastPing: Option<int>, uptime: Option<int>)

  const IDLE_REASON := "\"reason\":\"idle_timeout\""
  const IDLE_HEAD := "{" + IDLE_REASON
  const LAST_PING_KEY := "\"last_ping\":"
  const UPTIME_KEY := "\"uptime\":"

  /** `","`, the quoted key and colon, then the value for a defined number; `JSON.stringify` drops undefined ones. */
  function JsonField(key: string, value: Option<int>): string {
    match value
    case None => ""
    case Some(v) => "," + key + IntText(v)
  }

  /** `typeof payload === "object" ? JSON.stringify(payload) : String(payload)`. */
  function Serialize(p: Payload): (s: string)
    ensures p.Text? ==> s == p.text
    ensures p.IdleDebug? ==> |s| >= 2 && s[0] == '{' && s[|s| - 1] == '}'
  {
    match p
    case Text(t) => t
    case IdleDebug(lastPing, uptime) =>
      IDLE_HEAD + JsonField(LAST_PING_KEY, lastPing) + JsonField(UPTIME_KEY, uptime) + "}"
  }

  /** Undefined fields leave nothing behind: the object is just its reason. */
  lemma SerializeUndefinedFields()
    ensures Serialize(IdleDebug(None, None)) == "{\"reason\":\"idle_timeout\"}"
  {
  }

  lemma Regroup(pre: string, key: string, t: string, next: char, rest: string)
    ensures pre + ("," + key + t) + ([next] + rest) == (pre + ",") + (key + t + [next]) + rest
  {
  }

  lemma Reassociate(head: string, a: string, b: string, z: string)
    ensures head + a + b + z == head + (a + b + z)
  {
  }

  /** A defined field is written as its key and decimal value, ended by `next`. */
  lemma FieldIncluded(pre: string, key: string, v: int, post: string, next: char)
    requires |post| > 0 && post[0] == next
    ensures Includes(pre + JsonField(key, Some(v)) + post, key + IntText(v) + [next])
  {
    var t := IntText(v);
    assert post == [next] + post[1..];
    Regroup(pre, key, t, next, post[1..]);
    IncludesMiddle(pre + ",", key + t + [next], post[1..]);
  }

  /** A field and the closing brace lack any character its key lacks, other than digits, `-` and `,`. */
  lemma FieldLacks(key: string, value: Option<int>, c: char)
    requires Lacks(key, c) && !IsDigit(c) && c != '-' && c != ',' && c != '}'
    ensures Lacks(JsonField(key, value) + "}", c)
  {
    if value.Some? {
      assert JsonField(key, value) + "}" == "," + key + IntText(value.value) + "}";
    }
  }

  /** The characters the key-absence arguments rely on. */
  lemma HeadLacks()
    ensures Lacks(IDLE_HEAD, 'g') && Lacks(IDLE_HEAD, 'p') && IDLE_HEAD[|IDLE_HEAD| - 1] == '"'
  {
  }

  lemma UptimeKeyLacks()
    ensures Lacks(UPTIME_KEY, 'n')
  {
  }

  lemma LastPingKeyLacks()
    ensures Lacks(LAST_PING_KEY, 'u')
  {
  }

  /** Without `last_ping` no `n` in the object is followed by `g`. */
  lemma NoLastPingPair(uptime: Option<int>)
    ensures !HasPair(Serialize(IdleDebug(None, uptime)), 'n', 'g')
  {
    var rest := JsonField(UPTIME_KEY, uptime) + "}";
    UptimeKeyLacks();
    FieldLacks(UPTIME_KEY, uptime, 'n');
    NoPairWithout(rest, 'n', 'g');
    HeadLacks();
    NoPairAfterLacking(IDLE_HEAD, rest, 'n', 'g');
    assert Serialize(IdleDebug(None, uptime)) == IDLE_HEAD + rest;
  }

  /** Without `uptime` no `u` in the object is followed by `p`. */
  lemma NoUptimePair(lastPing: Option<int>)
    ensures !HasPair(Serialize(IdleDebug(lastPing, None)), 'u', 'p')
  {
    var rest := JsonField(LAST_PING_KEY, lastPing) + "}";
    LastPingKeyLacks();
    FieldLacks(LAST_PING_KEY, lastPing, 'u');
    NoPairWithout(rest, 'u', 'p');
    HeadLacks();
    NoPairAfterLacking(IDLE_HEAD, rest, 'u', 'p');
    assert Serialize(IdleDebug(lastPing, None)) == IDLE_HEAD + rest;
  }

  /** An undefined `last_ping` leaves no key: `n g` occurs only in that key. */
  lemma LastPingKeyAbsent(uptime: Option<int>)
    ensures !Includes(Serialize(IdleDebug(None, uptime)), "\"last_ping\"")
  {
    NoLastPingPair(uptime);
    NotIncludedWithoutPair(Serialize(IdleDebug(None, uptime)), "\"last_ping\"", 8);
  }

  /** An undefined `uptime` leaves no key: `u p` occurs only in that key. */
  lemma UptimeKeyAbsent(lastPing: Option<int>)
    ensures !Includes(Serialize(IdleDebug(lastPing, None)), "\"uptime\"")
  {
    NoUptimePair(lastPing);
    NotIncludedWithoutPair(Serialize(IdleDebug(lastPing, None)), "\"uptime\"", 1);
  }

  /** The reason comes first, whatever fields follow. */
  lemma ReasonIncluded(lastPing: Option<int>, uptime: Option<int>)
    ensures Includes(Serialize(IdleDebug(lastPing, uptime)), IDLE_REASON)
  {
    var a, b := JsonField(LAST_PING_KEY, lastPing), JsonField(UPTIME_KEY, uptime);
    Reassociate(IDLE_HEAD, a, b, "}");
    IncludesMiddle("{", IDLE_REASON, a + b + "}");
  }

  /** A defined `last_ping` is written with its value, ended by the next field or the brace. */
  lemma LastPingIncluded(lastPing: int, uptime: Option<int>)
    ensures Includes(Serialize(IdleDebug(Some(lastPing), uptime)),
                     LAST_PING_KEY + IntText(lastPing) + (if uptime.Some? then "," else "}"))
  {
    var post := JsonField(UPTIME_KEY, uptime) + "}";
    var next := if uptime.Some? then ',' else '}';
    FieldIncluded(IDLE_HEAD, LAST_PING_KEY, lastPing, post, next);
    assert [next] == (if uptime.Some? then "," else "}");
    assert Serialize(IdleDebug(Some(lastPing), uptime)) == IDLE_HEAD + JsonField(LAST_PING_KEY, Some(lastPing)) + post;
  }

  /** A defined `uptime` is written with its value, just before the brace. */
  lemma UptimeIncluded(lastPing: Option<int>, uptime: int)
    ensures Includes(Serialize(IdleDebug(lastPing, Some(uptime))), UPTIME_KEY + IntText(uptime) + "}")
  {
    var pre := IDLE_HEAD + JsonField(LAST_PING_KEY, lastPing);
    FieldIncluded(pre, UPTIME_KEY, uptime, "}", '}');
  }

  /**
    The debug object carries exactly its defined fields: the reason always, a
    defined `last_ping` or `uptime` as its key and decimal value (ended by the
    next field or the closing brace), and no key at all for an undefined one.
  */
  lemma SerializeCarriesFields(lastPing: Option<int>, uptime: Option<int>)
    ensures var s := Serialize(IdleDebug(lastPing, uptime));
      Includes(s, IDLE_REASON)
      && (lastPing.Some? ==>
            Includes(s, LAST_PING_KEY + IntText(lastPing.value) + (if uptime.Some? then "," else "}")))
      && (uptime.Some? ==> Includes(s, UPTIME_KEY + IntText(uptime.value) + "}"))
      && (lastPing.None? ==> !Includes(s, "\"last_ping\""))
      && (uptime.None? ==> !Includes(s, "\"uptime\""))
  {
    ReasonIncluded(lastPing, uptime);
    if lastPing.Some? {
      LastPingIncluded(lastPing.value, uptime);
    } else {
      LastPingKeyAbsent(uptime);
    }
    if uptime.Some? {
      UptimeIncluded(lastPing, uptime.value);
    } else {
      UptimeKeyAbsent(lastPing);
    }
  }

  /** `log(m)` text: `[<ISO time>] [PI]: m`. */
  function LogLine(iso: string, message: string): (line: string)
    ensures |line| == |iso| + |message| + 9
    ensures line[..|iso| + 2] == "[" + iso + "]"
    ensures line[|iso| + 2..|iso| + 9] == " [PI]: "
    ensures line[|line| - |message|..] == message
  {
    "[" + iso + "] [PI]: " + message
  }

  /**
    What `triggerIdleShutdown(stats)` hands to a connected client. Without a
    stats object the read of `stats.lastPing` throws right after the first log.
  */
  function IdleShutdownBurst(stats: Option<IdleStats>, isoFirst: string, isoLast: string): (ms: seq<Message>)
    ensures |ms| == if stats.None? then 1 else 5
    ensures ms[0].topic == LOGS_TOPIC && ms[0].payload == LogLine(isoFirst, IDLE_TRIGGERED_TEXT)
    ensures stats.Some? ==> ms[1].payload == Serialize(IdleDebug(stats.value.lastPing, stats.value.uptime))
  {
    var first := Message(LOGS_TOPIC, LogLine(isoFirst, IDLE_TRIGGERED_TEXT), DEFAULT_QOS);
    match stats
    case None => [first]
    case Some(st) =>
      [ first,
        Message(DEBUG_TOPIC, Serialize(IdleDebug(st.lastPing, st.uptime)), DEFAULT_QOS),
        Message(PI_POWER_TOPIC, PI_OFF, DEFAULT_QOS),
        Message(AUX_POWER_TOPIC, AUX_OFF, DEFAULT_QOS),
        Message(LOGS_TOPIC, LogLine(isoLast, POWER_OFF_SENT_TEXT), DEFAULT_QOS) ]
  }

  /** The topics of a run of messages, in order. */
  function Topics(ms: seq<Message>): (ts: seq<string>)
    ensures |ts| == |ms|
    ensures forall k :: 0 <= k < |ms| ==> ts[k] == ms[k].topic
  {
    seq(|ms|, k requires 0 <= k < |ms| => ms[k].topic)
  }

  lemma TopicsAppend(a: seq<Message>, b: seq<Message>)
    ensures Topics(a + b) == Topics(a) + Topics(b)
  {
  }

  /**
    The power-off commands go out only when a stats object is given, and then in
    a fixed order: log, debug object, Pi off with its 15 s delay, auxiliary off, log.
  */
  lemma IdleShutdownBurstOrder(stats: Option<IdleStats>, isoFirst: string, isoLast: string)
    ensures stats.None? ==> Topics(IdleShutdownBurst(stats, isoFirst, isoLast)) == [LOGS_TOPIC]
    ensures stats.Some? ==> Topics(IdleShutdownBurst(stats, isoFirst, isoLast))
                            == [LOGS_TOPIC, DEBUG_TOPIC, PI_POWER_TOPIC, AUX_POWER_TOPIC, LOGS_TOPIC]
    ensures forall m :: m in IdleShutdownBurst(stats, isoFirst, isoLast) ==> m.qos == DEFAULT_QOS
    ensures forall m :: m in IdleShutdownBurst(stats, isoFirst, isoLast) && m.topic == PI_POWER_TOPIC ==> m.payload == PI_OFF
    ensures forall m :: m in IdleShutdownBurst(stats, isoFirst, isoLast) && m.topic == AUX_POWER_TOPIC ==> m.payload == AUX_OFF
    ensures PI_POWER_TOPIC in Topics(IdleShutdownBurst(stats, isoFirst, isoLast)) <==> stats.Some?
  {
    var b := IdleShutdownBurst(stats, isoFirst, isoLast);
    if stats.None? {
      assert Topics(b) == [LOGS_TOPIC];
    } else {
      assert Topics(b) == [LOGS_TOPIC, DEBUG_TOPIC, PI_POWER_TOPIC, AUX_POWER_TOPIC, LOGS_TOPIC];
    }
  }

  /** The broker-link state the event handlers change. */
  datatype Link = Link(isConnected: bool, retryCount: nat)

  datatype LinkEvent = Connected | Reconnecting | Errored | Closed

  /** One event handler of `connect()`. */
  function Step(s: Link, e: LinkEvent): (r: Link)
    ensures r.isConnected ==> e == Connected || s.isConnected
    ensures e == Errored || e == Closed ==> !r.isConnected && r.retryCount == s.retryCount
    ensures r.retryCount > s.retryCount <==> e == Reconnecting
    ensures r.retryCount <= s.retryCount + 1
  {
    match e
    case Connected => Link(true, 0)
    case Reconnecting => s.(retryCount := s.retryCount + 1)
    case Errored => s.(isConnected := false)
    case Closed => s.(isConnected := false)
  }

  /** The link after a run of events, oldest first. */
  function Run(s: Link, events: seq<LinkEvent>): (r: Link)
    ensures r.retryCount <= s.retryCount + |events|
    ensures r.isConnected ==> s.isConnected || Connected in events
    ensures |events| > 0 && events[|events| - 1] == Connected ==> r == Link(true, 0)
    decreases |events|
  {
    if |events| == 0 then s else Step(Run(s, events[..|events| - 1]), events[|events| - 1])
  }

  /** The reconnect events after the last successful connect (all of them if none). */
  function ReconnectsSinceConnect(events: seq<LinkEvent>): nat
    decreases |events|
  {
    if |events| == 0 then 0
    else
      match events[|events| - 1]
      case Connected => 0
      case Reconnecting => ReconnectsSinceConnect(events[..|events| - 1]) + 1
      case _ => ReconnectsSinceConnect(events[..|events| - 1])
  }

  /** The most recent event that says whether the link is up, if any. */
  function LastStatusEvent(events: seq<LinkEvent>): Option<LinkEvent>
    decreases |events|
  {
    if |events| == 0 then None
    else if events[|events| - 1].Reconnecting? then LastStatusEvent(events[..|events| - 1])
    else Some(events[|events| - 1])
  }

  /**
    Over any run of events, the retry counter counts the reconnect attempts since
    the last successful connect, and the link is up exactly when the last
    connect/error/close event was a connect.
  */
  lemma {:induction false} RunCountsRetries(s: Link, events: seq<LinkEvent>)
    ensures Run(s, events).retryCount
         == (if Connected in events then 0 else s.retryCount) + ReconnectsSinceConnect(events)
    ensures Run(s, events).isConnected
         == (match LastStatusEvent(events) case None => s.isConnected case Some(e) => e.Connected?)
    decreases |events|
  {
    if |events| > 0 {
      var init := events[..|events| - 1];
      RunCountsRetries(s, init);
      assert events == init + [events[|events| - 1]];
      assert Connected in events <==> Connected in init || events[|events| - 1].Connected?;
    }
  }

  class MqttService {
    /** `this.client !== null`. */
    var hasClient: bool
    var isConnected: bool
    var retryCount: nat
    /** Topic filters subscribed on the broker, oldest first. */
    var subscriptions: seq<string>
    /** Messages handed to the client for delivery, oldest first. */
    var outbox: seq<Message>

    function LinkState(): Link
      reads this
    {
      Link(isConnected, retryCount)
    }

    constructor ()
      ensures !hasClient && !isConnected && retryCount == 0
      ensures subscriptions == [] && outbox == []
    {
      hasClient, isConnected, retryCount := false, false, 0;
      subscriptions, outbox := [], [];
    }

    /** `connect()`: creates the client once; a second call changes nothing. It does not mark the link up. */
    method Connect()
      modifies this
      ensures old(hasClient) ==> unchanged(this)
      ensures hasClient
      ensures isConnected == old(isConnected) && retryCount == old(retryCount)
      ensures subscriptions == old(subscriptions) && outbox == old(outbox)
    {
      if hasClient {
        return;
      }
      hasClient := true;
    }

    /** The client's "connect" event: link up, counter reset, command topics subscribed. */
    method OnConnect()
      requires hasClient
      modifies this
      ensures LinkState() == Step(old(LinkState()), Connected)
      ensures subscriptions == old(subscriptions) + [COMMANDS_FILTER]
      ensures hasClient && outbox == old(outbox)
    {
      isConnected := true;
      retryCount := 0;
      subscriptions := subscriptions + [COMMANDS_FILTER];
    }

    /** The client's "reconnect" event. */
    method OnReconnect()
      requires hasClient
      modifies this
      ensures LinkState() == Step(old(LinkState()), Reconnecting)
      ensures hasClient && subscriptions == old(subscriptions) && outbox == old(outbox)
    {
      retryCount := retryCount + 1;
    }

    /** The client's "error" event. */
    method OnError()
      requires hasClient
      modifies this
      ensures LinkState() == Step(old(LinkState()), Errored)
      ensures hasClient && subscriptions == old(subscriptions) && outbox == old(outbox)
    {
      isConnected := false;
    }

    /** The client's "close" event. */
    method OnClose()
      requires hasClient
      modifies this
      ensures LinkState() == Step(old(LinkState()), Closed)
      ensures hasClient && subscriptions == old(subscriptions) && outbox == old(outbox)
    {
      isConnected := false;
    }

    /** `publish`: handed to the client only while connected; otherwise dropped without raising. */
    method Publish(topic: string, payload: Payload, qos: int := DEFAULT_QOS)
      modifies this`outbox
      ensures outbox == old(outbox) + (if isConnected then [Message(topic, Serialize(payload), qos)] else [])
    {
      if !isConnected {
        return;
      }
      outbox := outbox + [Message(topic, Serialize(payload), qos)];
    }

    /** `log(m)`: one message on `rover/logs`, stamped with the given ISO time. */
    method Log(message: string, iso: string)
      modifies this`outbox
      ensures outbox == old(outbox) + (if isConnected then [Message(LOGS_TOPIC, LogLine(iso, message), DEFAULT_QOS)] else [])
    {
      Publish(LOGS_TOPIC, Text(LogLine(iso, message)));
    }

    /**
      `triggerIdleShutdown(stats)`. With no stats object it throws (`thrown`)
      right after the first log publish.
    */
    method TriggerIdleShutdown(stats: Option<IdleStats>, isoFirst: string, isoLast: string) returns (thrown: bool)
      modifies this`outbox
      ensures thrown <==> stats.None?
      ensures outbox == old(outbox) + (if isConnected then IdleShutdownBurst(stats, isoFirst, isoLast) else [])
    {
      Log(IDLE_TRIGGERED_TEXT, isoFirst);
      if stats.None? {
        return true;
      }
      var st := stats.value;
      Publish(DEBUG_TOPIC, IdleDebug(st.lastPing, st.uptime));
      Publish(PI_POWER_TOPIC, Text(PI_OFF));
      Publish(AUX_POWER_TOPIC, Text(AUX_OFF));
      Log(POWER_OFF_SENT_TEXT, isoLast);
      return false;
    }

    /** `publishUsbState(b)`: `ON` or `OFF` on `rover/status/usb`. */
    method PublishUsbState(state: bool)
      modifies this`outbox
      ensures outbox == old(outbox) + (if isConnected then [Message(USB_STATUS_TOPIC, if state then "ON" else "OFF", DEFAULT_QOS)] else [])
    {
      Publish(USB_STATUS_TOPIC, Text(if state then "ON" else "OFF"));
    }
  }
}
