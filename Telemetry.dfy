/** The live telemetry state of the sensor dashboard: the readings record, the
    routing of broker topics to its fields, the three client callbacks
    (connect, message, error) and their fold over an event sequence. */
module Telemetry {
  import opened Wrappers

  /** The four numeric sensor metrics shown on the cards. */
  datatype Metric = Temperature | Humidity | Light | Moisture

  /** A field of the readings record: one of the metrics, or the classification label. */
  datatype Field = Reading(metric: Metric) | Classification

  /** The readings record; every value is kept as the raw payload text. */
  datatype SensorData = SensorData(
    temperature: string,
    humidity: string,
    light: string,
    moisture: string,
    classification: string)

  /** Sentinel shown for a metric that has never been received. */
  const NoReading: string := "--"
  /** Sentinel shown for a classification that has never been received. */
  const UnknownLabel: string := "Unknown"

  const InitialData: SensorData := SensorData(NoReading, NoReading, NoReading, NoReading, UnknownLabel)

  /** The value of one field of the record. */
  function Get(d: SensorData, f: Field): string {
    match f
    case Reading(Temperature) => d.temperature
    case Reading(Humidity) => d.humidity
    case Reading(Light) => d.light
    case Reading(Moisture) => d.moisture
    case Classification => d.classification
  }

  /** The per-topic updater `prev => ({ ...prev, field: value })`:
      the record with one field replaced and every other field copied. */
  function Set(d: SensorData, f: Field, v: string): (r: SensorData)
    ensures Get(r, f) == v
    ensures forall g :: g != f ==> Get(r, g) == Get(d, g)
  {
    match f
    case Reading(Temperature) => d.(temperature := v)
    case Reading(Humidity) => d.(humidity := v)
    case Reading(Light) => d.(light := v)
    case Reading(Moisture) => d.(moisture := v)
    case Classification => d.(classification := v)
  }

  /** Two records are equal when they agree on every field. */
  lemma SensorDataExtensionality(d: SensorData, e: SensorData)
    requires forall f :: Get(d, f) == Get(e, f)
    ensures d == e
  {
    assert Get(d, Reading(Temperature)) == Get(e, Reading(Temperature));
    assert Get(d, Reading(Humidity)) == Get(e, Reading(Humidity));
    assert Get(d, Reading(Light)) == Get(e, Reading(Light));
    assert Get(d, Reading(Moisture)) == Get(e, Reading(Moisture));
    assert Get(d, Classification) == Get(e, Classification);
  }

  /** Every metric starts at "--" and the classification at "Unknown". */
  lemma InitialDataSentinels()
    ensures forall m :: Get(InitialData, Reading(m)) == NoReading
    ensures Get(InitialData, Classification) == UnknownLabel
  {
  }

  const TempTopic: string := "/ThinkIOT/temp"
  const HumTopic: string := "/ThinkIOT/hum"
  const LightTopic: string := "/ThinkIOT/light"
  const MoistTopic: string := "/ThinkIOT/moist"
  const ClassificationTopic: string := "/ThinkIOT/classification"

  /** The topic switch of the message handler: the field a topic writes, if any.
      Exactly the subscribed topics are routed, each to the field whose topic it is. */
  function Route(topic: string): (r: Option<Field>)
    ensures r.Some? <==> topic in SubscribedTopics
    ensures r.Some? ==> TopicOf(r.value) == topic
  {
    if topic == TempTopic then Some(Reading(Temperature))
    else if topic == HumTopic then Some(Reading(Humidity))
    else if topic == LightTopic then Some(Reading(Light))
    else if topic == MoistTopic then Some(Reading(Moisture))
    else if topic == ClassificationTopic then Some(Classification)
    else None
  }

  /** The topic that carries a field. */
  function TopicOf(f: Field): string {
    match f
    case Reading(Temperature) => TempTopic
    case Reading(Humidity) => HumTopic
    case Reading(Light) => LightTopic
    case Reading(Moisture) => MoistTopic
    case Classification => ClassificationTopic
  }

  /** The routing table is a bijection between the five topics and the five fields. */
  lemma RouteInvertsTopicOf(t: string, f: Field)
    ensures Route(TopicOf(f)) == Some(f)
    ensures Route(t) == Some(f) <==> t == TopicOf(f)
  {
  }

  /** The topics the connect handler subscribes to, in the order it subscribes. */
  const SubscribedTopics: seq<string> := [TempTopic, HumTopic, LightTopic, MoistTopic, ClassificationTopic]

  /** The subscriptions coincide with the routing table: five distinct topics,
      each routed to a field, every field reachable from one of them. */
  lemma SubscriptionsMatchRouting(t: string)
    ensures |SubscribedTopics| == 5
    ensures forall i, j :: 0 <= i < j < |SubscribedTopics| ==> SubscribedTopics[i] != SubscribedTopics[j]
    ensures t in SubscribedTopics <==> Route(t).Some?
    ensures forall f :: TopicOf(f) in SubscribedTopics
  {
  }

  /** The message handler's effect on the record: a known topic overwrites its
      field with the payload, an unknown topic leaves the record as it was. */
  function ApplyMessage(d: SensorData, topic: string, payload: string): (r: SensorData)
    ensures forall f :: Get(r, f) == (if Route(topic) == Some(f) then payload else Get(d, f))
    ensures Route(topic).None? ==> r == d
  {
    match Route(topic)
    case None => d
    case Some(f) => Set(d, f, payload)
  }

  /** A message changes at most one field: whenever two fields both change, they are the same field. */
  lemma MessageChangesAtMostOneField(d: SensorData, topic: string, payload: string, f: Field, g: Field)
    requires Get(ApplyMessage(d, topic, payload), f) != Get(d, f)
    requires Get(ApplyMessage(d, topic, payload), g) != Get(d, g)
    ensures f == g && Route(topic) == Some(f)
  {
  }

  /** Events the broker client delivers to the dashboard's callbacks. */
  datatype Event = Connect | Error | Message(topic: string, payload: string)

  /** Everything the dashboard shows: the readings record and the connected flag. */
  datatype Snapshot = Snapshot(data: SensorData, connected: bool)

  const Initial: Snapshot := Snapshot(InitialData, false)

  /** One callback invocation. */
  function Step(s: Snapshot, e: Event): (r: Snapshot)
    ensures e.Connect? ==> r.connected
    ensures e.Error? ==> !r.connected
    ensures r.connected != s.connected ==> !e.Message?
    ensures !e.Message? ==> r.data == s.data
    ensures e.Message? ==> forall f :: Get(r.data, f) == (if Route(e.topic) == Some(f) then e.payload else Get(s.data, f))
  {
    match e
    case Connect => s.(connected := true)
    case Error => s.(connected := false)
    case Message(topic, payload) => s.(data := ApplyMessage(s.data, topic, payload))
  }

  /** The events in arrival order, applied one after the other. */
  function Run(s: Snapshot, es: seq<Event>): Snapshot
    decreases |es|
  {
    if es == [] then s else Run(Step(s, es[0]), es[1..])
  }

  lemma {:induction false} RunAppend(s: Snapshot, es: seq<Event>, e: Event)
    ensures Run(s, es + [e]) == Step(Run(s, es), e)
    decreases |es|
  {
    if es == [] {
      assert es + [e] == [e];
    } else {
      assert (es + [e])[1..] == es[1..] + [e];
      RunAppend(Step(s, es[0]), es[1..], e);
    }
  }

  /** Reference definition of "last arrival wins": the payload of the last message
      routed to `f`, or `default` when no message is. */
  function LatestPayload(es: seq<Event>, f: Field, default: string): string
    decreases |es|
  {
    if es == [] then default
    else
      var e := es[|es| - 1];
      if e.Message? && Route(e.topic) == Some(f) then e.payload
      else LatestPayload(es[..|es| - 1], f, default)
  }

  /** After any event sequence every field holds the payload of the last message on its topic,
      and a field no message reached keeps its old value. */
  lemma {:induction false} LastArrivalWins(s: Snapshot, es: seq<Event>, f: Field)
    ensures Get(Run(s, es).data, f) == LatestPayload(es, f, Get(s.data, f))
    decreases |es|
  {
    if es != [] {
      var init, e := es[..|es| - 1], es[|es| - 1];
      assert es == init + [e];
      RunAppend(s, init, e);
      LastArrivalWins(s, init, f);
    }
  }

  /** Reference definition of the connected flag: set by the last connect or error event, if any. */
  function LatestConnectivity(es: seq<Event>, default: bool): bool
    decreases |es|
  {
    if es == [] then default
    else
      var e := es[|es| - 1];
      if e.Connect? then true
      else if e.Error? then false
      else LatestConnectivity(es[..|es| - 1], default)
  }

  /** The connected flag follows the last connect or error event; messages never move it. */
  lemma {:induction false} ConnectivityFollowsLifecycle(s: Snapshot, es: seq<Event>)
    ensures Run(s, es).connected == LatestConnectivity(es, s.connected)
    decreases |es|
  {
    if es != [] {
      var init, e := es[..|es| - 1], es[|es| - 1];
      assert es == init + [e];
      RunAppend(s, init, e);
      ConnectivityFollowsLifecycle(s, init);
    }
  }

  /** Connection events never touch the readings: a sequence of connects and errors
      leaves the record exactly as it was (stale readings stay visible). */
  lemma {:induction false} LifecycleKeepsReadings(s: Snapshot, es: seq<Event>)
    requires forall i :: 0 <= i < |es| ==> !es[i].Message?
    ensures Run(s, es).data == s.data
    decreases |es|
  {
    if es != [] {
      LifecycleKeepsReadings(Step(s, es[0]), es[1..]);
    }
  }

  /** The event sequence without its messages on topics outside the routing table. */
  function KnownOnly(es: seq<Event>): (r: seq<Event>)
    ensures |r| <= |es|
    ensures forall e :: e in r ==> e in es && !(e.Message? && Route(e.topic).None?)
    decreases |es|
  {
    if es == [] then []
    else if es[0].Message? && Route(es[0].topic).None? then KnownOnly(es[1..])
    else [es[0]] + KnownOnly(es[1..])
  }

  /** Messages on topics outside the routing table can be dropped without changing the outcome. */
  lemma {:induction false} UnknownTopicsIgnored(s: Snapshot, es: seq<Event>)
    ensures Run(s, KnownOnly(es)) == Run(s, es)
    decreases |es|
  {
    if es != [] {
      UnknownTopicsIgnored(Step(s, es[0]), es[1..]);
      if es[0].Message? && Route(es[0].topic).None? {
        UnknownTopicsIgnored(s, es[1..]);
      } else {
        var r := [es[0]] + KnownOnly(es[1..]);
        assert r[0] == es[0] && r[1..] == KnownOnly(es[1..]);
      }
    }
  }

  /** connect, then a temperature and a humidity reading. */
  lemma ConnectThenTwoReadings()
    ensures Run(Initial, [Connect, Message(TempTopic, "22.3"), Message(HumTopic, "55")])
         == Snapshot(SensorData("22.3", "55", "--", "--", "Unknown"), true)
  {
    var es := [Connect, Message(TempTopic, "22.3"), Message(HumTopic, "55")];
    var s1 := Step(Initial, Connect);
    var s2 := Step(s1, Message(TempTopic, "22.3"));
    var s3 := Step(s2, Message(HumTopic, "55"));
    assert es[1..] == [Message(TempTopic, "22.3"), Message(HumTopic, "55")];
    assert es[1..][1..] == [Message(HumTopic, "55")];
    assert es[1..][1..][1..] == [];
    assert Run(Initial, es) == Run(s1, es[1..]) == Run(s2, es[1..][1..]) == Run(s3, []);
    SensorDataExtensionality(s3.data, SensorData("22.3", "55", "--", "--", "Unknown"));
  }

  /** A reading that arrives after an error still updates the record while the flag stays false. */
  lemma ReadingAfterError()
    ensures Run(Initial, [Connect, Error, Message(TempTopic, "19")])
         == Snapshot(SensorData("19", "--", "--", "--", "Unknown"), false)
  {
    var es := [Connect, Error, Message(TempTopic, "19")];
    var s1 := Step(Initial, Connect);
    var s2 := Step(s1, Error);
    var s3 := Step(s2, Message(TempTopic, "19"));
    assert es[1..] == [Error, Message(TempTopic, "19")];
    assert es[1..][1..] == [Message(TempTopic, "19")];
    assert es[1..][1..][1..] == [];
    assert Run(Initial, es) == Run(s1, es[1..]) == Run(s2, es[1..][1..]) == Run(s3, []);
    SensorDataExtensionality(s3.data, SensorData("19", "--", "--", "--", "Unknown"));
  }

  /** The dashboard component's two state cells and its client callbacks. */
  class SensorDashboard {
    var sensorData: SensorData
    var connected: bool

    function Current(): Snapshot
      reads this
    {
      Snapshot(sensorData, connected)
    }

    /** Mounting: both state cells hold their initial values. */
    constructor ()
      ensures Current() == Initial
    {
      sensorData := InitialData;
      connected := false;
    }

    /** The "connect" callback: raises the flag and returns the topics it subscribes to. */
    method OnConnect() returns (subscriptions: seq<string>)
      modifies this`connected
      ensures Current() == Step(old(Current()), Connect)
      ensures connected && sensorData == old(sensorData)
      ensures subscriptions == SubscribedTopics
    {
      connected := true;
      subscriptions := [];
      subscriptions := subscriptions + [TempTopic];
      subscriptions := subscriptions + [HumTopic];
      subscriptions := subscriptions + [LightTopic];
      subscriptions := subscriptions + [MoistTopic];
      subscriptions := subscriptions + [ClassificationTopic];
    }

    /** The "message" callback: the topic switch, each case replacing one field. */
    method OnMessage(topic: string, message: string)
      modifies this`sensorData
      ensures Current() == Step(old(Current()), Message(topic, message))
      ensures sensorData == ApplyMessage(old(sensorData), topic, message)
      ensures connected == old(connected)
    {
      var value := message;
      if topic == TempTopic {
        sensorData := sensorData.(temperature := value);
      } else if topic == HumTopic {
        sensorData := sensorData.(humidity := value);
      } else if topic == LightTopic {
        sensorData := sensorData.(light := value);
      } else if topic == MoistTopic {
        sensorData := sensorData.(moisture := value);
      } else if topic == ClassificationTopic {
        sensorData := sensorData.(classification := value);
      }
    }

    /** The "error" callback: lowers the flag and keeps the readings. */
    method OnError()
      modifies this`connected
      ensures Current() == Step(old(Current()), Error)
      ensures !connected && sensorData == old(sensorData)
    {
      connected := false;
    }
  }

  /** A client of the component: mount, connect, error, then a reading,
      followed through the callbacks' contracts alone. */
  method ReadingWhileDisconnected() returns (shown: Snapshot, subscribed: seq<string>)
    ensures shown == Snapshot(SensorData("19", "--", "--", "--", "Unknown"), false)
    ensures subscribed == SubscribedTopics
  {
    var dashboard := new SensorDashboard();
    subscribed := dashboard.OnConnect();
    dashboard.OnError();
    dashboard.OnMessage(TempTopic, "19");
    dashboard.OnMessage("/ThinkIOT/pressure", "1013");
    shown := dashboard.Current();
  }
}
