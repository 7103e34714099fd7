/** The client object: the connection URL it is created with, the message
    listeners it accumulates (appended on every subscription, never removed)
    and the transport actions it issues, each public operation stated as the
    actions and the listener it adds. */
module Client {
  import opened Values
  import opened Topics
  import opened Dispatcher

  /** The options given at construction. The logging flag is not modelled. */
  datatype ClientOptions = ClientOptions(
    appVersionName: string,
    token: string,
    connectionUrl: Option<string>,
    hostname: Option<string>,
    port: Option<int>)

  const DefaultPort := 1883
  const MissingEndpoint := "Either hostname or connectionUrl must be specified"

  /** `${options.port || 1883}`: an absent or zero port falls back to the default. */
  function PortText(port: Option<int>): string {
    IntToString(if port.Some? && port.value != 0 then port.value else DefaultPort)
  }

  /** The URL the transport is opened with; the error is what the constructor throws. */
  function GetConnectionUrl(options: ClientOptions): (r: Result<string, string>)
    ensures r.Failure? <==> !Truthy(options.hostname) && !Truthy(options.connectionUrl)
    ensures r.Failure? ==> r.error == MissingEndpoint
    ensures Truthy(options.hostname) ==>
              r.Success? && StartsWith(r.value, "mqtt://" + options.hostname.value + ":")
    ensures !Truthy(options.hostname) && Truthy(options.connectionUrl) ==> r == Success(options.connectionUrl.value)
  {
    var prefix := "mqtt://" + (if options.hostname.Some? then options.hostname.value else "") + ":";
    if Truthy(options.hostname) then
      assert (prefix + PortText(options.port))[..|prefix|] == prefix;
      Success(prefix + PortText(options.port))
    else if Truthy(options.connectionUrl) then Success(options.connectionUrl.value)
    else Failure(MissingEndpoint)
  }

  /** A hostname takes precedence: the connection URL option is then irrelevant. */
  lemma HostnameTakesPrecedence(options: ClientOptions, otherUrl: Option<string>)
    requires Truthy(options.hostname)
    ensures GetConnectionUrl(options) == GetConnectionUrl(options.(connectionUrl := otherUrl))
  {
  }

  /** Without a (truthy) port, the URL ends in the default MQTT port 1883. */
  lemma DefaultPortUrl(options: ClientOptions)
    requires Truthy(options.hostname)
    requires options.port == None || options.port == Some(0)
    ensures GetConnectionUrl(options) == Success("mqtt://" + options.hostname.value + ":1883")
  {
    assert NatToString(1883) == NatToString(188) + ['3'];
    assert NatToString(188) == NatToString(18) + ['8'];
    assert NatToString(18) == NatToString(1) + ['8'];
    assert NatToString(1883) == "1883";
    assert PortText(options.port) == "1883";
    var h := options.hostname.value;
    assert "mqtt://" + h + ":" + "1883" == "mqtt://" + h + ":1883";
  }

  /** An explicit non-zero port is rendered in decimal after the hostname. */
  lemma ExplicitPortUrl(options: ClientOptions)
    requires Truthy(options.hostname)
    requires options.port.Some? && options.port.value != 0
    ensures GetConnectionUrl(options) == Success("mqtt://" + options.hostname.value + ":" + IntToString(options.port.value))
    ensures options.port.value > 0 ==>
              GetConnectionUrl(options) == Success("mqtt://" + options.hostname.value + ":" + NatToString(options.port.value))
  {
    assert PortText(options.port) == IntToString(options.port.value);
  }

  /** Two different positive ports on the same hostname give two different URLs. */
  lemma DistinctPortsDistinctUrls(options: ClientOptions, p1: nat, p2: nat)
    requires Truthy(options.hostname)
    requires 0 < p1 && 0 < p2 && p1 != p2
    ensures GetConnectionUrl(options.(port := Some(p1))) != GetConnectionUrl(options.(port := Some(p2)))
  {
    var prefix := "mqtt://" + options.hostname.value + ":";
    ExplicitPortUrl(options.(port := Some(p1)));
    ExplicitPortUrl(options.(port := Some(p2)));
    NatToStringInjective(p1, p2);
    assert (prefix + NatToString(p1))[|prefix|..] == NatToString(p1);
    assert (prefix + NatToString(p2))[|prefix|..] == NatToString(p2);
  }

  /** An encoded payload: `JSON.stringify` of a value (kept opaque), or raw text. */
  datatype Payload = Stringified(value: Json) | Raw(text: string)

  /** What the client asks of the transport. */
  datatype Action =
    | Publish(topic: string, payload: Payload)
    | Subscribe(filter: string)
    | Reconnect   // client.connect()
    | End         // client.end()

  /** The topic filters of the subscriptions in a trace, in order. */
  function Subscriptions(trace: seq<Action>): seq<string> {
    if trace == [] then []
    else (if trace[0].Subscribe? then [trace[0].filter] else []) + Subscriptions(trace[1..])
  }

  lemma {:induction false} SubscriptionsConcat(a: seq<Action>, b: seq<Action>)
    ensures Subscriptions(a + b) == Subscriptions(a) + Subscriptions(b)
  {
    if a == [] {
      assert a + b == b;
    } else {
      assert (a + b)[0] == a[0] && (a + b)[1..] == a[1..] + b;
      SubscriptionsConcat(a[1..], b);
    }
  }

  /** The single-level wildcard filter each listener subscribes with. */
  function Wildcards(ls: seq<Listener>): seq<string> {
    seq(|ls|, i requires 0 <= i < |ls| => ls[i].baseTopic + "/+")
  }

  /** `keys` as the JSON array `JSON.stringify` is given. */
  function StringArray(keys: seq<string>): Json {
    JArray(seq(|keys|, i requires 0 <= i < |keys| => JString(keys[i])))
  }

  /** The caller's callback passed through unchanged. */
  function Forwarding(callback: Option<CallbackId>): Option<Handler> {
    if callback.Some? then Some(Forward(callback.value)) else None
  }

  /** A request id argument with its default, `randomInt(1, 100).toString()`,
      given the number drawn. */
  function DefaultedId(requestId: Option<string>, drawn: nat): string {
    if requestId.Some? then requestId.value else NatToString(drawn)
  }

  class KaaMqttClient {
    const appVersionName: string
    const token: string
    /** The URL the transport was opened with. */
    const url: string
    /** The message listeners, in registration order. */
    var listeners: seq<Listener>
    /** Every transport action issued so far, in order. */
    var trace: seq<Action>

    /** Every listener has had its wildcard subscription issued, once and in
        registration order, and nothing else was subscribed. */
    ghost predicate Valid()
      reads this
    {
      Subscriptions(trace) == Wildcards(listeners)
    }

    constructor (appVersionName: string, token: string, url: string)
      ensures this.appVersionName == appVersionName && this.token == token && this.url == url
      ensures listeners == [] && trace == []
      ensures Valid()
    {
      this.appVersionName := appVersionName;
      this.token := token;
      this.url := url;
      listeners := [];
      trace := [];
    }

    /** The constructor: fails, before the transport is touched, when neither a
        hostname nor a connection URL is given. */
    static method Create(options: ClientOptions) returns (r: Result<KaaMqttClient, string>)
      ensures r.Failure? <==> GetConnectionUrl(options).Failure?
      ensures r.Failure? ==> r.error == MissingEndpoint
      ensures r.Success? ==>
                && fresh(r.value) && r.value.Valid()
                && r.value.url == GetConnectionUrl(options).value
                && r.value.appVersionName == options.appVersionName && r.value.token == options.token
                && r.value.listeners == [] && r.value.trace == []
    {
      var u := GetConnectionUrl(options);
      if u.Failure? {
        return Failure(u.error);
      }
      var c := new KaaMqttClient(options.appVersionName, options.token, u.value);
      return Success(c);
    }

    /** Issues one transport action other than a subscription. */
    method Emit(a: Action)
      requires Valid() && !a.Subscribe?
      modifies this
      ensures Valid()
      ensures trace == old(trace) + [a] && listeners == old(listeners)
    {
      SubscriptionsConcat(trace, [a]);
      assert Subscriptions([a]) == [] + Subscriptions([]);
      trace := trace + [a];
    }

    /** Subscribes to `baseTopic/+` and appends a listener, whatever handlers are
        given, leaving the listeners already there untouched. */
    method SubscribeToResponseTopics(baseTopic: string, onStatus: Option<Handler>, onError: Option<CallbackId>)
      requires Valid()
      modifies this
      ensures Valid()
      ensures trace == old(trace) + [Subscribe(baseTopic + "/+")]
      ensures listeners == old(listeners) + [Listener(baseTopic, onStatus, onError)]
    {
      var l := Listener(baseTopic, onStatus, onError);
      SubscriptionsConcat(trace, [Subscribe(baseTopic + "/+")]);
      assert Subscriptions([Subscribe(baseTopic + "/+")]) == [baseTopic + "/+"] + Subscriptions([]);
      assert Wildcards(listeners + [l]) == Wildcards(listeners) + [baseTopic + "/+"];
      trace := trace + [Subscribe(baseTopic + "/+")];
      listeners := listeners + [l];
    }

    method PublishDataCollection(samples: Json, callback: Option<CallbackId>, errorCallback: Option<CallbackId>,
                                 requestId: Option<string>)
      requires Valid()
      modifies this
      ensures Valid()
      ensures var topic := Topic(Telemetry(requestId), appVersionName, token);
              && trace == old(trace) + [Publish(topic, Stringified(samples)), Subscribe(topic + "/+")]
              && listeners == old(listeners) + [Listener(topic, Forwarding(callback), errorCallback)]
    {
      var topic := Topic(Telemetry(requestId), appVersionName, token);
      Emit(Publish(topic, Stringified(samples)));
      SubscribeToResponseTopics(topic, Forwarding(callback), errorCallback);
    }

    /** A plain sample is published as its text (a number as its `toString()`). */
    method PublishPlainDataSample(metricName: string, sample: string, callback: Option<CallbackId>,
                                  errorCallback: Option<CallbackId>, requestId: Option<string>)
      requires Valid()
      modifies this
      ensures Valid()
      ensures var topic := Topic(PlainTelemetry(metricName, requestId), appVersionName, token);
              && trace == old(trace) + [Publish(topic, Raw(sample)), Subscribe(topic + "/+")]
              && listeners == old(listeners) + [Listener(topic, Forwarding(callback), errorCallback)]
    {
      var topic := Topic(PlainTelemetry(metricName, requestId), appVersionName, token);
      Emit(Publish(topic, Raw(sample)));
      SubscribeToResponseTopics(topic, Forwarding(callback), errorCallback);
    }

    /** Subscribes before publishing; `drawn` is the value `randomInt(1, 100)` returned. */
    method GetAllMetadataKeys(callback: Option<CallbackId>, errorCallback: Option<CallbackId>,
                              requestId: Option<string>, drawn: nat)
      requires requestId.None? ==> 1 <= drawn < 100
      requires Valid()
      modifies this
      ensures Valid()
      ensures var topic := Topic(MetadataGetKeys(DefaultedId(requestId, drawn)), appVersionName, token);
              && trace == old(trace) + [Subscribe(topic + "/+"), Publish(topic, Raw(""))]
              && listeners == old(listeners)
                   + [Listener(topic, if callback.Some? then Some(KeysOrEmpty(callback.value)) else None, errorCallback)]
    {
      var topic := Topic(MetadataGetKeys(DefaultedId(requestId, drawn)), appVersionName, token);
      SubscribeToResponseTopics(topic, if callback.Some? then Some(KeysOrEmpty(callback.value)) else None, errorCallback);
      Emit(Publish(topic, Raw("")));
    }

    method GetMetadata(callback: Option<CallbackId>, errorCallback: Option<CallbackId>,
                       requestId: Option<string>, drawn: nat)
      requires requestId.None? ==> 1 <= drawn < 100
      requires Valid()
      modifies this
      ensures Valid()
      ensures var topic := Topic(MetadataGet(DefaultedId(requestId, drawn)), appVersionName, token);
              && trace == old(trace) + [Publish(topic, Raw("")), Subscribe(topic + "/+")]
              && listeners == old(listeners)
                   + [Listener(topic, if callback.Some? then Some(IfTruthy(callback.value)) else None, errorCallback)]
    {
      var topic := Topic(MetadataGet(DefaultedId(requestId, drawn)), appVersionName, token);
      Emit(Publish(topic, Raw("")));
      SubscribeToResponseTopics(topic, if callback.Some? then Some(IfTruthy(callback.value)) else None, errorCallback);
    }

    method PublishMetadata(payload: Json, callback: Option<CallbackId>, errorCallback: Option<CallbackId>,
                           requestId: Option<string>)
      requires Valid()
      modifies this
      ensures Valid()
      ensures var topic := Topic(MetadataUpdate(requestId), appVersionName, token);
              && trace == old(trace) + [Publish(topic, Stringified(payload)), Subscribe(topic + "/+")]
              && listeners == old(listeners) + [Listener(topic, Forwarding(callback), errorCallback)]
    {
      var topic := Topic(MetadataUpdate(requestId), appVersionName, token);
      Emit(Publish(topic, Stringified(payload)));
      SubscribeToResponseTopics(topic, Forwarding(callback), errorCallback);
    }

    /** Always publishes; listens for the reply only when a request id and both
        callbacks are given. */
    method PublishMetadataKeys(metadata: Json, callback: Option<CallbackId>, errorCallback: Option<CallbackId>,
                               requestId: Option<string>)
      requires Valid()
      modifies this
      ensures Valid()
      ensures var topic := Topic(MetadataUpdateKeys(requestId), appVersionName, token);
              var listens := Truthy(requestId) && callback.Some? && errorCallback.Some?;
              && trace == old(trace) + [Publish(topic, Stringified(metadata))]
                                     + (if listens then [Subscribe(topic + "/+")] else [])
              && listeners == old(listeners)
                                + (if listens then [Listener(topic, Forwarding(callback), errorCallback)] else [])
    {
      var topic := Topic(MetadataUpdateKeys(requestId), appVersionName, token);
      Emit(Publish(topic, Stringified(metadata)));
      if Truthy(requestId) && callback.Some? && errorCallback.Some? {
        SubscribeToResponseTopics(topic, Forwarding(callback), errorCallback);
      }
    }

    method DeleteMetadataKeys(keys: seq<string>, callback: Option<CallbackId>, errorCallback: Option<CallbackId>,
                              requestId: Option<string>)
      requires Valid()
      modifies this
      ensures Valid()
      ensures var topic := Topic(MetadataDeleteKeys(requestId), appVersionName, token);
              && trace == old(trace) + [Publish(topic, Stringified(StringArray(keys))), Subscribe(topic + "/+")]
              && listeners == old(listeners) + [Listener(topic, Forwarding(callback), errorCallback)]
    {
      var topic := Topic(MetadataDeleteKeys(requestId), appVersionName, token);
      Emit(Publish(topic, Stringified(StringArray(keys))));
      SubscribeToResponseTopics(topic, Forwarding(callback), errorCallback);
    }

    /** Only subscribes: nothing is published. The callback is handed the
        request topic and a report handler bound to `commandType`. */
    method GetPendingCommands(commandType: string, callback: Option<CallbackId>, errorCallback: Option<CallbackId>)
      requires Valid()
      modifies this
      ensures Valid()
      ensures var topic := Topic(CommandGet(commandType), appVersionName, token);
              && trace == old(trace) + [Subscribe(topic + "/+")]
              && listeners == old(listeners)
                   + [Listener(topic, if callback.Some? then Some(WithCommandReport(callback.value, topic, commandType)) else None,
                               errorCallback)]
    {
      var topic := Topic(CommandGet(commandType), appVersionName, token);
      SubscribeToResponseTopics(topic, if callback.Some? then Some(WithCommandReport(callback.value, topic, commandType)) else None,
                                errorCallback);
    }

    /** The success side is always present, as a callback that does nothing. */
    method ReportCommandExecutionResult(commandType: string, results: Json, errorCallback: Option<CallbackId>,
                                        requestId: Option<string>)
      requires Valid()
      modifies this
      ensures Valid()
      ensures var topic := Topic(CommandReport(commandType, requestId), appVersionName, token);
              && trace == old(trace) + [Publish(topic, Stringified(results)), Subscribe(topic + "/+")]
              && listeners == old(listeners) + [Listener(topic, Some(Ignore), errorCallback)]
    {
      var topic := Topic(CommandReport(commandType, requestId), appVersionName, token);
      Emit(Publish(topic, Stringified(results)));
      SubscribeToResponseTopics(topic, Some(Ignore), errorCallback);
    }

    /** `payload` defaults to `{}`. */
    method GetConfigurationJson(payload: Option<Json>, callback: Option<CallbackId>, errorCallback: Option<CallbackId>,
                                requestId: Option<string>)
      requires Valid()
      modifies this
      ensures Valid()
      ensures var topic := Topic(ConfigGet(requestId), appVersionName, token);
              && trace == old(trace)
                          + [Publish(topic, Stringified(if payload.Some? then payload.value else JObject([]))),
                             Subscribe(topic + "/+")]
              && listeners == old(listeners)
                   + [Listener(topic, if callback.Some? then Some(WithConfigurationReport(callback.value)) else None,
                               errorCallback)]
    {
      var topic := Topic(ConfigGet(requestId), appVersionName, token);
      Emit(Publish(topic, Stringified(if payload.Some? then payload.value else JObject([]))));
      SubscribeToResponseTopics(topic, if callback.Some? then Some(WithConfigurationReport(callback.value)) else None,
                                errorCallback);
    }

    method ReportAppliedConfiguration(payload: Json, callback: Option<CallbackId>, errorCallback: Option<CallbackId>,
                                      requestId: Option<string>)
      requires Valid()
      modifies this
      ensures Valid()
      ensures var topic := Topic(ConfigApply(requestId), appVersionName, token);
              && trace == old(trace) + [Publish(topic, Stringified(payload)), Subscribe(topic + "/+")]
              && listeners == old(listeners) + [Listener(topic, Forwarding(callback), errorCallback)]
    {
      var topic := Topic(ConfigApply(requestId), appVersionName, token);
      Emit(Publish(topic, Stringified(payload)));
      SubscribeToResponseTopics(topic, Forwarding(callback), errorCallback);
    }

    method ReportCurrentSoftwareVersion(payload: Json, callback: Option<CallbackId>, errorCallback: Option<CallbackId>)
      requires Valid()
      modifies this
      ensures Valid()
      ensures var topic := Topic(FirmwareReport, appVersionName, token);
              && trace == old(trace) + [Publish(topic, Stringified(payload)), Subscribe(topic + "/+")]
              && listeners == old(listeners) + [Listener(topic, Forwarding(callback), errorCallback)]
    {
      var topic := Topic(FirmwareReport, appVersionName, token);
      Emit(Publish(topic, Stringified(payload)));
      SubscribeToResponseTopics(topic, Forwarding(callback), errorCallback);
    }

    method GetSoftwareUpdate(callback: Option<CallbackId>, errorCallback: Option<CallbackId>, requestId: Option<string>)
      requires Valid()
      modifies this
      ensures Valid()
      ensures var topic := Topic(FirmwareGet(requestId), appVersionName, token);
              && trace == old(trace) + [Publish(topic, Stringified(JObject([]))), Subscribe(topic + "/+")]
              && listeners == old(listeners) + [Listener(topic, Forwarding(callback), errorCallback)]
    {
      var topic := Topic(FirmwareGet(requestId), appVersionName, token);
      Emit(Publish(topic, Stringified(JObject([]))));
      SubscribeToResponseTopics(topic, Forwarding(callback), errorCallback);
    }

    /** Calling a report handler handed to a callback: the command report reports
        for the command type it was bound to, the configuration report passes no
        callback; neither appends a request id. */
    method InvokeReport(handler: ReportHandler, value: Json, errorCallback: Option<CallbackId>)
      requires Valid()
      modifies this
      ensures Valid()
      ensures handler.CommandReportHandler? ==>
                var topic := Topic(CommandReport(handler.commandType, None), appVersionName, token);
                && trace == old(trace) + [Publish(topic, Stringified(value)), Subscribe(topic + "/+")]
                && listeners == old(listeners) + [Listener(topic, Some(Ignore), errorCallback)]
      ensures handler.ConfigurationReportHandler? ==>
                var topic := Topic(ConfigApply(None), appVersionName, token);
                && trace == old(trace) + [Publish(topic, Stringified(value)), Subscribe(topic + "/+")]
                && listeners == old(listeners) + [Listener(topic, None, errorCallback)]
    {
      match handler
      case CommandReportHandler(commandType) =>
        ReportCommandExecutionResult(commandType, value, errorCallback, None);
      case ConfigurationReportHandler =>
        ReportAppliedConfiguration(value, None, errorCallback, None);
    }

    /** Ends the transport only: no unsubscription, and every listener stays. */
    method Disconnect()
      requires Valid()
      modifies this
      ensures Valid()
      ensures trace == old(trace) + [End] && listeners == old(listeners)
    {
      Emit(End);
    }

    method Connect()
      requires Valid()
      modifies this
      ensures Valid()
      ensures trace == old(trace) + [Reconnect] && listeners == old(listeners)
    {
      Emit(Reconnect);
    }
  }

  /** Every subscription filter is a listener's base topic with the single-level
      wildcard, one per listener. */
  lemma SubscriptionPerListener(trace: seq<Action>, ls: seq<Listener>, i: nat)
    requires Subscriptions(trace) == Wildcards(ls)
    requires i < |ls|
    ensures |Subscriptions(trace)| == |ls|
    ensures Subscriptions(trace)[i] == ls[i].baseTopic + "/+"
  {
  }

  /** A status reply to the pending-commands request reaches the callback with
      the request topic and a report handler for the same command type. */
  lemma PendingCommandsReply(ls: seq<Listener>, app: string, token: string, commandType: string,
                             cb: CallbackId, errorCallback: Option<CallbackId>, message: string,
                             decode: string -> Option<Json>)
    ensures var topic := Topic(CommandGet(commandType), app, token);
            var l := Listener(topic, Some(WithCommandReport(cb, topic, commandType)), errorCallback);
            Dispatch(ls + [l], topic + StatusSuffix, message, decode)
              == Dispatch(ls, topic + StatusSuffix, message, decode)
                 + [StatusCall(cb, SafeJson(decode(message)), topic, Some(CommandReportHandler(commandType)))]
  {
    var topic := Topic(CommandGet(commandType), app, token);
    var l := Listener(topic, Some(WithCommandReport(cb, topic, commandType)), errorCallback);
    ReplyToNewListener(ls, l, message, decode);
  }

  /** A status reply to the configuration request reaches the callback with the
      reply topic and the handler that reports the applied configuration. */
  lemma ConfigurationReply(ls: seq<Listener>, app: string, token: string, requestId: Option<string>,
                           cb: CallbackId, errorCallback: Option<CallbackId>, message: string,
                           decode: string -> Option<Json>)
    ensures var topic := Topic(ConfigGet(requestId), app, token);
            var l := Listener(topic, Some(WithConfigurationReport(cb)), errorCallback);
            Dispatch(ls + [l], topic + StatusSuffix, message, decode)
              == Dispatch(ls, topic + StatusSuffix, message, decode)
                 + [StatusCall(cb, SafeJson(decode(message)), topic + StatusSuffix, Some(ConfigurationReportHandler))]
  {
    var topic := Topic(ConfigGet(requestId), app, token);
    var l := Listener(topic, Some(WithConfigurationReport(cb)), errorCallback);
    ReplyToNewListener(ls, l, message, decode);
  }

  /** The command report publishes under the same command type as the request,
      with `result` in place of `command` and no request id. */
  lemma CommandReportTopic(app: string, token: string, commandType: string)
    ensures var prefix := Root + "/" + app + "/" + Cex.Text() + "/" + token + "/";
            && Topic(CommandGet(commandType), app, token) == prefix + "command/" + commandType
            && Topic(CommandReport(commandType, None), app, token) == prefix + "result/" + commandType
  {
  }

  /** A pending-commands exchange end to end: the request subscribes only, a
      status reply reaches the callback, and its report handler publishes the
      results under the result topic of the same command type. */
  method PendingCommandsScenario(app: string, token: string, results: Json, message: string,
                                 decode: string -> Option<Json>)
  {
    var created := KaaMqttClient.Create(ClientOptions(app, token, None, Some("localhost"), None));
    assert created.Success?;
    var client := created.value;
    client.GetPendingCommands("RESET", Some(1), None);
    var topic := Topic(CommandGet("RESET"), app, token);
    var l := Listener(topic, Some(WithCommandReport(1, topic, "RESET")), None);
    assert client.listeners == [] + [l];
    assert client.trace == [Subscribe(topic + "/+")];
    var calls := Dispatch(client.listeners, topic + StatusSuffix, message, decode);
    assert calls == [StatusCall(1, SafeJson(decode(message)), topic, Some(CommandReportHandler("RESET")))] by {
      PendingCommandsReply([], app, token, "RESET", 1, None, message, decode);
      assert Dispatch([], topic + StatusSuffix, message, decode) == [];
    }
    client.InvokeReport(calls[0].report.value, results, None);
    var resultTopic := Topic(CommandReport("RESET", None), app, token);
    assert client.trace == [Subscribe(topic + "/+"), Publish(resultTopic, Stringified(results)), Subscribe(resultTopic + "/+")];
  }

  /** Creating a client with neither a hostname nor a connection URL fails
      before any transport action. */
  method MissingEndpointScenario(app: string, token: string)
  {
    var created := KaaMqttClient.Create(ClientOptions(app, token, None, None, Some(1883)));
    assert created == Failure(MissingEndpoint);
  }
}
