/** The message listeners the client accumulates and what each of them does with
    an inbound message: a listener reacts to every topic that starts with its
    base topic (a plain string prefix), calls the success side on `/status`,
    the error side on `/error`, and ignores every other topic. */
module Dispatcher {
  import opened Values
  import opened Topics

  /** Identifies a callback supplied by the caller of the client. */
  type CallbackId = nat

  /** The respond functions handed to a callback for a two-phase request: the
      command report carries the command type it was created for. */
  datatype ReportHandler = CommandReportHandler(commandType: string) | ConfigurationReportHandler

  /** The success side of a listener: the caller's callback passed through or
      one of the wrappers the operations put around it. */
  datatype Handler =
    | Forward(callback: CallbackId)            // the callback as given
    | KeysOrEmpty(callback: CallbackId)        // getAllMetadataKeys: a falsy payload becomes []
    | IfTruthy(callback: CallbackId)           // getMetadata: called only for a truthy payload
    | WithCommandReport(callback: CallbackId, requestTopic: string, commandType: string) // getPendingCommands
    | WithConfigurationReport(callback: CallbackId) // getConfigurationJson
    | Ignore                                   // `() => {}` in reportCommandExecutionResult

  /** One message listener: its base topic, its success handler and its error callback. */
  datatype Listener = Listener(baseTopic: string, onStatus: Option<Handler>, onError: Option<CallbackId>)

  /** One invocation of a caller's callback. */
  datatype Call =
    | StatusCall(callback: CallbackId, value: Json, topic: string, report: Option<ReportHandler>)
    | ErrorCall(callback: CallbackId, error: Json, topic: string)

  const StatusSuffix := "/status"
  const ErrorSuffix := "/error"

  lemma SuffixesExclusive(topic: string)
    ensures !(EndsWith(topic, StatusSuffix) && EndsWith(topic, ErrorSuffix))
  {
    if EndsWith(topic, StatusSuffix) {
      assert topic[|topic| - |StatusSuffix|..][6] == 's';
      assert topic[|topic| - 1] == 's';
      assert |ErrorSuffix| <= |topic|;
      assert topic[|topic| - |ErrorSuffix|..][5] != ErrorSuffix[5];
    }
  }

  /** What a success handler does with the decoded payload of a `/status` message. */
  function RunStatus(h: Handler, value: Json, topic: string): (calls: seq<Call>)
    ensures |calls| <= 1
    ensures forall c | c in calls :: c.StatusCall? && !h.Ignore? && c.callback == h.callback
    ensures h.Ignore? ==> calls == []
    ensures h.Forward? || h.KeysOrEmpty? || h.WithCommandReport? || h.WithConfigurationReport? ==> |calls| == 1
    ensures h.IfTruthy? ==> (calls != [] <==> JsonTruthy(value))
    ensures h.KeysOrEmpty? ==> JsonTruthy(calls[0].value)
    ensures forall c | c in calls :: c.value == value || (h.KeysOrEmpty? && !JsonTruthy(value) && c.value == JArray([]))
    ensures forall c | c in calls :: c.topic == (if h.WithCommandReport? then h.requestTopic else topic)
    ensures forall c | c in calls :: c.report.Some? <==> h.WithCommandReport? || h.WithConfigurationReport?
    ensures h.WithCommandReport? ==> calls[0].report == Some(CommandReportHandler(h.commandType))
    ensures h.WithConfigurationReport? ==> calls[0].report == Some(ConfigurationReportHandler)
  {
    match h
    case Forward(cb) => [StatusCall(cb, value, topic, None)]
    case KeysOrEmpty(cb) => [StatusCall(cb, if JsonTruthy(value) then value else JArray([]), topic, None)]
    case IfTruthy(cb) => if JsonTruthy(value) then [StatusCall(cb, value, topic, None)] else []
    // the wrapper ignores the reply topic and passes the request topic it closed over
    case WithCommandReport(cb, requestTopic, commandType) =>
      [StatusCall(cb, value, requestTopic, Some(CommandReportHandler(commandType)))]
    case WithConfigurationReport(cb) => [StatusCall(cb, value, topic, Some(ConfigurationReportHandler))]
    case Ignore => []
  }

  /** What one listener does with an inbound message; `decode` is the JSON
      decoder, `None` where it rejects the text. */
  function Fire(l: Listener, topic: string, message: string, decode: string -> Option<Json>): (calls: seq<Call>)
    ensures |calls| <= 1
    ensures !StartsWith(topic, l.baseTopic) ==> calls == []
    ensures !EndsWith(topic, StatusSuffix) && !EndsWith(topic, ErrorSuffix) ==> calls == []
    ensures forall c | c in calls :: c.StatusCall? ==> EndsWith(topic, StatusSuffix) && l.onStatus.Some?
    ensures forall c | c in calls :: c.ErrorCall? ==> EndsWith(topic, ErrorSuffix) && !EndsWith(topic, StatusSuffix)
    ensures StartsWith(topic, l.baseTopic) && EndsWith(topic, ErrorSuffix) ==>
              calls == if l.onError.Some? then [ErrorCall(l.onError.value, SafeJson(decode(message)), topic)] else []
    ensures StartsWith(topic, l.baseTopic) && EndsWith(topic, StatusSuffix) ==>
              calls == if l.onStatus.Some? then RunStatus(l.onStatus.value, SafeJson(decode(message)), topic) else []
  {
    SuffixesExclusive(topic);
    if !StartsWith(topic, l.baseTopic) then []
    else if EndsWith(topic, StatusSuffix) then
      match l.onStatus
      case None => []
      case Some(h) => RunStatus(h, SafeJson(decode(message)), topic)
    else if EndsWith(topic, ErrorSuffix) then
      match l.onError
      case None => []
      case Some(cb) => [ErrorCall(cb, SafeJson(decode(message)), topic)]
    else []
  }

  /** The number of listeners whose base topic is a string prefix of `topic`. */
  function MatchCount(ls: seq<Listener>, topic: string): nat {
    if ls == [] then 0
    else (if StartsWith(topic, ls[0].baseTopic) then 1 else 0) + MatchCount(ls[1..], topic)
  }

  /** The callbacks an inbound message reaches, listener by listener in registration order. */
  function Dispatch(ls: seq<Listener>, topic: string, message: string, decode: string -> Option<Json>): (calls: seq<Call>)
    ensures |calls| <= MatchCount(ls, topic)
    ensures !EndsWith(topic, StatusSuffix) && !EndsWith(topic, ErrorSuffix) ==> calls == []
  {
    if ls == [] then []
    else Fire(ls[0], topic, message, decode) + Dispatch(ls[1..], topic, message, decode)
  }

  /** Registration order: the listeners of `a` are served before those of `b`. */
  lemma {:induction false} DispatchConcat(a: seq<Listener>, b: seq<Listener>, topic: string, message: string,
                                          decode: string -> Option<Json>)
    ensures Dispatch(a + b, topic, message, decode) == Dispatch(a, topic, message, decode) + Dispatch(b, topic, message, decode)
  {
    if a == [] {
      assert a + b == b;
    } else {
      assert (a + b)[0] == a[0] && (a + b)[1..] == a[1..] + b;
      DispatchConcat(a[1..], b, topic, message, decode);
    }
  }

  /** A newly appended listener is served after every listener already there. */
  lemma DispatchAppend(ls: seq<Listener>, l: Listener, topic: string, message: string, decode: string -> Option<Json>)
    ensures Dispatch(ls + [l], topic, message, decode) == Dispatch(ls, topic, message, decode) + Fire(l, topic, message, decode)
  {
    DispatchConcat(ls, [l], topic, message, decode);
    assert Dispatch([l], topic, message, decode) == Fire(l, topic, message, decode) + Dispatch([], topic, message, decode);
  }

  /** Registering the same listener twice makes every message it reacts to reach the
      callback twice. */
  lemma DuplicateListenerFiresTwice(ls: seq<Listener>, l: Listener, topic: string, message: string,
                                    decode: string -> Option<Json>)
    ensures Dispatch(ls + [l] + [l], topic, message, decode)
         == Dispatch(ls, topic, message, decode) + Fire(l, topic, message, decode) + Fire(l, topic, message, decode)
    ensures |Dispatch(ls + [l] + [l], topic, message, decode)|
         == |Dispatch(ls, topic, message, decode)| + 2 * |Fire(l, topic, message, decode)|
  {
    DispatchAppend(ls, l, topic, message, decode);
    DispatchAppend(ls + [l], l, topic, message, decode);
  }

  /** Fan-out: a call is produced exactly when some listener produces it. */
  lemma {:induction false} DispatchMembership(ls: seq<Listener>, topic: string, message: string,
                                              decode: string -> Option<Json>, c: Call)
    ensures c in Dispatch(ls, topic, message, decode) <==>
              exists i | 0 <= i < |ls| :: c in Fire(ls[i], topic, message, decode)
  {
    if ls != [] {
      DispatchMembership(ls[1..], topic, message, decode, c);
      if c in Dispatch(ls[1..], topic, message, decode) {
        var i :| 0 <= i < |ls[1..]| && c in Fire(ls[1..][i], topic, message, decode);
        assert c in Fire(ls[i + 1], topic, message, decode);
      }
      if exists i | 0 <= i < |ls| :: c in Fire(ls[i], topic, message, decode) {
        var i :| 0 <= i < |ls| && c in Fire(ls[i], topic, message, decode);
        if i > 0 {
          assert ls[1..][i - 1] == ls[i];
        }
      }
    }
  }

  /** A message on a listener's own reply topics reaches exactly that listener's
      matching side, after whatever the earlier listeners do with it. */
  lemma ReplyToNewListener(ls: seq<Listener>, l: Listener, message: string, decode: string -> Option<Json>)
    ensures Dispatch(ls + [l], l.baseTopic + StatusSuffix, message, decode)
         == Dispatch(ls, l.baseTopic + StatusSuffix, message, decode)
            + (if l.onStatus.Some? then RunStatus(l.onStatus.value, SafeJson(decode(message)), l.baseTopic + StatusSuffix) else [])
    ensures Dispatch(ls + [l], l.baseTopic + ErrorSuffix, message, decode)
         == Dispatch(ls, l.baseTopic + ErrorSuffix, message, decode)
            + (if l.onError.Some? then [ErrorCall(l.onError.value, SafeJson(decode(message)), l.baseTopic + ErrorSuffix)] else [])
  {
    var b := l.baseTopic;
    assert (b + StatusSuffix)[..|b|] == b;
    assert (b + StatusSuffix)[|b + StatusSuffix| - |StatusSuffix|..] == StatusSuffix;
    assert (b + ErrorSuffix)[..|b|] == b;
    assert (b + ErrorSuffix)[|b + ErrorSuffix| - |ErrorSuffix|..] == ErrorSuffix;
    DispatchAppend(ls, l, b + StatusSuffix, message, decode);
    DispatchAppend(ls, l, b + ErrorSuffix, message, decode);
  }

  /** Matching is on characters, not levels: the listener of request id `1`
      also takes the reply to request id `12`. */
  lemma PrefixMatchCrossesLevels(app: string, token: string, cb: CallbackId, message: string,
                                 decode: string -> Option<Json>)
    requires JsonTruthy(SafeJson(decode(message)))
    ensures var l := Listener(Topic(MetadataGet("1"), app, token), Some(IfTruthy(cb)), None);
            var reply := Topic(MetadataGet("12"), app, token) + StatusSuffix;
            Fire(l, reply, message, decode) == [StatusCall(cb, SafeJson(decode(message)), reply, None)]
  {
    var base := Topic(MetadataGet("1"), app, token);
    var reply := Topic(MetadataGet("12"), app, token) + StatusSuffix;
    assert reply == base + "2/status";
    assert reply[..|base|] == base;
    assert reply[|reply| - |StatusSuffix|..] == StatusSuffix;
  }

  /** A status reply on any extension of a listener's base topic reaches its success side. */
  lemma StatusOnExtension(l: Listener, request: string, ext: string, message: string, decode: string -> Option<Json>)
    requires request == l.baseTopic + ext
    ensures Fire(l, request + StatusSuffix, message, decode)
              == if l.onStatus.Some? then RunStatus(l.onStatus.value, SafeJson(decode(message)), request + StatusSuffix) else []
  {
    var reply := request + StatusSuffix;
    assert reply[..|l.baseTopic|] == l.baseTopic;
    assert reply[|reply| - |StatusSuffix|..] == StatusSuffix;
  }

  /** Matching also crosses operations: a full metadata update without a request
      id takes the replies meant for every partial update, whose topics extend
      its own with `/keys`. */
  lemma PrefixMatchCrossesOperations(app: string, token: string, cb: CallbackId, requestId: string,
                                     message: string, decode: string -> Option<Json>)
    requires requestId != ""
    ensures var l := Listener(Topic(MetadataUpdate(None), app, token), Some(Forward(cb)), None);
            var reply := Topic(MetadataUpdateKeys(Some(requestId)), app, token) + StatusSuffix;
            Fire(l, reply, message, decode) == [StatusCall(cb, SafeJson(decode(message)), reply, None)]
  {
    var l := Listener(Topic(MetadataUpdate(None), app, token), Some(Forward(cb)), None);
    var request := Topic(MetadataUpdateKeys(Some(requestId)), app, token);
    PartialUpdateExtendsFullUpdate(app, token, requestId);
    StatusOnExtension(l, request, "/keys/" + requestId, message, decode);
  }

  /** A payload the decoder rejects reaches a forwarded callback as `null`, the
      keys callback as `[]`, and is dropped for the metadata callback. */
  lemma MalformedStatusPayload(base: string, cb: CallbackId, message: string, decode: string -> Option<Json>)
    requires decode(message).None?
    ensures var reply := base + StatusSuffix;
            && Fire(Listener(base, Some(Forward(cb)), None), reply, message, decode) == [StatusCall(cb, JNull, reply, None)]
            && Fire(Listener(base, Some(KeysOrEmpty(cb)), None), reply, message, decode) == [StatusCall(cb, JArray([]), reply, None)]
            && Fire(Listener(base, Some(IfTruthy(cb)), None), reply, message, decode) == []
  {
    var reply := base + StatusSuffix;
    assert reply[..|base|] == base;
    assert reply[|reply| - |StatusSuffix|..] == StatusSuffix;
  }

  /** The keys and metadata wrappers as `getAllMetadataKeys` and `getMetadata` write them: each decodes
      again the payload that was already decoded, so `JSON.parse` sees the
      value's `String(...)` rendering. */
  function RunStatusAsWritten(h: Handler, value: Json, topic: string, decode: string -> Option<Json>): (calls: seq<Call>)
    ensures h.IfTruthy? ==> (calls != [] <==> JsonTruthy(SafeJson(decode(JsToString(value)))))
    ensures h.KeysOrEmpty? || h.IfTruthy? ==> calls == RunStatus(h, SafeJson(decode(JsToString(value))), topic)
    ensures !(h.KeysOrEmpty? || h.IfTruthy?) ==> calls == RunStatus(h, value, topic)
  {
    match h
    case KeysOrEmpty(cb) =>
      var keys := SafeJson(decode(JsToString(value)));
      [StatusCall(cb, if JsonTruthy(keys) then keys else JArray([]), topic, None)]
    case IfTruthy(cb) =>
      var metadata := SafeJson(decode(JsToString(value)));
      if JsonTruthy(metadata) then [StatusCall(cb, metadata, topic, None)] else []
    case _ => RunStatus(h, value, topic)
  }

  /** Whether a listener's success side is one of the two wrappers that decode twice as written. */
  predicate DecodesTwice(l: Listener) {
    l.onStatus.Some? && (l.onStatus.value.KeysOrEmpty? || l.onStatus.value.IfTruthy?)
  }

  /** What one listener does with an inbound message, with the wrappers as written. */
  function FireAsWritten(l: Listener, topic: string, message: string, decode: string -> Option<Json>): (calls: seq<Call>)
    ensures !DecodesTwice(l) ==> calls == Fire(l, topic, message, decode)
    ensures !EndsWith(topic, StatusSuffix) ==> calls == Fire(l, topic, message, decode)
    ensures !StartsWith(topic, l.baseTopic) ==> calls == []
  {
    if StartsWith(topic, l.baseTopic) && EndsWith(topic, StatusSuffix) && l.onStatus.Some? then
      RunStatusAsWritten(l.onStatus.value, SafeJson(decode(message)), topic, decode)
    else Fire(l, topic, message, decode)
  }

  /** The callbacks an inbound message reaches with the wrappers as written. */
  function DispatchAsWritten(ls: seq<Listener>, topic: string, message: string, decode: string -> Option<Json>)
    : (calls: seq<Call>)
    ensures (forall i | 0 <= i < |ls| :: !DecodesTwice(ls[i])) ==> calls == Dispatch(ls, topic, message, decode)
    ensures !EndsWith(topic, StatusSuffix) ==> calls == Dispatch(ls, topic, message, decode)
  {
    if ls == [] then []
    else
      assert forall i | 0 <= i < |ls[1..]| :: ls[1..][i] == ls[i + 1];
      FireAsWritten(ls[0], topic, message, decode) + DispatchAsWritten(ls[1..], topic, message, decode)
  }

  lemma {:induction false} DispatchAsWrittenAppend(ls: seq<Listener>, l: Listener, topic: string, message: string,
                                                   decode: string -> Option<Json>)
    ensures DispatchAsWritten(ls + [l], topic, message, decode)
              == DispatchAsWritten(ls, topic, message, decode) + FireAsWritten(l, topic, message, decode)
  {
    if ls == [] {
      assert ls + [l] == [l];
    } else {
      assert (ls + [l])[0] == ls[0] && (ls + [l])[1..] == ls[1..] + [l];
      DispatchAsWrittenAppend(ls[1..], l, topic, message, decode);
    }
  }

  /** A whole `getMetadata` reply followed through the listeners: as written,
      the metadata object reaches no callback of the new listener; corrected,
      it reaches the metadata callback after the earlier listeners' calls. */
  lemma MetadataReplyDroppedAsWritten(ls: seq<Listener>, cb: CallbackId, onError: Option<CallbackId>, id: string,
                                      app: string, token: string, fields: seq<(string, Json)>, message: string,
                                      decode: string -> Option<Json>)
    requires decode(message) == Some(JObject(fields))
    requires decode("[object Object]").None?
    ensures var l := Listener(Topic(MetadataGet(id), app, token), Some(IfTruthy(cb)), onError);
            var reply := Topic(MetadataGet(id), app, token) + StatusSuffix;
            && DispatchAsWritten(ls + [l], reply, message, decode) == DispatchAsWritten(ls, reply, message, decode)
            && Dispatch(ls + [l], reply, message, decode)
                 == Dispatch(ls, reply, message, decode) + [StatusCall(cb, JObject(fields), reply, None)]
  {
    var base := Topic(MetadataGet(id), app, token);
    var l := Listener(base, Some(IfTruthy(cb)), onError);
    var reply := base + StatusSuffix;
    assert reply[..|base|] == base;
    assert reply[|reply| - |StatusSuffix|..] == StatusSuffix;
    DispatchAsWrittenAppend(ls, l, reply, message, decode);
    DispatchAppend(ls, l, reply, message, decode);
    MetadataObjectDroppedAsWritten(cb, fields, reply, decode);
  }

  /** As written, a metadata object never reaches the `getMetadata` callback: its
      rendering `[object Object]` is not JSON. The corrected wrapper delivers it. */
  lemma MetadataObjectDroppedAsWritten(cb: CallbackId, fields: seq<(string, Json)>, topic: string,
                                       decode: string -> Option<Json>)
    requires decode("[object Object]").None?
    ensures RunStatusAsWritten(IfTruthy(cb), JObject(fields), topic, decode) == []
    ensures RunStatus(IfTruthy(cb), JObject(fields), topic) == [StatusCall(cb, JObject(fields), topic, None)]
  {
  }

  /** As written, the key list `["a","b"]` reaches the `getAllMetadataKeys`
      callback as `[]`: its rendering `a,b` is not JSON. The corrected wrapper
      delivers the list. */
  lemma MetadataKeysLostAsWritten(cb: CallbackId, topic: string, decode: string -> Option<Json>)
    requires decode("a,b").None?
    ensures var keys := JArray([JString("a"), JString("b")]);
            && RunStatusAsWritten(KeysOrEmpty(cb), keys, topic, decode) == [StatusCall(cb, JArray([]), topic, None)]
            && RunStatus(KeysOrEmpty(cb), keys, topic) == [StatusCall(cb, keys, topic, None)]
  {
    var items := [JString("a"), JString("b")];
    var parts := seq(|items|, i requires 0 <= i < |items| =>
      if items[i].JNull? then "" else JsToString(items[i]));
    assert parts == ["a", "b"];
    assert JsToString(JArray(items)) == JoinWithCommas(parts);
    assert ["a", "b"][1..] == ["b"];
    assert JoinWithCommas(["a", "b"]) == "a" + "," + "b" == "a,b";
  }
}
