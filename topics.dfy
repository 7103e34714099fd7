/** The topic builder: every public operation of the client names the MQTT
    topic it talks on as `kp1/{appVersionName}/{serviceCode}/{token}/{actionPath}`,
    optionally followed by `/{requestId}`. */
module Topics {
  import opened Values

  /** The fixed first level of every topic. */
  const Root := "kp1"

  predicate StartsWith(s: string, prefix: string) {
    |prefix| <= |s| && s[..|prefix|] == prefix
  }

  predicate EndsWith(s: string, suffix: string) {
    |suffix| <= |s| && s[|s| - |suffix|..] == suffix
  }

  predicate NoSlash(s: string) {
    forall i | 0 <= i < |s| :: s[i] != '/'
  }

  /** The platform subsystem a topic belongs to. */
  datatype ServiceCode = Dcx | Epmx | Cex | Cmx | CmxOta {
    function Text(): string {
      match this
      case Dcx => "dcx"        // data collection
      case Epmx => "epmx"      // endpoint metadata
      case Cex => "cex"        // command execution
      case Cmx => "cmx"        // configuration management
      case CmxOta => "cmx_ota" // software (firmware) update
    }
  }

  /** One public operation of the client, with the arguments its topic is built
      from. `requestId` is the optional `requestId` argument (`undefined` is `None`);
      the two metadata reads always carry an `id`, defaulted by the caller. */
  datatype Operation =
    | Telemetry(requestId: Option<string>)                          // publishDataCollection
    | PlainTelemetry(metricName: string, requestId: Option<string>) // publishPlainDataSample
    | MetadataGetKeys(id: string)                                   // getAllMetadataKeys
    | MetadataGet(id: string)                                       // getMetadata
    | MetadataUpdate(requestId: Option<string>)                     // publishMetadata
    | MetadataUpdateKeys(requestId: Option<string>)                 // publishMetadataKeys
    | MetadataDeleteKeys(requestId: Option<string>)                 // deleteMetadataKeys
    | CommandGet(commandType: string)                               // getPendingCommands
    | CommandReport(commandType: string, requestId: Option<string>) // reportCommandExecutionResult
    | ConfigGet(requestId: Option<string>)                          // getConfigurationJson
    | ConfigApply(requestId: Option<string>)                        // reportAppliedConfiguration
    | FirmwareReport                                                // reportCurrentSoftwareVersion
    | FirmwareGet(requestId: Option<string>)                        // getSoftwareUpdate
  {
    function Service(): ServiceCode {
      match this
      case Telemetry(_) => Dcx
      case PlainTelemetry(_, _) => Dcx
      case MetadataGetKeys(_) => Epmx
      case MetadataGet(_) => Epmx
      case MetadataUpdate(_) => Epmx
      case MetadataUpdateKeys(_) => Epmx
      case MetadataDeleteKeys(_) => Epmx
      case CommandGet(_) => Cex
      case CommandReport(_, _) => Cex
      case ConfigGet(_) => Cmx
      case ConfigApply(_) => Cmx
      case FirmwareReport => CmxOta
      case FirmwareGet(_) => CmxOta
    }

    /** The action path, without any request id. */
    function ActionPath(): string {
      match this
      case Telemetry(_) => "json"
      case PlainTelemetry(metric, _) => "plain/" + metric
      case MetadataGetKeys(_) => "get/keys"
      case MetadataGet(_) => "get"
      case MetadataUpdate(_) => "update"
      case MetadataUpdateKeys(_) => "update/keys"
      case MetadataDeleteKeys(_) => "delete/keys"
      case CommandGet(commandType) => "command/" + commandType
      case CommandReport(commandType, _) => "result/" + commandType
      case ConfigGet(_) => "config/json"
      case ConfigApply(_) => "applied/json"
      case FirmwareReport => "applied/json"
      case FirmwareGet(_) => "config/json"
    }

    /** The operations whose request id is optional and appended only when truthy. */
    predicate HasOptionalId() {
      !(MetadataGetKeys? || MetadataGet? || CommandGet? || FirmwareReport?)
    }

    /** What follows the action path: `/{id}` always for the metadata reads,
        `/{requestId}` for a truthy optional id, nothing otherwise. */
    function IdSuffix(): string {
      if MetadataGetKeys? || MetadataGet? then "/" + id
      else if HasOptionalId() && Truthy(requestId) then "/" + requestId.value
      else ""
    }

    /** The levels of the action path, given independently of `ActionPath`. */
    function ActionLevels(): seq<string> {
      match this
      case Telemetry(_) => ["json"]
      case PlainTelemetry(metric, _) => ["plain", metric]
      case MetadataGetKeys(_) => ["get", "keys"]
      case MetadataGet(_) => ["get"]
      case MetadataUpdate(_) => ["update"]
      case MetadataUpdateKeys(_) => ["update", "keys"]
      case MetadataDeleteKeys(_) => ["delete", "keys"]
      case CommandGet(commandType) => ["command", commandType]
      case CommandReport(commandType, _) => ["result", commandType]
      case ConfigGet(_) => ["config", "json"]
      case ConfigApply(_) => ["applied", "json"]
      case FirmwareReport => ["applied", "json"]
      case FirmwareGet(_) => ["config", "json"]
    }

    /** The request-id level at the end of the topic, if there is one. */
    function IdLevels(): seq<string> {
      if MetadataGetKeys? || MetadataGet? then [id]
      else if HasOptionalId() && Truthy(requestId) then [requestId.value]
      else []
    }

    /** Every argument that becomes part of the topic is a single level. */
    predicate LevelsSlashFree() {
      && (PlainTelemetry? ==> NoSlash(metricName))
      && (CommandGet? || CommandReport? ==> NoSlash(commandType))
      && (MetadataGetKeys? || MetadataGet? ==> NoSlash(id))
      && (HasOptionalId() && requestId.Some? ==> NoSlash(requestId.value))
    }
  }

  /** The topic an operation publishes to (or, for `CommandGet`, subscribes under). */
  function Topic(op: Operation, app: string, token: string): string {
    Root + "/" + app + "/" + op.Service().Text() + "/" + token + "/" + op.ActionPath() + op.IdSuffix()
  }

  /** Splits a topic name into its `/`-separated levels. */
  function Split(s: string): (levels: seq<string>)
    ensures |levels| >= 1
  {
    if s == [] then [""]
    else
      var rest := Split(s[1..]);
      if s[0] == '/' then [""] + rest else [[s[0]] + rest[0]] + rest[1..]
  }

  lemma {:induction false} SplitNoSlash(s: string)
    requires NoSlash(s)
    ensures Split(s) == [s]
  {
    if s != [] {
      SplitNoSlash(s[1..]);
      assert [s[0]] + s[1..] == s;
    }
  }

  /** Joining two names with `/` concatenates their levels. */
  lemma {:induction false} SplitJoin(a: string, b: string)
    ensures Split(a + "/" + b) == Split(a) + Split(b)
  {
    var s := a + "/" + b;
    if a == [] {
      assert s[0] == '/' && s[1..] == b;
    } else {
      assert s[0] == a[0] && s[1..] == a[1..] + "/" + b;
      SplitJoin(a[1..], b);
      var ra := Split(a[1..]);
      assert Split(s[1..]) == ra + Split(b);
      if a[0] != '/' {
        assert (ra + Split(b))[0] == ra[0];
        assert (ra + Split(b))[1..] == ra[1..] + Split(b);
      }
    }
  }

  lemma SplitTwo(a: string, b: string)
    requires NoSlash(a) && NoSlash(b)
    ensures Split(a + "/" + b) == [a, b]
  {
    SplitJoin(a, b);
    SplitNoSlash(a);
    SplitNoSlash(b);
  }

  /** Appending `/{id}` to a name adds exactly one level. */
  lemma SplitWithId(path: string, id: string)
    requires NoSlash(id)
    ensures Split(path + ("/" + id)) == Split(path) + [id]
  {
    assert path + ("/" + id) == path + "/" + id;
    SplitJoin(path, id);
    SplitNoSlash(id);
  }

  lemma {:induction false} ActionPathLevels(op: Operation)
    requires op.LevelsSlashFree()
    ensures Split(op.ActionPath()) == op.ActionLevels()
  {
    match op
    case Telemetry(_) => SplitNoSlash("json");
    case PlainTelemetry(metric, _) =>
      assert op.ActionPath() == "plain" + "/" + metric;
      SplitTwo("plain", metric);
    case MetadataGetKeys(_) =>
      assert op.ActionPath() == "get" + "/" + "keys";
      SplitTwo("get", "keys");
    case MetadataGet(_) => SplitNoSlash("get");
    case MetadataUpdate(_) => SplitNoSlash("update");
    case MetadataUpdateKeys(_) =>
      assert op.ActionPath() == "update" + "/" + "keys";
      SplitTwo("update", "keys");
    case MetadataDeleteKeys(_) =>
      assert op.ActionPath() == "delete" + "/" + "keys";
      SplitTwo("delete", "keys");
    case CommandGet(commandType) =>
      assert op.ActionPath() == "command" + "/" + commandType;
      SplitTwo("command", commandType);
    case CommandReport(commandType, _) =>
      assert op.ActionPath() == "result" + "/" + commandType;
      SplitTwo("result", commandType);
    case ConfigGet(_) =>
      assert op.ActionPath() == "config" + "/" + "json";
      SplitTwo("config", "json");
    case ConfigApply(_) =>
      assert op.ActionPath() == "applied" + "/" + "json";
      SplitTwo("applied", "json");
    case FirmwareReport =>
      assert op.ActionPath() == "applied" + "/" + "json";
      SplitTwo("applied", "json");
    case FirmwareGet(_) =>
      assert op.ActionPath() == "config" + "/" + "json";
      SplitTwo("config", "json");
  }

  /** The levels before the action path: root, application version, service code, token. */
  lemma HeadLevels(app: string, code: ServiceCode, token: string)
    requires NoSlash(app) && NoSlash(token)
    ensures Split(Root + "/" + app + "/" + code.Text() + "/" + token) == [Root, app, code.Text(), token]
  {
    var c := code.Text();
    SplitJoin(Root + "/" + app + "/" + c, token);
    SplitJoin(Root + "/" + app, c);
    SplitJoin(Root, app);
    SplitNoSlash(Root);
    SplitNoSlash(app);
    assert NoSlash(c) by {
      match code
      case Dcx =>
      case Epmx =>
      case Cex =>
      case Cmx =>
      case CmxOta =>
    }
    SplitNoSlash(c);
    SplitNoSlash(token);
  }

  /** The levels from the action path on: the action levels and the request-id level. */
  lemma TailLevels(op: Operation)
    requires op.LevelsSlashFree()
    ensures Split(op.ActionPath() + op.IdSuffix()) == op.ActionLevels() + op.IdLevels()
  {
    ActionPathLevels(op);
    if op.IdSuffix() == "" {
      assert op.ActionPath() + op.IdSuffix() == op.ActionPath();
    } else {
      var id := if op.MetadataGetKeys? || op.MetadataGet? then op.id else op.requestId.value;
      assert op.IdSuffix() == "/" + id && op.IdLevels() == [id];
      SplitWithId(op.ActionPath(), id);
    }
  }

  /** The topic grammar: the levels of every operation topic are the root, the
      application version, the service code, the token, the action path and,
      when one is appended, the request id. */
  lemma TopicLevels(op: Operation, app: string, token: string)
    requires NoSlash(app) && NoSlash(token) && op.LevelsSlashFree()
    ensures Split(Topic(op, app, token))
         == [Root, app, op.Service().Text(), token] + op.ActionLevels() + op.IdLevels()
  {
    var head := Root + "/" + app + "/" + op.Service().Text() + "/" + token;
    var tail := op.ActionPath() + op.IdSuffix();
    assert Topic(op, app, token) == head + "/" + tail;
    SplitJoin(head, tail);
    HeadLevels(app, op.Service(), token);
    TailLevels(op);
  }

  /** An optional request id is appended exactly when it is truthy, as `/{requestId}`. */
  lemma RequestIdAppendedIffTruthy(op: Operation, app: string, token: string)
    requires op.HasOptionalId()
    ensures Truthy(op.requestId) <==> Topic(op, app, token) != Topic(op.(requestId := None), app, token)
    ensures Truthy(op.requestId) ==>
              Topic(op, app, token) == Topic(op.(requestId := None), app, token) + "/" + op.requestId.value
  {
    var bare := op.(requestId := None);
    var prefix := Root + "/" + app + "/" + op.Service().Text() + "/" + token + "/" + op.ActionPath();
    assert bare.ActionPath() == op.ActionPath() && bare.Service() == op.Service();
    assert Topic(bare, app, token) == prefix;
    if Truthy(op.requestId) {
      assert Topic(op, app, token) == prefix + "/" + op.requestId.value;
      assert |Topic(op, app, token)| > |prefix|;
    } else {
      assert Topic(op, app, token) == prefix;
    }
  }

  /** Two truthy request ids give two different topics for the same operation,
      so concurrent requests of one kind are told apart by their topics. */
  lemma DistinctRequestIdsDistinctTopics(op: Operation, r1: string, r2: string, app: string, token: string)
    requires op.HasOptionalId()
    requires r1 != "" && r2 != "" && r1 != r2
    ensures Topic(op.(requestId := Some(r1)), app, token) != Topic(op.(requestId := Some(r2)), app, token)
  {
    var bare := Topic(op.(requestId := None), app, token);
    RequestIdAppendedIffTruthy(op.(requestId := Some(r1)), app, token);
    RequestIdAppendedIffTruthy(op.(requestId := Some(r2)), app, token);
    var t1 := bare + "/" + r1;
    var t2 := bare + "/" + r2;
    assert t1[|bare| + 1..] == r1;
    assert t2[|bare| + 1..] == r2;
  }

  /** The two metadata reads always end with `/{id}`, whatever the app version
      and token; a `/`-free id is then the last level. */
  lemma MetadataReadEndsWithId(op: Operation, app: string, token: string)
    requires op.MetadataGetKeys? || op.MetadataGet?
    ensures EndsWith(Topic(op, app, token), "/" + op.id)
    ensures NoSlash(op.id) ==> var levels := Split(Topic(op, app, token)); levels[|levels| - 1] == op.id
  {
    var t := Topic(op, app, token);
    var prefix := Root + "/" + app + "/" + op.Service().Text() + "/" + token + "/" + op.ActionPath();
    assert t == prefix + ("/" + op.id) by {
      assert op.IdSuffix() == "/" + op.id;
    }
    assert t[|t| - |"/" + op.id|..] == "/" + op.id;
    if NoSlash(op.id) {
      SplitWithId(prefix, op.id);
    }
  }

  /** A defaulted request id (a draw of `randomInt(1, 100)`, so 1 to 99) is one
      or two digits and is the last level of the metadata read's topic; when the
      app version and token hold no `/` the topic has 7 (keys) or 6 levels. */
  lemma DefaultRequestIdLevel(n: nat, keys: bool, app: string, token: string)
    requires 1 <= n < 100
    ensures var op := if keys then MetadataGetKeys(NatToString(n)) else MetadataGet(NatToString(n));
            var levels := Split(Topic(op, app, token));
            && 1 <= |NatToString(n)| <= 2
            && levels[|levels| - 1] == NatToString(n)
            && (NoSlash(app) && NoSlash(token) ==> |levels| == (if keys then 7 else 6))
  {
    var id := NatToString(n);
    assert NoSlash(id) by {
      forall i | 0 <= i < |id| ensures id[i] != '/' {
        assert IsDigit(id[i]);
      }
    }
    var op := if keys then MetadataGetKeys(id) else MetadataGet(id);
    MetadataReadEndsWithId(op, app, token);
    if NoSlash(app) && NoSlash(token) {
      TopicLevels(op, app, token);
    }
  }

  /** A metadata read's topic determines its id. */
  lemma DistinctIdsDistinctTopics(op1: Operation, op2: Operation, app: string, token: string)
    requires (op1.MetadataGetKeys? && op2.MetadataGetKeys?) || (op1.MetadataGet? && op2.MetadataGet?)
    requires op1.id != op2.id
    ensures Topic(op1, app, token) != Topic(op2, app, token)
  {
    var prefix := Root + "/" + app + "/" + op1.Service().Text() + "/" + token + "/" + op1.ActionPath();
    assert Topic(op1, app, token) == prefix + ("/" + op1.id) by {
      assert op1.IdSuffix() == "/" + op1.id;
    }
    assert Topic(op2, app, token) == prefix + ("/" + op2.id) by {
      assert op2.Service() == op1.Service() && op2.ActionPath() == op1.ActionPath();
      assert op2.IdSuffix() == "/" + op2.id;
    }
    DistinctLastLevels(prefix, op1.id, op2.id);
  }

  lemma DistinctLastLevels(prefix: string, a: string, b: string)
    requires a != b
    ensures prefix + ("/" + a) != prefix + ("/" + b)
  {
    assert (prefix + ("/" + a))[|prefix| + 1..] == a;
    assert (prefix + ("/" + b))[|prefix| + 1..] == b;
  }

  /** Two different draws of the defaulted id give two different topics, for
      either metadata read. */
  lemma DistinctDrawsDistinctTopics(n1: nat, n2: nat, keys: bool, app: string, token: string)
    requires n1 != n2
    ensures var op1 := if keys then MetadataGetKeys(NatToString(n1)) else MetadataGet(NatToString(n1));
            var op2 := if keys then MetadataGetKeys(NatToString(n2)) else MetadataGet(NatToString(n2));
            Topic(op1, app, token) != Topic(op2, app, token)
  {
    NatToStringInjective(n1, n2);
    var op1 := if keys then MetadataGetKeys(NatToString(n1)) else MetadataGet(NatToString(n1));
    var op2 := if keys then MetadataGetKeys(NatToString(n2)) else MetadataGet(NatToString(n2));
    DistinctIdsDistinctTopics(op1, op2, app, token);
  }

  /** A topic does not always determine its operation: a full metadata update
      with request id `keys` uses the same topic as a partial update without one. */
  lemma UpdateIdKeysSharesPartialUpdateTopic(app: string, token: string)
    ensures Topic(MetadataUpdate(Some("keys")), app, token) == Topic(MetadataUpdateKeys(None), app, token)
  {
    assert "update" + ("/" + "keys") == "update/keys";
  }

  /** The topic of a partial metadata update with a request id extends the
      topic of a full update without one. */
  lemma PartialUpdateExtendsFullUpdate(app: string, token: string, requestId: string)
    requires requestId != ""
    ensures Topic(MetadataUpdateKeys(Some(requestId)), app, token) == Topic(MetadataUpdate(None), app, token) + ("/keys/" + requestId)
  {
    var full := Topic(MetadataUpdate(None), app, token);
    var partial := Topic(MetadataUpdateKeys(None), app, token);
    assert Topic(MetadataUpdateKeys(Some(requestId)), app, token) == partial + "/" + requestId by {
      RequestIdAppendedIffTruthy(MetadataUpdateKeys(Some(requestId)), app, token);
    }
    assert partial == full + "/" + "keys" by {
      UpdateIdKeysSharesPartialUpdateTopic(app, token);
      RequestIdAppendedIffTruthy(MetadataUpdate(Some("keys")), app, token);
    }
    KeysThenId(full, partial, Topic(MetadataUpdateKeys(Some(requestId)), app, token), requestId);
  }

  lemma KeysThenId(full: string, partial: string, topic: string, id: string)
    requires partial == full + "/" + "keys"
    requires topic == partial + "/" + id
    ensures topic == full + ("/keys/" + id)
  {
    assert "/" + "keys" + "/" + id == "/keys/" + id;
    assert topic == full + ("/" + "keys" + "/" + id);
  }
}
