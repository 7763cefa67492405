/**
 * The local bot runner: the host allow-list middleware and the `POST /`
 * handler that validates the request body, provisions a room and tokens,
 * launches the worker through a shell and answers with the session details.
 */
module Runner {
  import opened Wrappers
  import opened Json
  import opened ShellQuote
  import opened HostGuard
  import opened Orchestration
  import Worker

  /** Token lifetime for sessions run by a local worker: 15 minutes. */
  const MaxSessionTime: int := 15 * 60

  const HostDeniedDetail: string := "Host access denied"
  const MissingConfigDetail: string := "Missing configuration or malformed configuration object"
  const ParseFailedDetail: string := "Failed to parse bot configuration"

  /** The environment the runner reads: `HOST_WHITELIST` (default "") and `USE_DEBUG_ROOM`. */
  datatype RunnerEnv = RunnerEnv(hostWhitelist: string, debugRoom: Option<string>)

  /** The shell command that launches the worker; only the configuration is quoted. */
  function LaunchCommand(roomUrl: string, token: string, botConfig: string): string
  {
    "python3 -m bot -u " + roomUrl + " -t " + token + " -c " + EscapeBashArg(botConfig)
  }

  /** How the first gates read the request body. */
  datatype BodyGate = TestProbe | MissingConfig | ConfigField(data: Json)

  /**
   * The first gates of `index`: a body that is not JSON, or on which `in`
   * raises, or that lacks "config", is a missing configuration; "test"
   * anywhere `in` finds it makes the request a liveness probe.
   */
  function ReadBody(body: Option<Json>): BodyGate
  {
    if body.None? then MissingConfig
    else
      match Contains("test", body.value)
      case None => MissingConfig
      case Some(isProbe) =>
        if isProbe then TestProbe
        else if Contains("config", body.value) == Some(true) then ConfigField(body.value)
        else MissingConfig
  }

  /**
   * `RTVIConfig(**data["config"])` gets keyword arguments only when the body
   * is an object whose "config" is an object; otherwise Python raises
   * TypeError inside the same `try` as a schema violation.
   */
  function ConfigMapping(data: Json): Option<map<string, Json>>
  {
    if data.Obj? && "config" in data.fields && data.fields["config"].Obj? then
      Some(data.fields["config"].fields)
    else
      None
  }

  /** The success body: room name and URL, the user's token and the echoed configuration. */
  function SessionBody(room: Room, userToken: Option<string>, botConfig: string): map<string, Json>
  {
    map["room_name" := Str(room.name), "room_url" := Str(room.url),
        "token" := TokenJson(userToken), "bot_config" := Str(botConfig)]
  }

  function DebugRef(env: RunnerEnv): string
  {
    if env.debugRoom.Some? then env.debugRoom.value else ""
  }

  /**
   * The `index` handler as a function of the request body and of what the
   * outside answers: `parsed` is the serialized configuration when the
   * schema accepts it, `launch` the exception text when the shell launch
   * fails.
   */
  function IndexSpec(env: RunnerEnv, body: Option<Json>, parsed: Option<string>,
                     rs: RoomService, launch: Option<string>): Outcome
  {
    match ReadBody(body)
    case TestProbe => Outcome(Ok(map["test" := Bool(true)]), [])
    case MissingConfig => Outcome(HttpError(500, MissingConfigDetail), [])
    case ConfigField(data) =>
      var fields := ConfigMapping(data);
      if fields.None? then Outcome(HttpError(500, ParseFailedDetail), [])
      else if parsed.None? then Outcome(HttpError(500, ParseFailedDetail), [ParseConfig(fields.value)])
      else
        var p := ProvisionSpec(env.debugRoom, DebugRef(env), MaxSessionTime, rs);
        var before := [ParseConfig(fields.value)] + p.calls;
        match p.result
        case NotProvisioned(error) => Outcome(error, before)
        case Provisioned(room, token) =>
          var launched := before + [Popen(LaunchCommand(room.url, token, parsed.value))];
          if launch.Some? then Outcome(HttpError(500, SpawnFailedDetail + launch.value), launched)
          else Outcome(Ok(SessionBody(room, rs.userToken, parsed.value)),
                       launched + [GetToken(room.url, MaxSessionTime)])
  }

  /** `index`, step by step: each external call is appended to `trace` as it is made. */
  method Index(env: RunnerEnv, body: Option<Json>, parsed: Option<string>,
               rs: RoomService, launch: Option<string>) returns (reply: Reply, trace: seq<Call>)
    ensures Outcome(reply, trace) == IndexSpec(env, body, parsed, rs, launch)
  {
    trace := [];
    var gate := ReadBody(body);
    if gate.TestProbe? {
      return Ok(map["test" := Bool(true)]), trace;
    }
    if gate.MissingConfig? {
      return HttpError(500, MissingConfigDetail), trace;
    }
    var fields := ConfigMapping(gate.data);
    if fields.None? {
      return HttpError(500, ParseFailedDetail), trace;
    }
    trace := trace + [ParseConfig(fields.value)];
    if parsed.None? {
      return HttpError(500, ParseFailedDetail), trace;
    }
    var botConfig := parsed.value;
    var room: Room;
    if IsSet(env.debugRoom) {
      trace := trace + [GetRoomFromUrl(env.debugRoom.value)];
      if rs.lookup.Failure? {
        return HttpError(500, RoomNotFoundDetail + env.debugRoom.value), trace;
      }
      room := rs.lookup.value;
    } else {
      trace := trace + [CreateRoom];
      if rs.create.Failure? {
        return HttpError(500, rs.create.error), trace;
      }
      room := rs.create.value;
    }
    trace := trace + [GetToken(room.url, MaxSessionTime)];
    if !TokenTruthy(rs.botToken) {
      return HttpError(500, NoTokenDetail + room.name), trace;
    }
    var token := rs.botToken.value;
    trace := trace + [Popen(LaunchCommand(room.url, token, botConfig))];
    if launch.Some? {
      return HttpError(500, SpawnFailedDetail + launch.value), trace;
    }
    trace := trace + [GetToken(room.url, MaxSessionTime)];
    reply := Ok(SessionBody(room, rs.userToken, botConfig));
  }

  /**
   * `allowed_hosts_middleware`: for a host the allow-list refuses it raises
   * HTTPException(403, "Host access denied") and the route handler never
   * runs; an admitted one gets whatever `index` answers.
   */
  method AllowedHostsMiddleware(env: RunnerEnv, host: Option<string>, body: Option<Json>,
                                parsed: Option<string>, rs: RoomService, launch: Option<string>)
    returns (reply: Reply, trace: seq<Call>)
    ensures !CheckHostWhitelist(env.hostWhitelist, host) ==>
              reply == HttpError(403, HostDeniedDetail) && trace == []
    ensures CheckHostWhitelist(env.hostWhitelist, host) ==>
              Outcome(reply, trace) == IndexSpec(env, body, parsed, rs, launch)
  {
    if !CheckHostWhitelist(env.hostWhitelist, host) {
      return HttpError(403, HostDeniedDetail), [];
    }
    reply, trace := Index(env, body, parsed, rs, launch);
  }

  /**
   * How the body is classified. For an object, "test" among its keys makes
   * it a probe, and otherwise it needs a "config" key; for a list the same
   * holds of its elements, for a string of its substrings. A body Python
   * cannot search with `in` (a number, a boolean, null) counts as missing
   * configuration. A list or string that holds "config" passes these gates
   * but has no configuration object to unpack, so parsing fails.
   */
  lemma BodyClassification(body: Option<Json>)
    ensures body.None? ==> ReadBody(body).MissingConfig?
    ensures body.Some? && body.value.Obj? ==>
      (ReadBody(body).TestProbe? <==> "test" in body.value.fields)
      && (ReadBody(body).MissingConfig? <==> "test" !in body.value.fields && "config" !in body.value.fields)
    ensures body.Some? && body.value.Arr? ==>
      (ReadBody(body).TestProbe? <==> Str("test") in body.value.items)
      && (ReadBody(body).MissingConfig? <==> Str("test") !in body.value.items && Str("config") !in body.value.items)
    ensures body.Some? && body.value.Str? ==>
      (ReadBody(body).TestProbe? <==> IsSubstring("test", body.value.s))
      && (ReadBody(body).MissingConfig? <==> !IsSubstring("test", body.value.s) && !IsSubstring("config", body.value.s))
    ensures body.Some? && (body.value.Null? || body.value.Bool? || body.value.Num?) ==>
      ReadBody(body).MissingConfig?
    ensures ReadBody(body).ConfigField? && !ReadBody(body).data.Obj? ==>
      ConfigMapping(ReadBody(body).data).None?
  {
  }

  /** A liveness probe is answered `{"test": true}` without parsing, room service or launch. */
  lemma ProbeHasNoSideEffects(env: RunnerEnv, body: Option<Json>, parsed: Option<string>,
                              rs: RoomService, launch: Option<string>)
    requires ReadBody(body).TestProbe?
    ensures IndexSpec(env, body, parsed, rs, launch) == Outcome(Ok(map["test" := Bool(true)]), [])
  {
  }

  /**
   * Validation fails before the room service is reached: a missing
   * configuration gives its own 500 without any call, and a configuration
   * the schema refuses gives the distinct 500 after at most the parse.
   */
  lemma ValidationPrecedesProvisioning(env: RunnerEnv, body: Option<Json>, parsed: Option<string>,
                                       rs: RoomService, launch: Option<string>)
    ensures var o := IndexSpec(env, body, parsed, rs, launch);
      ReadBody(body).MissingConfig? ==> o == Outcome(HttpError(500, MissingConfigDetail), [])
    ensures var o := IndexSpec(env, body, parsed, rs, launch);
      ReadBody(body).ConfigField? && (ConfigMapping(ReadBody(body).data).None? || parsed.None?) ==>
        o.reply == HttpError(500, ParseFailedDetail) && |o.trace| <= 1
        && NoRoomServiceCalls(o.trace) && Dispatches(o.trace) == 0
    ensures MissingConfigDetail != ParseFailedDetail
  {
    var o := IndexSpec(env, body, parsed, rs, launch);
    if |o.trace| == 1 {
      assert o.trace[..0] == [];
    }
  }

  /** The validation gates let the request through to provisioning. */
  predicate ConfigAccepted(body: Option<Json>, parsed: Option<string>)
  {
    ReadBody(body).ConfigField? && ConfigMapping(ReadBody(body).data).Some? && parsed.Some?
  }

  /** Every gate before the launch is passed. */
  predicate LaunchGatesPass(env: RunnerEnv, body: Option<Json>, parsed: Option<string>, rs: RoomService)
  {
    ConfigAccepted(body, parsed) && ChosenRoom(env.debugRoom, rs).Success? && TokenTruthy(rs.botToken)
  }

  /** The room-service call made for the room on this request's path. */
  function RoomCall(env: RunnerEnv): Call
  {
    if IsSet(env.debugRoom) then GetRoomFromUrl(DebugRef(env)) else CreateRoom
  }

  /** The longest trace of a request whose configuration was accepted. */
  function AcceptedTrace(env: RunnerEnv, body: Option<Json>, parsed: Option<string>, rs: RoomService): seq<Call>
    requires ConfigAccepted(body, parsed)
  {
    var room := ChosenRoom(env.debugRoom, rs);
    var url := if room.Success? then room.value.url else "";
    var token := if rs.botToken.Some? then rs.botToken.value else "";
    LaunchTrace([ParseConfig(ConfigMapping(ReadBody(body).data).value)], RoomCall(env), url,
                MaxSessionTime, Popen(LaunchCommand(url, token, parsed.value)))
  }

  /** How far an accepted request gets along that trace. */
  function AcceptedCut(env: RunnerEnv, rs: RoomService, launch: Option<string>): nat
  {
    if ChosenRoom(env.debugRoom, rs).Failure? then 2
    else if !TokenTruthy(rs.botToken) then 3
    else if launch.Some? then 4
    else 5
  }

  /** An accepted request's trace is a prefix of the longest one. */
  lemma AcceptedTraceIsPrefix(env: RunnerEnv, body: Option<Json>, parsed: Option<string>,
                              rs: RoomService, launch: Option<string>)
    requires ConfigAccepted(body, parsed)
    ensures IndexSpec(env, body, parsed, rs, launch).trace
         == AcceptedTrace(env, body, parsed, rs)[..AcceptedCut(env, rs, launch)]
  {
    var o := IndexSpec(env, body, parsed, rs, launch);
    var full := AcceptedTrace(env, body, parsed, rs);
    var p := ProvisionSpec(env.debugRoom, DebugRef(env), MaxSessionTime, rs);
    var pc := ParseConfig(ConfigMapping(ReadBody(body).data).value);
    assert full[0] == pc && full[1] == RoomCall(env);
    if ChosenRoom(env.debugRoom, rs).Failure? {
      assert p.calls == [RoomCall(env)];
      assert o.trace == [pc, RoomCall(env)];
      assert full[..2] == [pc, RoomCall(env)];
    } else {
      var url := ChosenRoom(env.debugRoom, rs).value.url;
      assert p.calls == [RoomCall(env), GetToken(url, MaxSessionTime)];
      assert full[..3] == [pc, RoomCall(env), GetToken(url, MaxSessionTime)];
      if TokenTruthy(rs.botToken) {
        var cmd := Popen(LaunchCommand(url, rs.botToken.value, parsed.value));
        assert full[..4] == [pc, RoomCall(env), GetToken(url, MaxSessionTime), cmd];
        assert full[..5] == full;
      }
    }
  }

  /**
   * Call order on every path: at most one launch, and one exactly when the
   * configuration, the room and the bot token all succeeded; at most two
   * tokens, both with lifetime 900 seconds; the user token only after the
   * launch.
   */
  lemma LaunchOrdering(env: RunnerEnv, body: Option<Json>, parsed: Option<string>,
                       rs: RoomService, launch: Option<string>)
    ensures var o := IndexSpec(env, body, parsed, rs, launch);
      && Dispatches(o.trace) <= 1
      && (Dispatches(o.trace) == 1 <==> LaunchGatesPass(env, body, parsed, rs))
      && TokenRequests(o.trace) <= 2
      && TokensLive(o.trace, MaxSessionTime)
      && UserTokenAfterDispatch(o.trace)
  {
    if !ConfigAccepted(body, parsed) {
      var pre := if ReadBody(body).ConfigField? && ConfigMapping(ReadBody(body).data).Some?
                 then [ParseConfig(ConfigMapping(ReadBody(body).data).value)] else [];
      var full := LaunchTrace(pre, CreateRoom, "", MaxSessionTime, Popen(""));
      LaunchTraceOrdered(pre, CreateRoom, "", MaxSessionTime, Popen(""), |pre|);
      assert full[..|pre|] == pre;
    } else {
      var room := ChosenRoom(env.debugRoom, rs);
      var url := if room.Success? then room.value.url else "";
      var token := if rs.botToken.Some? then rs.botToken.value else "";
      AcceptedTraceIsPrefix(env, body, parsed, rs, launch);
      LaunchTraceOrdered([ParseConfig(ConfigMapping(ReadBody(body).data).value)], RoomCall(env), url,
                         MaxSessionTime, Popen(LaunchCommand(url, token, parsed.value)),
                         AcceptedCut(env, rs, launch));
    }
  }

  /**
   * Provisioning errors, each a 500 after which nothing is launched: an
   * unreachable debug room names the configured reference, a failed room
   * creation carries the exception text, a missing bot token names the room.
   */
  lemma ProvisioningErrors(env: RunnerEnv, body: Option<Json>, parsed: Option<string>,
                           rs: RoomService, launch: Option<string>)
    requires ConfigAccepted(body, parsed)
    ensures var o := IndexSpec(env, body, parsed, rs, launch);
      && (IsSet(env.debugRoom) && rs.lookup.Failure? ==>
            o.reply == HttpError(500, RoomNotFoundDetail + env.debugRoom.value))
      && (!IsSet(env.debugRoom) && rs.create.Failure? ==> o.reply == HttpError(500, rs.create.error))
      && (ChosenRoom(env.debugRoom, rs).Success? && !TokenTruthy(rs.botToken) ==>
            o.reply == HttpError(500, NoTokenDetail + ChosenRoom(env.debugRoom, rs).value.name))
      && (!LaunchGatesPass(env, body, parsed, rs) ==>
            Dispatches(o.trace) == 0 && TokenRequests(o.trace) <= 1)
  {
    var room := ChosenRoom(env.debugRoom, rs);
    var url := if room.Success? then room.value.url else "";
    var token := if rs.botToken.Some? then rs.botToken.value else "";
    AcceptedTraceIsPrefix(env, body, parsed, rs, launch);
    LaunchTraceCounts([ParseConfig(ConfigMapping(ReadBody(body).data).value)], RoomCall(env), url,
                      MaxSessionTime, Popen(LaunchCommand(url, token, parsed.value)),
                      AcceptedCut(env, rs, launch));
  }

  /**
   * A failed shell launch is a 500 carrying the exception text, and the
   * user token is never requested.
   */
  lemma LaunchFailure(env: RunnerEnv, body: Option<Json>, parsed: Option<string>,
                      rs: RoomService, launch: Option<string>)
    requires LaunchGatesPass(env, body, parsed, rs) && launch.Some?
    ensures var o := IndexSpec(env, body, parsed, rs, launch);
      o.reply == HttpError(500, SpawnFailedDetail + launch.value)
      && Dispatches(o.trace) == 1 && TokenRequests(o.trace) == 1
  {
    var room := ChosenRoom(env.debugRoom, rs).value;
    AcceptedTraceIsPrefix(env, body, parsed, rs, launch);
    LaunchTraceCounts([ParseConfig(ConfigMapping(ReadBody(body).data).value)], RoomCall(env), room.url,
                      MaxSessionTime, Popen(LaunchCommand(room.url, rs.botToken.value, parsed.value)), 4);
  }

  /**
   * A request that is not a probe and succeeds has passed every gate and
   * launched once with the bot token and the quoted configuration; the
   * answer holds exactly the room name and URL, the user token (minted
   * last, for 900 seconds) and the configuration.
   */
  lemma SuccessfulSession(env: RunnerEnv, body: Option<Json>, parsed: Option<string>,
                          rs: RoomService, launch: Option<string>)
    requires !ReadBody(body).TestProbe?
    requires IndexSpec(env, body, parsed, rs, launch).reply.Ok?
    ensures LaunchGatesPass(env, body, parsed, rs) && launch.None?
    ensures var o := IndexSpec(env, body, parsed, rs, launch);
      var room := ChosenRoom(env.debugRoom, rs).value;
      && o.reply.body.Keys == {"room_name", "room_url", "token", "bot_config"}
      && o.reply.body["room_name"] == Str(room.name)
      && o.reply.body["room_url"] == Str(room.url)
      && o.reply.body["token"] == TokenJson(rs.userToken)
      && o.reply.body["bot_config"] == Str(parsed.value)
      && |o.trace| == 5
      && o.trace[3] == Popen(LaunchCommand(room.url, rs.botToken.value, parsed.value))
      && o.trace[4] == GetToken(room.url, MaxSessionTime)
  {
  }

  /** The runner itself only ever answers with status 500 errors or a JSON body. */
  lemma IndexErrorsAre500(env: RunnerEnv, body: Option<Json>, parsed: Option<string>,
                          rs: RoomService, launch: Option<string>)
    ensures var o := IndexSpec(env, body, parsed, rs, launch);
      !o.reply.Unhandled? && (o.reply.HttpError? ==> o.reply.status == 500)
  {
  }

  /**
   * The launch command ends with the quoted configuration as its own word,
   * and the shell reads that word back as exactly the serialized
   * configuration; the room URL and the token are spliced in unquoted.
   */
  lemma LaunchCommandCarriesConfig(roomUrl: string, token: string, botConfig: string)
    ensures var cmd := LaunchCommand(roomUrl, token, botConfig);
      var arg := EscapeBashArg(botConfig);
      var prefix := "python3 -m bot -u " + roomUrl + " -t " + token + " -c ";
      && cmd == prefix + arg
      && cmd[|prefix|..] == arg
      && cmd[|prefix| - 1] == ' '
      && ShellUnquote(cmd[|prefix|..]) == Some(botConfig)
  {
    EscapeRoundTrip(botConfig);
    var prefix := "python3 -m bot -u " + roomUrl + " -t " + token + " -c ";
    assert (prefix + EscapeBashArg(botConfig))[|prefix|..] == EscapeBashArg(botConfig);
  }

  /**
   * What the worker decides from the three argument words the shell reads
   * out of the launch command is what it would decide from the runner's own
   * values: the quoted configuration arrives byte for byte, and the room URL
   * and token do too as long as they hold no character the shell wants
   * quoted (they are not escaped).
   */
  lemma WorkerReceivesLaunchArguments(roomUrl: string, token: string, botConfig: string,
                                      loads: string -> Option<Json>)
    requires forall i :: 0 <= i < |roomUrl| ==> !NeedsQuoting(roomUrl[i])
    requires forall i :: 0 <= i < |token| ==> !NeedsQuoting(token[i])
    ensures ShellUnquote(roomUrl) == Some(roomUrl) && ShellUnquote(token) == Some(token)
    ensures ShellUnquote(EscapeBashArg(botConfig)) == Some(botConfig)
    ensures Worker.WorkerStart(ShellUnquote(roomUrl), ShellUnquote(token), ShellUnquote(EscapeBashArg(botConfig)), loads)
         == Worker.WorkerStart(Some(roomUrl), Some(token), Some(botConfig), loads)
  {
    PlainWordUnquotes(roomUrl);
    PlainWordUnquotes(token);
    EscapeRoundTrip(botConfig);
  }
}
