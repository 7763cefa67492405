/**
 * The serverless deployment: the `server` web endpoint, which provisions a
 * room and tokens and hands the session to `run_bot` as a remote
 * invocation, and the limits `run_bot` is declared with.
 */
module ModalApp {
  import opened Wrappers
  import opened Json
  import opened Orchestration

  /** Session cap for serverless workers: 5 minutes. */
  const MaxSessionTime: int := 5 * 60

  const DefaultDailyDomain: string := "https://rtvi.daily.co"
  const MissingConfigMessage: string := "Missing RTVI configuration object for bot"

  /** Per-function settings of the compute platform (seconds; None when not given). */
  datatype FunctionSettings = FunctionSettings(
    keepWarm: nat,
    timeout: Option<nat>,
    containerIdleTimeout: Option<nat>,
    maxInputs: Option<nat>,
    retries: Option<nat>)

  /** `run_bot`: no warm instances, one input per container, no retry, killed at the session cap. */
  const RunBotSettings: FunctionSettings :=
    FunctionSettings(keepWarm := 0, timeout := Some(MaxSessionTime), containerIdleTimeout := Some(2),
                     maxInputs := Some(1), retries := Some(0))

  /** The environment `server` reads: `DAILY_DOMAIN` and `USE_DEBUG_ROOM`. */
  datatype ModalEnv = ModalEnv(dailyDomain: Option<string>, debugRoom: Option<string>)

  /** `os.getenv("DAILY_DOMAIN", "https://rtvi.daily.co")`. */
  function DailyDomain(env: ModalEnv): string
  {
    if env.dailyDomain.Some? then env.dailyDomain.value else DefaultDailyDomain
  }

  /** The URL the debug room is looked up at: the domain, a slash, the room name. */
  function DebugRoomUrl(env: ModalEnv): string
  {
    DailyDomain(env) + "/" + (if env.debugRoom.Some? then env.debugRoom.value else "")
  }

  /**
   * The `server` endpoint as a function of its body and of what the outside
   * answers: `launch` is the exception text when the invocation fails.
   */
  function ServerSpec(env: ModalEnv, config: map<string, Json>, rs: RoomService, launch: Option<string>): Outcome
  {
    if config == map[] then Outcome(Unhandled(MissingConfigMessage), [])
    else
      var p := ProvisionSpec(env.debugRoom, DebugRoomUrl(env), MaxSessionTime, rs);
      match p.result
      case NotProvisioned(error) => Outcome(error, p.calls)
      case Provisioned(room, token) =>
        var launched := p.calls + [Spawn(room.url, token, config)];
        if launch.Some? then Outcome(HttpError(500, SpawnFailedDetail + launch.value), launched)
        else Outcome(Ok(map["room_name" := Str(room.name), "room_url" := Str(room.url),
                            "token" := TokenJson(rs.userToken)]),
                     launched + [GetToken(room.url, MaxSessionTime)])
  }

  /** `server`, step by step: each external call is appended to `trace` as it is made. */
  method Server(env: ModalEnv, config: map<string, Json>, rs: RoomService, launch: Option<string>)
    returns (reply: Reply, trace: seq<Call>)
    ensures Outcome(reply, trace) == ServerSpec(env, config, rs, launch)
  {
    trace := [];
    if config == map[] {
      return Unhandled(MissingConfigMessage), trace;
    }
    var room: Room;
    if IsSet(env.debugRoom) {
      trace := trace + [GetRoomFromUrl(DailyDomain(env) + "/" + env.debugRoom.value)];
      if rs.lookup.Failure? {
        return HttpError(500, RoomNotFoundDetail + env.debugRoom.value), trace;
      }
      room := rs.lookup.value;
    } else {
      trace := trace + [CreateRoom];
      if rs.create.Failure? {
        return HttpError(500, rs.create.error), trace;
      }
      room := rs.create.value;
    }
    trace := trace + [GetToken(room.url, MaxSessionTime)];
    if !TokenTruthy(rs.botToken) {
      return HttpError(500, NoTokenDetail + room.name), trace;
    }
    var token := rs.botToken.value;
    trace := trace + [Spawn(room.url, token, config)];
    if launch.Some? {
      return HttpError(500, SpawnFailedDetail + launch.value), trace;
    }
    trace := trace + [GetToken(room.url, MaxSessionTime)];
    reply := Ok(map["room_name" := Str(room.name), "room_url" := Str(room.url),
                    "token" := TokenJson(rs.userToken)]);
  }

  /** Every gate before the invocation is passed. */
  predicate LaunchGatesPass(env: ModalEnv, config: map<string, Json>, rs: RoomService)
  {
    config != map[] && ChosenRoom(env.debugRoom, rs).Success? && TokenTruthy(rs.botToken)
  }

  /** An empty configuration fails with a plain exception before any room-service call. */
  lemma EmptyConfigRejected(env: ModalEnv, rs: RoomService, launch: Option<string>)
    ensures ServerSpec(env, map[], rs, launch) == Outcome(Unhandled(MissingConfigMessage), [])
  {
  }

  /**
   * Call order on every path: at most one invocation, and one exactly when
   * the room and bot token succeeded; at most two tokens, both with the
   * 300-second cap; the user token only after the invocation.
   */
  lemma LaunchOrdering(env: ModalEnv, config: map<string, Json>, rs: RoomService, launch: Option<string>)
    ensures var o := ServerSpec(env, config, rs, launch);
      && Dispatches(o.trace) <= 1
      && (Dispatches(o.trace) == 1 <==> LaunchGatesPass(env, config, rs))
      && TokenRequests(o.trace) <= 2
      && TokensLive(o.trace, MaxSessionTime)
      && UserTokenAfterDispatch(o.trace)
  {
    var o := ServerSpec(env, config, rs, launch);
    var roomCall := if IsSet(env.debugRoom) then GetRoomFromUrl(DebugRoomUrl(env)) else CreateRoom;
    var room := ChosenRoom(env.debugRoom, rs);
    var url := if room.Success? then room.value.url else "";
    var token := if rs.botToken.Some? then rs.botToken.value else "";
    var full := LaunchTrace([], roomCall, url, MaxSessionTime, Spawn(url, token, config));
    var k := if config == map[] then 0 else if room.Failure? then 1
             else if !TokenTruthy(rs.botToken) then 2 else if launch.Some? then 3 else 4;
    LaunchTraceOrdered([], roomCall, url, MaxSessionTime, Spawn(url, token, config), k);
    assert o.trace == full[..k];
  }

  /**
   * Provisioning errors, each a 500 after which nothing is invoked: the
   * debug room is looked up under the configured domain but reported by its
   * bare name; room-creation errors carry the exception text; a missing
   * bot token names the room.
   */
  lemma ProvisioningErrors(env: ModalEnv, config: map<string, Json>, rs: RoomService, launch: Option<string>)
    requires config != map[]
    ensures var o := ServerSpec(env, config, rs, launch);
      && (IsSet(env.debugRoom) ==>
            o.trace[0] == GetRoomFromUrl(DailyDomain(env) + "/" + env.debugRoom.value))
      && (IsSet(env.debugRoom) && rs.lookup.Failure? ==>
            o == Outcome(HttpError(500, RoomNotFoundDetail + env.debugRoom.value),
                         [GetRoomFromUrl(DailyDomain(env) + "/" + env.debugRoom.value)]))
      && (!IsSet(env.debugRoom) ==> o.trace[0] == CreateRoom)
      && (!IsSet(env.debugRoom) && rs.create.Failure? ==>
            o == Outcome(HttpError(500, rs.create.error), [CreateRoom]))
      && (ChosenRoom(env.debugRoom, rs).Success? && !TokenTruthy(rs.botToken) ==>
            o.reply == HttpError(500, NoTokenDetail + ChosenRoom(env.debugRoom, rs).value.name)
            && NoDispatchIn(o.trace))
  {
  }

  /**
   * Once provisioned, the session is handed over exactly once, with the room
   * URL, the bot token and the configuration object itself (no quoting);
   * a failed invocation is a 500 with the exception text and no user token;
   * otherwise the answer holds exactly the room name, URL and user token.
   */
  lemma Handover(env: ModalEnv, config: map<string, Json>, rs: RoomService, launch: Option<string>)
    requires LaunchGatesPass(env, config, rs)
    ensures var o := ServerSpec(env, config, rs, launch);
      var room := ChosenRoom(env.debugRoom, rs).value;
      && o.trace[2] == Spawn(room.url, rs.botToken.value, config)
      && (launch.Some? ==> o.reply == HttpError(500, SpawnFailedDetail + launch.value) && |o.trace| == 3)
      && (launch.None? ==>
            && o.reply.Ok?
            && o.reply.body.Keys == {"room_name", "room_url", "token"}
            && o.reply.body["room_name"] == Str(room.name)
            && o.reply.body["room_url"] == Str(room.url)
            && o.reply.body["token"] == TokenJson(rs.userToken)
            && o.trace == [o.trace[0], GetToken(room.url, MaxSessionTime), o.trace[2],
                           GetToken(room.url, MaxSessionTime)])
  {
  }

  /**
   * The worker is declared single-use: no warm pool, one input per
   * container, no automatic retry, and a wall-clock timeout equal to the
   * lifetime of every token the endpoint mints for it.
   */
  lemma WorkerLimitsMatchTokens(env: ModalEnv, config: map<string, Json>, rs: RoomService, launch: Option<string>)
    ensures RunBotSettings.keepWarm == 0 && RunBotSettings.maxInputs == Some(1)
    ensures RunBotSettings.retries == Some(0)
    ensures var o := ServerSpec(env, config, rs, launch);
      RunBotSettings.timeout.Some? && TokensLive(o.trace, RunBotSettings.timeout.value)
  {
    LaunchOrdering(env, config, rs, launch);
  }
}
