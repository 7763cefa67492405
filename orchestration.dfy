/**
 * What the two session-launch endpoints share: the room service seen as a
 * set of replies, the trace of external calls a request makes, the reply
 * sent back, and the room-and-bot-token provisioning step both endpoints
 * run in the same way.
 */
module Orchestration {
  import opened Wrappers
  import opened Json

  /** A room as the room service describes it. */
  datatype Room = Room(name: string, url: string)

  /** One call to something outside the request handler, in the order made. */
  datatype Call =
    | ParseConfig(fields: map<string, Json>)   // validating the configuration object against the schema
    | GetRoomFromUrl(reference: string)        // room lookup by URL
    | CreateRoom                               // room creation with default properties
    | GetToken(roomUrl: string, ttl: int)      // token minting, `ttl` in seconds
    | Popen(command: string)                   // local worker launch through a shell
    | Spawn(roomUrl: string, token: string, config: map<string, Json>)  // remote worker invocation

  /**
   * What the room service answers to each call it may receive: a failing
   * lookup or creation raises an exception whose text is given; a token is
   * absent when the helper returns nothing.
   */
  datatype RoomService = RoomService(
    lookup: Result<Room>,
    create: Result<Room>,
    botToken: Option<string>,
    userToken: Option<string>)

  /** What the handler produces. */
  datatype Reply =
    | Ok(body: map<string, Json>)             // a JSON body, status 200
    | HttpError(status: int, detail: string)  // an HTTPException raised by the handler
    | Unhandled(message: string)              // a plain exception escaping the handler

  datatype Outcome = Outcome(reply: Reply, trace: seq<Call>)

  const RoomNotFoundDetail: string := "Room not found: "
  const NoTokenDetail: string := "Failed to get token for room: "
  const SpawnFailedDetail: string := "Failed to start subprocess: "

  /** Python's `if not token` sees None and the empty string as missing. */
  predicate TokenTruthy(t: Option<string>)
  {
    t.Some? && t.value != ""
  }

  /** How a token lands in a JSON response: None becomes `null`. */
  function TokenJson(t: Option<string>): Json
  {
    if t.Some? then Str(t.value) else Null
  }

  /** Python's `if debug_room:` on an environment variable that may be unset. */
  predicate IsSet(v: Option<string>)
  {
    v.Some? && v.value != ""
  }

  predicate IsRoomServiceCall(c: Call)
  {
    c.GetRoomFromUrl? || c.CreateRoom? || c.GetToken?
  }

  predicate IsDispatch(c: Call)
  {
    c.Popen? || c.Spawn?
  }

  /** Number of worker launches in a trace. */
  function Dispatches(t: seq<Call>): nat
  {
    if t == [] then 0 else Dispatches(t[..|t| - 1]) + (if IsDispatch(t[|t| - 1]) then 1 else 0)
  }

  /** Number of token requests in a trace. */
  function TokenRequests(t: seq<Call>): nat
  {
    if t == [] then 0 else TokenRequests(t[..|t| - 1]) + (if t[|t| - 1].GetToken? then 1 else 0)
  }

  /** No call in the trace reaches the room service. */
  predicate NoRoomServiceCalls(t: seq<Call>)
  {
    forall i :: 0 <= i < |t| ==> !IsRoomServiceCall(t[i])
  }

  /** Every token requested in the trace lives `ttl` seconds. */
  predicate TokensLive(t: seq<Call>, ttl: int)
  {
    forall i :: 0 <= i < |t| ==> t[i].GetToken? ==> t[i].ttl == ttl
  }

  /** A token request after the first one happens only once the worker is launched. */
  predicate UserTokenAfterDispatch(t: seq<Call>)
  {
    forall i :: 0 <= i < |t| ==> t[i].GetToken? && TokenRequests(t[..i]) > 0 ==> Dispatches(t[..i]) == 1
  }

  /** Room and bot token, or the error reply that ends the request. */
  datatype Provisioned = Provisioned(room: Room, token: string) | NotProvisioned(error: Reply)

  datatype Provisioning = Provisioning(result: Provisioned, calls: seq<Call>)

  /** The room the service supplies: the debug room's lookup when one is set, else a new room. */
  function ChosenRoom(debugRoom: Option<string>, rs: RoomService): Result<Room>
  {
    if IsSet(debugRoom) then rs.lookup else rs.create
  }

  /**
   * The room-and-bot-token step of both endpoints: look up the debug room at
   * `lookupRef` when one is configured (the error names the configured
   * value), otherwise create a room; then mint the bot token with lifetime
   * `ttl`. A room object is always truthy, so only the token is checked.
   */
  function ProvisionSpec(debugRoom: Option<string>, lookupRef: string, ttl: int, rs: RoomService): Provisioning
  {
    var room := ChosenRoom(debugRoom, rs);
    var roomCall := if IsSet(debugRoom) then GetRoomFromUrl(lookupRef) else CreateRoom;
    if room.Failure? then
      var detail := if IsSet(debugRoom) then RoomNotFoundDetail + debugRoom.value else room.error;
      Provisioning(NotProvisioned(HttpError(500, detail)), [roomCall])
    else if !TokenTruthy(rs.botToken) then
      Provisioning(NotProvisioned(HttpError(500, NoTokenDetail + room.value.name)), [roomCall, GetToken(room.value.url, ttl)])
    else
      Provisioning(Provisioned(room.value, rs.botToken.value), [roomCall, GetToken(room.value.url, ttl)])
  }

  /**
   * Provisioning never returns a partial result: either the room the service
   * gave and its non-empty bot token, after one room call and one token
   * request, or a status-500 error; it never launches a worker.
   */
  lemma ProvisionAllOrNothing(debugRoom: Option<string>, lookupRef: string, ttl: int, rs: RoomService)
    ensures var p := ProvisionSpec(debugRoom, lookupRef, ttl, rs);
      && 1 <= |p.calls| <= 2
      && (p.calls[0] == if IsSet(debugRoom) then GetRoomFromUrl(lookupRef) else CreateRoom)
      && NoDispatchIn(p.calls)
      && TokensLive(p.calls, ttl)
      && (p.result.NotProvisioned? ==> p.result.error.HttpError? && p.result.error.status == 500)
      && (p.result.Provisioned? <==>
            (if IsSet(debugRoom) then rs.lookup.Success? else rs.create.Success?) && TokenTruthy(rs.botToken))
      && (p.result.Provisioned? ==>
            p.result.room == (if IsSet(debugRoom) then rs.lookup.value else rs.create.value)
            && p.result.token == rs.botToken.value && p.result.token != ""
            && p.calls[1] == GetToken(p.result.room.url, ttl))
  {
  }

  predicate NoDispatchIn(t: seq<Call>)
  {
    forall i :: 0 <= i < |t| ==> !IsDispatch(t[i])
  }

  /** A trace with no launch and no token request counts zero of both. */
  lemma {:induction false} QuietTrace(t: seq<Call>)
    requires forall i :: 0 <= i < |t| ==> !IsDispatch(t[i]) && !t[i].GetToken?
    ensures Dispatches(t) == 0 && TokenRequests(t) == 0
  {
    if t != [] {
      QuietTrace(t[..|t| - 1]);
    }
  }

  /** Extending a prefix by one call adds that call to the counts. */
  lemma StepCounts(t: seq<Call>, j: nat)
    requires j < |t|
    ensures Dispatches(t[..j + 1]) == Dispatches(t[..j]) + (if IsDispatch(t[j]) then 1 else 0)
    ensures TokenRequests(t[..j + 1]) == TokenRequests(t[..j]) + (if t[j].GetToken? then 1 else 0)
  {
    assert t[..j + 1][..j] == t[..j];
  }

  /**
   * The longest trace a launch request can have: some calls that neither
   * launch nor mint, the room call, the bot token, the launch, the user
   * token, all tokens living `ttl` seconds.
   */
  function LaunchTrace(pre: seq<Call>, roomCall: Call, url: string, ttl: int, launch: Call): seq<Call>
  {
    pre + [roomCall, GetToken(url, ttl), launch, GetToken(url, ttl)]
  }

  /** The counts at each cut of a launch trace. */
  lemma {:induction false} LaunchTraceCounts(pre: seq<Call>, roomCall: Call, url: string, ttl: int, launch: Call, j: nat)
    requires forall i :: 0 <= i < |pre| ==> !IsDispatch(pre[i]) && !pre[i].GetToken?
    requires !IsDispatch(roomCall) && !roomCall.GetToken? && IsDispatch(launch)
    requires j <= |pre| + 4
    ensures var t := LaunchTrace(pre, roomCall, url, ttl, launch)[..j];
      && Dispatches(t) == (if j >= |pre| + 3 then 1 else 0)
      && TokenRequests(t) == (if j >= |pre| + 4 then 2 else if j >= |pre| + 2 then 1 else 0)
  {
    var full := LaunchTrace(pre, roomCall, url, ttl, launch);
    var n := |pre|;
    if j <= n {
      assert full[..j] == pre[..j];
      QuietTrace(pre[..j]);
    } else {
      LaunchTraceCounts(pre, roomCall, url, ttl, launch, j - 1);
      StepCounts(full, j - 1);
      assert full[n..] == [roomCall, GetToken(url, ttl), launch, GetToken(url, ttl)];
      assert full[j - 1] == full[n..][j - 1 - n];
    }
  }

  /**
   * Every prefix of a launch trace launches at most once, requests at most
   * two tokens, all with lifetime `ttl`, and requests the second token only
   * after the launch; it has launched exactly when it reaches the launch.
   */
  lemma LaunchTraceOrdered(pre: seq<Call>, roomCall: Call, url: string, ttl: int, launch: Call, k: nat)
    requires forall i :: 0 <= i < |pre| ==> !IsDispatch(pre[i]) && !pre[i].GetToken?
    requires !IsDispatch(roomCall) && !roomCall.GetToken? && IsDispatch(launch)
    requires k <= |pre| + 4
    ensures var t := LaunchTrace(pre, roomCall, url, ttl, launch)[..k];
      && Dispatches(t) <= 1
      && (Dispatches(t) == 1 <==> k >= |pre| + 3)
      && TokenRequests(t) <= 2
      && TokensLive(t, ttl)
      && UserTokenAfterDispatch(t)
  {
    var full := LaunchTrace(pre, roomCall, url, ttl, launch);
    var t := full[..k];
    var n := |pre|;
    LaunchTraceCounts(pre, roomCall, url, ttl, launch, k);
    forall i | 0 <= i < |t| && t[i].GetToken?
      ensures t[i].ttl == ttl
    {
      assert i >= n ==> full[n..][i - n] == t[i];
    }
    forall i | 0 <= i < |t| && t[i].GetToken? && TokenRequests(t[..i]) > 0
      ensures Dispatches(t[..i]) == 1
    {
      assert t[..i] == full[..i];
      LaunchTraceCounts(pre, roomCall, url, ttl, launch, i);
      assert i >= n ==> full[n..][i - n] == t[i];
    }
  }
}
