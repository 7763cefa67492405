/**
 * The worker process: the lifecycle event handlers wired to the transport
 * (the same three handlers in the local worker and in `run_bot`) and the
 * command-line gate in front of `main`.
 */
module Worker {
  import opened Wrappers
  import opened Json

  /** The only frame the handlers queue: the end-of-session signal. */
  datatype Frame = EndFrame

  /** A transport lifecycle event, with the arguments its handler receives. */
  datatype Event =
    | FirstParticipantJoined(participantId: string)
    | ParticipantLeft(participantId: string, reason: string)
    | CallStateUpdated(state: string)

  /** Frames one event's handler queues. */
  function FramesFor(e: Event): seq<Frame>
  {
    match e
    case FirstParticipantJoined(_) => []
    case ParticipantLeft(_, _) => [EndFrame]
    case CallStateUpdated(state) => if state == "left" then [EndFrame] else []
  }

  /** Frames queued by a sequence of events, handled in order. */
  function Queued(events: seq<Event>): seq<Frame>
  {
    if events == [] then []
    else Queued(events[..|events| - 1]) + FramesFor(events[|events| - 1])
  }

  /** Participants whose transcription capture was started by a sequence of events. */
  function Captured(events: seq<Event>): set<string>
  {
    if events == [] then {}
    else
      var last := events[|events| - 1];
      Captured(events[..|events| - 1]) + (if last.FirstParticipantJoined? then {last.participantId} else {})
  }

  /** Events whose handler queues an end frame. */
  predicate Ends(e: Event)
  {
    e.ParticipantLeft? || (e.CallStateUpdated? && e.state == "left")
  }

  function EndingEvents(events: seq<Event>): nat
  {
    if events == [] then 0
    else EndingEvents(events[..|events| - 1]) + (if Ends(events[|events| - 1]) then 1 else 0)
  }

  /**
   * The pipeline task's frame queue and the transport's captured
   * participants, as the handlers change them. `history` is the sequence of
   * events handled so far.
   */
  class Session {
    var queue: seq<Frame>
    var captured: set<string>
    ghost var history: seq<Event>

    ghost predicate Valid()
      reads this
    {
      queue == Queued(history) && captured == Captured(history)
    }

    constructor ()
      ensures Valid() && history == [] && queue == [] && captured == {}
    {
      queue := [];
      captured := {};
      history := [];
    }

    /** `on_first_participant_joined`: capture that participant's transcription; queue nothing. */
    method OnFirstParticipantJoined(participantId: string)
      requires Valid()
      modifies this
      ensures Valid() && history == old(history) + [FirstParticipantJoined(participantId)]
      ensures queue == old(queue) && captured == old(captured) + {participantId}
    {
      captured := captured + {participantId};
      history := history + [FirstParticipantJoined(participantId)];
      assert history[..|history| - 1] == old(history);
    }

    /** `on_participant_left`: queue one end frame, every time. */
    method OnParticipantLeft(participantId: string, reason: string)
      requires Valid()
      modifies this
      ensures Valid() && history == old(history) + [ParticipantLeft(participantId, reason)]
      ensures queue == old(queue) + [EndFrame] && captured == old(captured)
    {
      queue := queue + [EndFrame];
      history := history + [ParticipantLeft(participantId, reason)];
      assert history[..|history| - 1] == old(history);
    }

    /** `on_call_state_updated`: queue an end frame iff the state is "left". */
    method OnCallStateUpdated(state: string)
      requires Valid()
      modifies this
      ensures Valid() && history == old(history) + [CallStateUpdated(state)]
      ensures queue == (if state == "left" then old(queue) + [EndFrame] else old(queue))
      ensures captured == old(captured)
    {
      var e := CallStateUpdated(state);
      var frames := if state == "left" then [EndFrame] else [];
      assert frames == FramesFor(e);
      queue := queue + frames;
      history := history + [e];
      assert history[..|history| - 1] == old(history);
      assert Captured(history) == Captured(old(history));
    }

    /** The transport calling the handler registered under the event's name. */
    method Handle(e: Event)
      requires Valid()
      modifies this
      ensures Valid() && history == old(history) + [e]
      ensures queue == old(queue) + FramesFor(e)
      ensures captured == old(captured) + (if e.FirstParticipantJoined? then {e.participantId} else {})
    {
      match e
      case FirstParticipantJoined(id) => OnFirstParticipantJoined(id);
      case ParticipantLeft(id, reason) => OnParticipantLeft(id, reason);
      case CallStateUpdated(state) => OnCallStateUpdated(state);
    }
  }

  /** Handling two runs of events one after the other queues both runs' frames. */
  lemma {:induction false} QueuedAppend(a: seq<Event>, b: seq<Event>)
    ensures Queued(a + b) == Queued(a) + Queued(b)
  {
    if b == [] {
      assert a + b == a;
    } else {
      var init, last := b[..|b| - 1], b[|b| - 1];
      QueuedAppend(a, init);
      assert (a + b)[..|a + b| - 1] == a + init;
      assert (a + b)[|a + b| - 1] == last;
      calc {
        Queued(a + b);
        Queued(a + init) + FramesFor(last);
        Queued(a) + Queued(init) + FramesFor(last);
        Queued(a) + (Queued(init) + FramesFor(last));
        Queued(a) + Queued(b);
      }
    }
  }

  /**
   * The queue holds only end frames, one per participant-left event and one
   * per "left" call state, with no de-duplication.
   */
  lemma {:induction false} QueueCountsEndingEvents(events: seq<Event>)
    ensures |Queued(events)| == EndingEvents(events)
    ensures forall i :: 0 <= i < |Queued(events)| ==> Queued(events)[i] == EndFrame
  {
    if events != [] {
      QueueCountsEndingEvents(events[..|events| - 1]);
    }
  }

  /** Two departures queue two end frames. */
  lemma TwoDeparturesQueueTwoFrames(p: string, r: string, q: string, s: string)
    ensures Queued([ParticipantLeft(p, r), ParticipantLeft(q, s)]) == [EndFrame, EndFrame]
  {
    var events := [ParticipantLeft(p, r), ParticipantLeft(q, s)];
    assert events[..1] == [ParticipantLeft(p, r)];
    assert [ParticipantLeft(p, r)][..0] == [];
    assert Queued([ParticipantLeft(p, r)]) == [EndFrame];
    assert Queued(events) == Queued(events[..1]) + FramesFor(events[1]);
  }

  /** A participant's capture is started iff a first-participant event named them. */
  lemma {:induction false} CapturedIffJoined(events: seq<Event>, id: string)
    ensures id in Captured(events) <==>
            exists i :: 0 <= i < |events| && events[i] == FirstParticipantJoined(id)
  {
    if events != [] {
      var init := events[..|events| - 1];
      CapturedIffJoined(init, id);
      if id in Captured(init) {
        var i :| 0 <= i < |init| && init[i] == FirstParticipantJoined(id);
        assert events[i] == init[i];
      }
      if exists i :: 0 <= i < |events| && events[i] == FirstParticipantJoined(id) {
        var i :| 0 <= i < |events| && events[i] == FirstParticipantJoined(id);
        if i < |init| {
          assert init[i] == events[i];
        }
      }
    }
  }

  /**
   * A live session's state, in terms of the events it has handled: the queue
   * holds one end frame per ending event and nothing else, and a participant
   * is captured iff a first-participant event named them.
   */
  lemma SessionQueueCounts(s: Session)
    requires s.Valid()
    ensures |s.queue| == EndingEvents(s.history)
    ensures forall i :: 0 <= i < |s.queue| ==> s.queue[i] == EndFrame
    ensures forall id :: id in s.captured <==>
      exists i :: 0 <= i < |s.history| && s.history[i] == FirstParticipantJoined(id)
  {
    QueueCountsEndingEvents(s.history);
    forall id
      ensures id in s.captured <==>
        exists i :: 0 <= i < |s.history| && s.history[i] == FirstParticipantJoined(id)
    {
      CapturedIffJoined(s.history, id);
    }
  }

  /** What the `__main__` block does with its arguments. */
  datatype Start =
    | RunMain(roomUrl: string, token: string, botConfig: Json)  // `asyncio.run(main(...))`
    | Refused                                                   // logs "Room URL and Token are required"
    | DecodeError                                               // `json.loads` raises

  /** Python truthiness of an optional string argument. */
  predicate ArgGiven(a: Option<string>)
  {
    a.Some? && a.value != ""
  }

  /**
   * The `__main__` gate: `-c` is decoded with `loads` when given and
   * non-empty, else it stands for `{}`; `main` runs iff `-u`, `-t` and the
   * decoded configuration are all truthy.
   */
  function WorkerStart(u: Option<string>, t: Option<string>, c: Option<string>,
                       loads: string -> Option<Json>): Start
  {
    var decoded := if ArgGiven(c) then loads(c.value) else Some(Obj(map[]));
    if decoded.None? then DecodeError
    else if ArgGiven(u) && ArgGiven(t) && Truthy(decoded.value) then RunMain(u.value, t.value, decoded.value)
    else Refused
  }

  /**
   * `main` runs exactly when the room URL and token are non-empty and `-c`
   * decodes to a truthy value, and then with exactly those three; a missing
   * `-c` never runs.
   */
  lemma WorkerStartGate(u: Option<string>, t: Option<string>, c: Option<string>,
                        loads: string -> Option<Json>)
    ensures WorkerStart(u, t, c, loads).RunMain? <==>
      ArgGiven(u) && ArgGiven(t) && ArgGiven(c) && loads(c.value).Some? && Truthy(loads(c.value).value)
    ensures WorkerStart(u, t, c, loads).RunMain? ==>
      WorkerStart(u, t, c, loads) == RunMain(u.value, t.value, loads(c.value).value)
    ensures !ArgGiven(c) ==> WorkerStart(u, t, c, loads) == Refused
  {
  }
}
