/**
 * Sequences of handler calls against the registry, and what holds of every
 * registry such a sequence can reach.
 */
module Traces {
  import opened Outcomes
  import opened Rooms

  /**
   * One handler call. `Enter` is a posted home form; `newCode` is the code the
   * generator returns when that form creates a room.
   */
  datatype Event =
    | Enter(form: Form, newCode: string)
    | Send(session: Session, data: string)
    | Connect(session: Session)
    | Disconnect(session: Session)

  /** The registry after one handler call. */
  function Step(rooms: map<string, Room>, e: Event): map<string, Room>
  {
    match e
    case Enter(form, newCode) =>
      if CheckEntry(rooms, form) == Success(Create) then Created(rooms, newCode) else rooms
    case Send(s, data) => Messaged(rooms, s, data)
    case Connect(s) => Connected(rooms, s)
    case Disconnect(s) => Disconnected(rooms, s)
  }

  /** The registry after a sequence of handler calls, in order. */
  function Run(rooms: map<string, Room>, events: seq<Event>): map<string, Room>
    decreases |events|
  {
    if events == [] then rooms else Run(Step(rooms, events[0]), events[1..])
  }

  /** A creating `Enter` uses a code that is not live when it runs, as the generator guarantees. */
  ghost predicate CreatesFresh(rooms: map<string, Room>, e: Event)
  {
    e.Enter? && CheckEntry(rooms, e.form) == Success(Create) ==> e.newCode !in rooms
  }

  /** Every creating `Enter` of the run uses a fresh code. */
  ghost predicate FreshCodes(rooms: map<string, Room>, events: seq<Event>)
    decreases |events|
  {
    events == [] || (CreatesFresh(rooms, events[0]) && FreshCodes(Step(rooms, events[0]), events[1..]))
  }

  /** A creating `Enter` uses a code of `CodeLength` upper-case letters, as the generator guarantees. */
  ghost predicate CreatesRoomCode(rooms: map<string, Room>, e: Event)
  {
    e.Enter? && CheckEntry(rooms, e.form) == Success(Create) ==> IsRoomCode(e.newCode, CodeLength)
  }

  /** Every creating `Enter` of the run uses a code of `CodeLength` upper-case letters. */
  ghost predicate CreatedRoomCodes(rooms: map<string, Room>, events: seq<Event>)
    decreases |events|
  {
    events == [] || (CreatesRoomCode(rooms, events[0]) && CreatedRoomCodes(Step(rooms, events[0]), events[1..]))
  }

  /** Room `c` is live before the run and after each of its steps. */
  ghost predicate StaysLive(rooms: map<string, Room>, events: seq<Event>, c: string)
    decreases |events|
  {
    c in rooms && (events == [] || StaysLive(Step(rooms, events[0]), events[1..], c))
  }

  /** Every key of the registry is a room code of `CodeLength` upper-case letters. */
  ghost predicate AllRoomCodes(rooms: map<string, Room>)
  {
    forall c :: c in rooms ==> IsRoomCode(c, CodeLength)
  }

  /** No handler call makes a live room's member count negative. */
  lemma StepKeepsMembersNonNegative(rooms: map<string, Room>, e: Event)
    requires MembersNonNegative(rooms)
    ensures MembersNonNegative(Step(rooms, e))
  {
  }

  /** Every registry reachable from one without negative counts has none either. */
  lemma {:induction false} RunKeepsMembersNonNegative(rooms: map<string, Room>, events: seq<Event>)
    requires MembersNonNegative(rooms)
    ensures MembersNonNegative(Run(rooms, events))
    decreases |events|
  {
    if events != [] {
      StepKeepsMembersNonNegative(rooms, events[0]);
      RunKeepsMembersNonNegative(Step(rooms, events[0]), events[1..]);
    }
  }

  /** A room live across one call keeps its history as a prefix of the new one. */
  lemma StepExtendsHistory(rooms: map<string, Room>, e: Event, c: string)
    requires CreatesFresh(rooms, e)
    requires c in rooms && c in Step(rooms, e)
    ensures IsPrefix(rooms[c].messages, Step(rooms, e)[c].messages)
  {
  }

  /** While a room stays live, its message history only grows. */
  lemma {:induction false} RunExtendsHistory(rooms: map<string, Room>, events: seq<Event>, c: string)
    requires FreshCodes(rooms, events)
    requires StaysLive(rooms, events, c)
    ensures c in Run(rooms, events)
    ensures IsPrefix(rooms[c].messages, Run(rooms, events)[c].messages)
    decreases |events|
  {
    if events != [] {
      var next := Step(rooms, events[0]);
      StepExtendsHistory(rooms, events[0], c);
      RunExtendsHistory(next, events[1..], c);
      var h0, h1, h2 := rooms[c].messages, next[c].messages, Run(next, events[1..])[c].messages;
      assert h1[..|h0|] == h2[..|h1|][..|h0|];
    }
  }

  /**
   * The session an accepted form stores passes the room page's guard at once:
   * a created room shows an empty history, a joined room its current one.
   */
  lemma EnteredSessionPassesGuard(rooms: map<string, Room>, form: Form, newCode: string)
    requires CheckEntry(rooms, form).Success?
    ensures CheckEntry(rooms, form) == Success(Create) ==>
      RoomView(Step(rooms, Enter(form, newCode)), Session(Some(newCode), form.name)) == Some([])
    ensures CheckEntry(rooms, form).value.Join? ==>
      var c := CheckEntry(rooms, form).value.code;
      RoomView(Step(rooms, Enter(form, newCode)), Session(Some(c), form.name)) == Some(rooms[c].messages)
  {
  }

  /**
   * When the last counted member leaves, the room is gone: its page sends the
   * visitor home and a join by its code is refused.
   */
  lemma LastLeaveClosesRoom(rooms: map<string, Room>, s: Session, name: string)
    requires Has(rooms, s.room) && rooms[s.room.value].members <= 1
    ensures RoomView(Disconnected(rooms, s), s).None?
    ensures name != "" && Truthy(s.room) ==>
      CheckEntry(Disconnected(rooms, s), Form(Some(name), s.room, true, false)) == Failure(NoSuchRoom)
  {
  }

  /** When every created room gets a generated code, every key of the registry is such a code. */
  lemma {:induction false} RunKeepsRoomCodes(rooms: map<string, Room>, events: seq<Event>)
    requires AllRoomCodes(rooms)
    requires CreatedRoomCodes(rooms, events)
    ensures AllRoomCodes(Run(rooms, events))
    decreases |events|
  {
    if events != [] {
      RunKeepsRoomCodes(Step(rooms, events[0]), events[1..]);
    }
  }

  /**
   * A room's lifecycle: Alice creates ABCD and connects, Bob joins by code
   * and connects, Alice says "hi", both leave. Each member count and the
   * history are as the handlers promise, and afterwards the code is unknown.
   */
  lemma {:induction false} LifecycleScenario()
    ensures
      var alice := Session(Some("ABCD"), Some("Alice"));
      var bob := Session(Some("ABCD"), Some("Bob"));
      var created := Run(map[], [Enter(Form(Some("Alice"), None, false, true), "ABCD"), Connect(alice)]);
      var joined := Run(created, [Enter(Form(Some("Bob"), Some("ABCD"), true, false), "QQQQ"), Connect(bob)]);
      var chatted := Run(joined, [Send(alice, "hi")]);
      var closed := Run(chatted, [Disconnect(alice), Disconnect(bob)]);
      && created == map["ABCD" := Room(1, [])]
      && joined == map["ABCD" := Room(2, [])]
      && chatted == map["ABCD" := Room(2, [Msg(Some("Alice"), "hi")])]
      && closed == map[]
      && CheckEntry(closed, Form(Some("Bob"), Some("ABCD"), true, false)) == Failure(NoSuchRoom)
  {
    var alice := Session(Some("ABCD"), Some("Alice"));
    var bob := Session(Some("ABCD"), Some("Bob"));
    var m0: map<string, Room> := map[];
    var m1 := Step(m0, Enter(Form(Some("Alice"), None, false, true), "ABCD"));
    assert m1 == map["ABCD" := Room(0, [])];
    var m2 := Step(m1, Connect(alice));
    assert m2 == map["ABCD" := Room(1, [])];
    var m3 := Step(m2, Enter(Form(Some("Bob"), Some("ABCD"), true, false), "QQQQ"));
    assert m3 == m2;
    var m4 := Step(m3, Connect(bob));
    assert m4 == map["ABCD" := Room(2, [])];
    var m5 := Step(m4, Send(alice, "hi"));
    assert m5 == map["ABCD" := Room(2, [Msg(Some("Alice"), "hi")])];
    var m6 := Step(m5, Disconnect(alice));
    assert m6 == map["ABCD" := Room(1, [Msg(Some("Alice"), "hi")])];
    var m7 := Step(m6, Disconnect(bob));
    assert m7 == map[];
    RunPair(m0, Enter(Form(Some("Alice"), None, false, true), "ABCD"), Connect(alice));
    RunPair(m2, Enter(Form(Some("Bob"), Some("ABCD"), true, false), "QQQQ"), Connect(bob));
    RunPair(m5, Disconnect(alice), Disconnect(bob));
  }

  /** Running two calls is stepping twice. */
  lemma RunPair(rooms: map<string, Room>, e1: Event, e2: Event)
    ensures Run(rooms, [e1, e2]) == Step(Step(rooms, e1), e2)
  {
    assert [e1, e2][1..] == [e2];
    assert [e2][1..] == [];
    calc {
      Run(rooms, [e1, e2]);
      Run(Step(rooms, e1), [e2]);
      Run(Step(Step(rooms, e1), e2), []);
    }
  }
}
