/**
 * The server's global `rooms` dictionary as an object, with one method per
 * request or socket handler that reads or changes it. Each method's new
 * registry is the matching function of module Rooms applied to the old one.
 */
module Registry {
  import opened Outcomes
  import opened Rooms

  class RoomRegistry {
    /** Room code to live room. */
    var rooms: map<string, Room>

    ghost predicate Valid()
      reads this
    {
      MembersNonNegative(rooms)
    }

    /** The registry at process start: no rooms. */
    constructor ()
      ensures Valid()
      ensures rooms == map[]
    {
      rooms := map[];
    }

    /**
     * Draws `length` letters, one `draw` per letter, until the code they spell
     * is not a live room's code. The result is the first such pass's code.
     */
    method GenerateUniqueCode(length: nat, draw: nat -> nat) returns (code: string)
      requires EventuallyFresh(rooms, draw, length)
      ensures IsRoomCode(code, length)
      ensures code !in rooms
      ensures exists k: nat ::
        && code == Attempt(draw, length, k)
        && forall j: nat :: j < k ==> Attempt(draw, length, j) in rooms
    {
      ghost var goal: nat :| Attempt(draw, length, goal) !in rooms;
      var pass: nat := 0;
      var next: nat := 0;
      while true
        invariant next == pass * length
        invariant pass <= goal
        invariant forall j: nat :: j < pass ==> Attempt(draw, length, j) in rooms
        decreases goal - pass
      {
        code := "";
        for i := 0 to length
          invariant |code| == i
          invariant forall j :: 0 <= j < i ==> code[j] == Letter(draw(next + j))
        {
          code := code + [Letter(draw(next + i))];
        }
        AttemptLetters(draw, length, pass, next, code);
        if code !in rooms {
          break;
        }
        assert (pass + 1) * length == pass * length + length;
        pass := pass + 1;
        next := next + length;
      }
    }

    /**
     * The POST branch of the home page: validates the form and, for a
     * creation, allocates a fresh four-letter code and adds an empty room
     * under it. Returns the session the page stores, or the refusal.
     */
    method Home(form: Form, draw: nat -> nat) returns (r: Result<Session, EntryError>)
      requires Valid()
      requires CheckEntry(rooms, form) == Success(Create) ==> EventuallyFresh(rooms, draw, CodeLength)
      modifies this
      ensures Valid()
      ensures var e := CheckEntry(old(rooms), form);
        && (e.Failure? ==> r == Failure(e.error) && rooms == old(rooms))
        && (e.Success? && e.value.Join? ==>
              r == Success(Session(Some(e.value.code), form.name)) && rooms == old(rooms))
        && (e == Success(Create) ==>
              && r.Success? && r.value.name == form.name && r.value.room.Some?
              && IsRoomCode(r.value.room.value, CodeLength)
              && r.value.room.value !in old(rooms)
              && rooms == Created(old(rooms), r.value.room.value))
    {
      var name := form.name;
      var code := form.code;
      if !Truthy(name) {
        return Failure(NoName);
      }
      if form.join && !Truthy(code) {
        return Failure(NoCode);
      }
      var room := code;
      if form.create {
        var newCode := GenerateUniqueCode(CodeLength, draw);
        rooms := rooms[newCode := Room(0, [])];
        room := Some(newCode);
      } else if code.None? || code.value !in rooms {
        return Failure(NoSuchRoom);
      }
      r := Success(Session(room, name));
    }

    /** The `message` socket handler: appends the line to the session's room, if it is live. */
    method Message(session: Session, data: string)
      requires Valid()
      modifies this
      ensures Valid()
      ensures rooms == Messaged(old(rooms), session, data)
    {
      var room := session.room;
      if room.None? || room.value !in rooms {
        return;
      }
      var content := Msg(session.name, data);
      var entry := rooms[room.value];
      rooms := rooms[room.value := entry.(messages := entry.messages + [content])];
    }

    /** The `connect` socket handler: counts one more member in the session's room. */
    method Connect(session: Session)
      requires Valid()
      modifies this
      ensures Valid()
      ensures rooms == Connected(old(rooms), session)
    {
      var room := session.room;
      var name := session.name;
      if !Truthy(room) || !Truthy(name) {
        return;
      }
      if room.value !in rooms {
        return;
      }
      var entry := rooms[room.value];
      rooms := rooms[room.value := entry.(members := entry.members + 1)];
    }

    /** The `disconnect` socket handler: counts one member fewer and drops an emptied room. */
    method Disconnect(session: Session)
      requires Valid()
      modifies this
      ensures Valid()
      ensures rooms == Disconnected(old(rooms), session)
    {
      var room := session.room;
      if room.Some? && room.value in rooms {
        var entry := rooms[room.value];
        rooms := rooms[room.value := entry.(members := entry.members - 1)];
        if rooms[room.value].members <= 0 {
          rooms := rooms - {room.value};
        }
      }
    }
  }
}
