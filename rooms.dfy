/**
 * The room registry of the chat server, as values: the map from room code to
 * room, the session and form fields the handlers read, and one function per
 * handler giving the registry it leaves behind.
 */
module Rooms {
  import opened Outcomes

  /** One chat line as stored in a room's history: the sender's session name and the text. */
  datatype Msg = Msg(name: Option<string>, message: string)

  /** A live room: the number of connections counted in it and its message history. */
  datatype Room = Room(members: int, messages: seq<Msg>)

  /** The two session keys the handlers read; either may be missing. */
  datatype Session = Session(room: Option<string>, name: Option<string>)

  /**
   * The fields of a form posted to the home page. `join` and `create` record
   * whether the field of that name was sent at all, whatever its value.
   */
  datatype Form = Form(name: Option<string>, code: Option<string>, join: bool, create: bool)

  /** The three ways the home page refuses a form. */
  datatype EntryError = NoName | NoCode | NoSuchRoom

  /** What an accepted form asks for: a new room, or an existing room by code. */
  datatype Entry = Create | Join(code: string)

  /** The length of the codes the home page allocates. */
  const CodeLength: nat := 4

  /** The letters codes are drawn from. */
  const Alphabet: string := "ABCDEFGHIJKLMNOPQRSTUVWXYZ"

  /** The error text the home page shows for each refusal. */
  function ErrorText(e: EntryError): string
  {
    match e
    case NoName => "Please enter a name."
    case NoCode => "Please enter a room code."
    case NoSuchRoom => "Room does not exist."
  }

  /** Python truthiness of a string that may be `None`: present and non-empty. */
  predicate Truthy(s: Option<string>)
  {
    s.Some? && s.value != ""
  }

  /** `s in rooms`, where `None` is never a key. */
  predicate Has(rooms: map<string, Room>, s: Option<string>)
  {
    s.Some? && s.value in rooms
  }

  /** The registry invariant: no live room counts fewer than zero members. */
  ghost predicate MembersNonNegative(rooms: map<string, Room>)
  {
    forall c :: c in rooms ==> rooms[c].members >= 0
  }

  /** Every room other than the one under `code` is present in both maps or in neither, with the same value. */
  ghost predicate OthersUnchanged(before: map<string, Room>, after: map<string, Room>, code: string)
  {
    && (forall c :: c != code ==> (c in before <==> c in after))
    && (forall c :: c != code && c in before ==> after[c] == before[c])
  }

  /** `s` is a code of `length` upper-case letters. */
  predicate IsRoomCode(s: string, length: nat)
  {
    |s| == length && forall i :: 0 <= i < |s| ==> 'A' <= s[i] <= 'Z'
  }

  ghost predicate IsPrefix(a: seq<Msg>, b: seq<Msg>)
  {
    |a| <= |b| && a == b[..|a|]
  }

  // ---------------------------------------------------------------------------
  // Code allocation. `random.choice(ascii_uppercase)` is a stream of draws:
  // `draw(n)` is the value behind the n-th call, and the letter it picks is
  // `Letter(draw(n))`.
  // ---------------------------------------------------------------------------

  /** The letter a draw picks from the alphabet. */
  function Letter(d: nat): (c: char)
    ensures 'A' <= c <= 'Z'
    ensures c in Alphabet
  {
    Alphabet[d % |Alphabet|]
  }

  /**
   * The code built by pass `k` of the generator's outer loop: pass k uses
   * draws k * length up to k * length + length - 1.
   */
  function Attempt(draw: nat -> nat, length: nat, k: nat): (code: string)
    ensures IsRoomCode(code, length)
  {
    var code := seq(length, (i: int) requires 0 <= i < length => Letter(draw(k * length + i)));
    assert forall i :: 0 <= i < length ==> code[i] == Letter(draw(k * length + i));
    code
  }

  /** The letters of pass `k`'s code, starting from the draw at `start`. */
  lemma AttemptLetters(draw: nat -> nat, length: nat, k: nat, start: nat, code: string)
    requires start == k * length
    requires |code| == length
    requires forall i :: 0 <= i < length ==> code[i] == Letter(draw(start + i))
    ensures code == Attempt(draw, length, k)
  {
  }

  /** Some pass of the generator yields a code that is not a key of `rooms`. */
  ghost predicate EventuallyFresh(rooms: map<string, Room>, draw: nat -> nat, length: nat)
  {
    exists k: nat :: Attempt(draw, length, k) !in rooms
  }

  // ---------------------------------------------------------------------------
  // The home page's decision and the registry after each handler.
  // ---------------------------------------------------------------------------

  /**
   * Validation of the home form: which error it reports, or whether it
   * creates a room or joins an existing one. A requested creation wins over a
   * supplied code, which is then ignored.
   */
  function CheckEntry(rooms: map<string, Room>, form: Form): (r: Result<Entry, EntryError>)
    ensures r == Failure(NoName) <==> !Truthy(form.name)
    ensures r == Failure(NoCode) <==> Truthy(form.name) && form.join && !Truthy(form.code)
    ensures r == Success(Create) <==>
      Truthy(form.name) && !(form.join && !Truthy(form.code)) && form.create
    ensures r == Failure(NoSuchRoom) <==>
      Truthy(form.name) && !(form.join && !Truthy(form.code)) && !form.create && !Has(rooms, form.code)
    ensures r.Success? && r.value.Join? ==>
      form.code == Some(r.value.code) && r.value.code in rooms && !form.create
  {
    if !Truthy(form.name) then Failure(NoName)
    else if form.join && !Truthy(form.code) then Failure(NoCode)
    else if form.create then Success(Create)
    else if !Has(rooms, form.code) then Failure(NoSuchRoom)
    else Success(Join(form.code.value))
  }

  /** The registry after a room is created under `code`: an empty room is added and no other room changes. */
  function Created(rooms: map<string, Room>, code: string): (r: map<string, Room>)
    ensures code in r && r[code].members == 0 && r[code].messages == []
    ensures r.Keys == rooms.Keys + {code}
    ensures OthersUnchanged(rooms, r, code)
    ensures MembersNonNegative(rooms) ==> MembersNonNegative(r)
  {
    rooms[code := Room(0, [])]
  }

  /** Each refusal of the home form carries the text the page shows for it. */
  lemma RefusalText(rooms: map<string, Room>, form: Form)
    ensures !Truthy(form.name) ==>
      CheckEntry(rooms, form).Failure? && ErrorText(CheckEntry(rooms, form).error) == "Please enter a name."
    ensures Truthy(form.name) && form.join && !Truthy(form.code) ==>
      CheckEntry(rooms, form).Failure? && ErrorText(CheckEntry(rooms, form).error) == "Please enter a room code."
    ensures Truthy(form.name) && !(form.join && !Truthy(form.code)) && !form.create && !Has(rooms, form.code) ==>
      CheckEntry(rooms, form).Failure? && ErrorText(CheckEntry(rooms, form).error) == "Room does not exist."
  {
  }

  /** Creating a room under a code that is not live leaves every live room as it was. */
  lemma CreateKeepsLiveRooms(rooms: map<string, Room>, code: string)
    requires code !in rooms
    ensures forall c :: c in rooms ==> c in Created(rooms, code) && Created(rooms, code)[c] == rooms[c]
    ensures |Created(rooms, code)| == |rooms| + 1
  {
  }

  /**
   * The registry after a chat message `data` from `s`: a no-op unless the
   * session's room is live; otherwise exactly one line is appended to that
   * room's history.
   */
  function Messaged(rooms: map<string, Room>, s: Session, data: string): (r: map<string, Room>)
    ensures !Has(rooms, s.room) ==> r == rooms
    ensures Has(rooms, s.room) ==>
      var k := s.room.value;
      && k in r
      && r[k].messages == rooms[k].messages + [Msg(s.name, data)]
      && r[k].members == rooms[k].members
      && OthersUnchanged(rooms, r, k)
    ensures r.Keys == rooms.Keys
    ensures forall c :: c in rooms ==> IsPrefix(rooms[c].messages, r[c].messages)
    ensures MembersNonNegative(rooms) ==> MembersNonNegative(r)
  {
    if !Has(rooms, s.room) then rooms
    else
      var room := rooms[s.room.value];
      rooms[s.room.value := room.(messages := room.messages + [Msg(s.name, data)])]
  }

  /**
   * The registry after a socket connects: a no-op unless the session has a
   * non-empty room and name and the room is live; otherwise that room counts
   * one more member.
   */
  function Connected(rooms: map<string, Room>, s: Session): (r: map<string, Room>)
    ensures !(Truthy(s.room) && Truthy(s.name) && Has(rooms, s.room)) ==> r == rooms
    ensures Truthy(s.room) && Truthy(s.name) && Has(rooms, s.room) ==>
      var k := s.room.value;
      && k in r
      && r[k].members == rooms[k].members + 1
      && r[k].messages == rooms[k].messages
      && OthersUnchanged(rooms, r, k)
    ensures r.Keys == rooms.Keys
    ensures MembersNonNegative(rooms) ==> MembersNonNegative(r)
  {
    if !Truthy(s.room) || !Truthy(s.name) || !Has(rooms, s.room) then rooms
    else
      var room := rooms[s.room.value];
      rooms[s.room.value := room.(members := room.members + 1)]
  }

  /**
   * The registry after a socket disconnects: a no-op unless the session's
   * room is live; otherwise that room counts one member fewer, and is removed
   * when the count drops to zero or below.
   */
  function Disconnected(rooms: map<string, Room>, s: Session): (r: map<string, Room>)
    ensures !Has(rooms, s.room) ==> r == rooms
    ensures Has(rooms, s.room) ==>
      var k := s.room.value;
      && (k in r <==> rooms[k].members - 1 > 0)
      && (k in r ==> r[k].members == rooms[k].members - 1 && r[k].messages == rooms[k].messages)
      && OthersUnchanged(rooms, r, k)
    ensures r.Keys <= rooms.Keys
    ensures MembersNonNegative(rooms) ==> MembersNonNegative(r)
  {
    if !Has(rooms, s.room) then rooms
    else
      var room := rooms[s.room.value];
      var left := room.members - 1;
      if left <= 0 then rooms - {s.room.value}
      else rooms[s.room.value := room.(members := left)]
  }

  /**
   * The room page's guard: with no room or no name in the session, or a room
   * that is not live, the visitor is sent back home (`None`); otherwise the
   * page shows that room's history.
   */
  function RoomView(rooms: map<string, Room>, s: Session): (r: Option<seq<Msg>>)
    ensures r.Some? <==> s.room.Some? && s.name.Some? && s.room.value in rooms
    ensures r.Some? ==> r.value == rooms[s.room.value].messages
  {
    if s.room.None? || s.name.None? || s.room.value !in rooms then None
    else Some(rooms[s.room.value].messages)
  }
}
