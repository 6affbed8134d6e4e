# Chat room registry

A Flask and Socket.IO chat server keeps its rooms in one process-wide
dictionary, `rooms`. It maps a four-letter room code to the room's member
count and message history. This project models that registry and every
handler that reads or changes it:

- the code generator, which draws random upper-case letters until the code is not live;
- the home page's form validation and room creation;
- the room page's guard;
- the `message`, `connect` and `disconnect` socket handlers.

It then proves what these handlers promise about the registry.

Layout:

- `outcomes.dfy` holds `Option` (Python's `None` or a value) and `Result`.
- `rooms.dfy` (module `Rooms`) holds the data model and the pure behaviour:
  - `Room(members, messages)`, `Msg(name, message)`, the session's `room`/`name` keys and the posted form;
  - `CheckEntry`, the home page's decision, with the three refusals "Please enter a name.", "Please enter a room code." and "Room does not exist." (`ErrorText`);
  - one function per handler that gives the registry after the call (`Created`, `Messaged`, `Connected`, `Disconnected`);
  - the room page's guard (`RoomView`);
  - the generator's passes (`Attempt`).
- `registry.dfy` (module `Registry`) holds the class `RoomRegistry`. Its field `rooms` is the dictionary. Each handler is a method that updates the field in place and ensures the new map is the matching `Rooms` function of the old one. Each method also keeps the invariant `Valid()`: no live room counts fewer than zero members.
- `traces.dfy` (module `Traces`) runs sequences of handler calls. It proves the following over every run:
  - the invariant holds;
  - a live room's history only grows;
  - every key is a four-letter upper-case code, provided every creation uses such a code;
  - a whole create/join/chat/leave lifecycle goes as expected.

Modelling decisions:

- `random.choice(ascii_uppercase)` is a parameter `draw: nat -> nat`. The n-th call picks `Alphabet[draw(n) % 26]`. Pass `k` of the generator's outer loop uses draws `k*length` to `k*length+length-1` (`Attempt`).
- The source's `while True` ends only once some pass yields a code that is not live. `GenerateUniqueCode` therefore requires that such a pass exists (`EventuallyFresh`). With random draws this happens with probability 1 whenever fewer than 26^4 rooms are live.
- Python truthiness (`not name`) is `Truthy`: the value is present and not empty. `x in rooms` with `x` being `None` is false (`Has`).
- The room page's guard tests only `is None`, so an empty name passes it. `connect` tests truthiness. Both are modelled as written.
- A chat line stores `session.get("name")`, which may be `None`, so `Msg.name` is an `Option`.

## Model

| member | source | states |
|---|---|---|
| Rooms.CheckEntry | main.py:50-61 | A missing or empty name is refused with NoName. Otherwise a join with a missing or empty code is refused with NoCode. Otherwise `create` yields Create and ignores any code. Otherwise a code that is not live is refused with NoSuchRoom. Every condition is an if-and-only-if, and a Join always names a live code. |
| Rooms.Created | main.py:59 | The new code maps to a room with 0 members and no messages. The keys are the old keys plus the code, no other room changes, and the non-negative-members invariant is kept. |
| Rooms.RefusalText | main.py:50-61 | Each refusal's `ErrorText` is the text the page shows. A missing or empty name gives "Please enter a name.". A join without a code gives "Please enter a room code.". A code that is not live gives "Room does not exist.". |
| Rooms.CreateKeepsLiveRooms | main.py:56-59 | Creating under a code that is not live keeps every live room exactly and grows the registry by one. |
| Rooms.Messaged | main.py:94-103 | If the session's room is not live, nothing changes. Otherwise exactly `Msg(name, data)` is appended to that room's history, and its member count and all other rooms stay the same. Every history is a prefix of the new one. |
| Rooms.Connected | main.py:108-119 | If the room or name is missing or empty, or the room is not live, nothing changes. Otherwise that room's count goes up by exactly 1, and its history and all other rooms stay the same. |
| Rooms.Disconnected | main.py:137-144 | If the room is not live, nothing changes. Otherwise the room stays live iff its count minus 1 is above 0, and then it holds that count with the same history. Other rooms stay the same, no key is added, and the invariant is kept. |
| Rooms.RoomView | main.py:78-80 | The guard lets the visitor through iff the session has a room and a name (`None` checks only) and the room is live. In that case it returns the history that main.py:90 would render if the proof step passed. |
| Rooms.Letter | main.py:18 | Every draw picks an upper-case letter of the alphabet. |
| Rooms.Attempt | main.py:16-18 | Each pass of the outer loop spells a code of exactly `length` upper-case letters. |
| Registry.RoomRegistry.constructor | main.py:12 | The registry starts empty and satisfies its invariant. |
| Registry.RoomRegistry.GenerateUniqueCode | main.py:14-23 | The result has exactly `length` letters, each in A-Z. It is not a key of `rooms` at return time. It is the code of the first pass whose code is not live: every earlier pass produced a live code. |
| Registry.RoomRegistry.Home | main.py:45-73 | A refusal returns CheckEntry's error and leaves `rooms` unchanged. A join returns the session (code, name) and leaves `rooms` unchanged. A create returns a session whose room is a fresh four-letter code that was not live. The registry then becomes `Created(old rooms, code)`. |
| Registry.RoomRegistry.Message | main.py:93-103 | `rooms` becomes `Messaged(old rooms, session, data)`, and the invariant is kept. |
| Registry.RoomRegistry.Connect | main.py:107-119 | `rooms` becomes `Connected(old rooms, session)`, and the invariant is kept. |
| Registry.RoomRegistry.Disconnect | main.py:136-144 | `rooms` becomes `Disconnected(old rooms, session)`, and the invariant is kept. |
| Traces.StepKeepsMembersNonNegative | main.py:59-144 | No handler call makes a live room's member count negative. |
| Traces.RunKeepsMembersNonNegative | main.py:59-144 | Every registry reachable by any sequence of handler calls keeps every live room's count at 0 or more. |
| Traces.StepExtendsHistory | main.py:103 | When creations use fresh codes, a room that is live before and after a call keeps its history as a prefix. |
| Traces.RunExtendsHistory | main.py:94-144 | When every creation uses a fresh code, a room that stays live throughout a run ends with a history that extends its starting one. |
| Traces.RunKeepsRoomCodes | main.py:56-59 | When every creating form in a run uses a four-letter upper-case code, every key of every reachable registry is such a code. |
| Traces.EnteredSessionPassesGuard | main.py:56-79 | The session stored by an accepted form passes the room guard at once. `RoomView` then gives `[]` for a created room and the current history for a joined room. |
| Traces.LastLeaveClosesRoom | main.py:141-144 | After the last counted member disconnects, the room guard sends the visitor home. A join with that code is then refused with NoSuchRoom. |
| Traces.LifecycleScenario | main.py:50-144 | Create "ABCD", connect Alice (count 1), Bob joins and connects (count 2), Alice says "hi" (one line of history), both disconnect. The registry is then empty, and joining "ABCD" is refused. |

## Left out

- Flask routing, template rendering, redirects and the session cookie (main.py:41-49, 71-74, 78, 88-90) are left out. The session's `room` and `name` are plain parameters, and a redirect to home is `None` from `RoomView`.
- Socket.IO I/O is left out: `send`, `emit`, `receive`, `join_room`, `leave_room` and the `print` logging. These calls carry no registry state. The join and leave notices are therefore not modelled.
- The `message` payload's `data["data"]` lookup is left out. The model takes the text itself, so a payload without that key, which raises `KeyError` in the source, is not modelled.
- The GET branch of the home page only clears the session and renders the form. It does not touch `rooms` and is left out.
- The Paillier identity proof is left out: `generate_keys`, `generate_proof`, `verify_proof` (main.py:5-6, 25-39) and the proof step of the room page (main.py:82-88). They wrap a library that is not part of this model. As written, `verify_proof` reads `proof["public_key"]`, which `generate_proof` never sets. The verification therefore fails before it decrypts anything, and the model makes no claim that the round trip succeeds.
- Rooms.RoomView: models the room page as if the proof step at main.py:82-88 passed. As written, `verify_proof` raises at main.py:37 before the history is rendered at main.py:90. So `Some(history)` states what the page would show past the guard, not that it is ever shown.
- Traces.EnteredSessionPassesGuard: the history it gives rests on the same assumption as `RoomView`, that the proof step at main.py:82-88 passed.
- Registry.RoomRegistry.GenerateUniqueCode: the draws are a parameter rather than real randomness. The method requires that some pass yields a code that is not live. When every code is live, the source loops forever, and the model does not capture that.
- Concurrency between handlers is left out. The source has no locking, and the model is sequential.
- The commented-out older copy of the application (main.py:122-134, 161-263) and the prose protocol description (main.py:151-158) are left out because they are not executed.
