# Bank: the room round engine

The game server of "Bank" keeps rooms under a room code. A host socket creates a room. Players join it under a name. The host starts the game. From then on an interval rolls two dice every few seconds and grows the round's pot ("round total"). Players bank the pot into their score on the room's leaderboard.

Each round has two phases:

- The first three rolls are the early phase. A 7 adds 70, a double adds one die's face, and anything else adds the sum.
- Later rolls are the late phase. A double doubles the pot, a 7 busts the round (the pot is lost), and anything else adds the sum.

After a bust, a grace timeout moves the room to the next round. After round 10 it announces the final leaderboard.

This project models that engine in Dafny: the handlers for `host_create`, `join`, `start_game`, `bank` and socket close, `startRound`, and the two timer continuations. It proves what they keep true.

Modules:

- `Scoring` (scoring.dfy) is the per-roll rule, `Score`, as a pure function. `Play` is a reference definition of a whole round: it runs a sequence of rolls up to the first bust. `Rooms.RolledAgreesWithPlay` ties one firing of the engine's interval to it.
- `Names` (names.dfy) is JavaScript's `String.prototype.trim`, which the join handler applies to the requested name. It also defines the names a room can hold.
- `Rooms` (rooms.dfy) has:
  - the room record `RoomState`;
  - the socket, `Connection`, a class whose fields the handlers set;
  - JavaScript's coercion of `undefined` to the property name "undefined", `Key`;
  - the room invariant `Inv`;
  - one pure transition per handler step, with lemmas about scores and the leaderboard total.
- `Engine` (engine.dfy) has the class `Server`. It holds:
  - the `rooms` table;
  - the pending timers, as a table from timer id to `RollTimer(code)` or `GraceTimer(code)`;
  - the next timer id.

  Each handler and each timer firing is a method. It updates these fields and returns the messages it sends, in order. `Server.Valid` requires three things: every room keeps `Inv`, every timer belongs to a room, and the roll intervals pending for a room are exactly the one its `interval` field holds. Every method preserves `Valid`, which is how "at most one roll interval per room" is proved.
- `Scenarios` (scenarios.dfy) is a whole run showing the host-close quirk below.

Behaviour of server.js that the model keeps on purpose:

- An early double adds `d1`, one die's face, not the sum of the dice.
- An early 7 adds 70. So the rolls (3,4), (2,5), (6,1) and then (4,4) make the pot 210 and then 420. A reading where an early 7 adds its sum would give 21 and then 42 (`Scoring.ThreeEarlySevensThenDouble`).
- Every room has 10 rounds. Nothing in server.js sets another number.
- The host's socket goes by the username "HOST" but is never added to `players`. Closing a socket removes whichever player has that socket's username. So when the host disconnects, a player who joined under the name "HOST" is removed, even though that player's socket is still open (`Scenarios.HostCloseEvictsNamesake`).
- Property lookups with an `undefined` socket field use the key "undefined". A socket that has joined nothing can therefore bank in a room coded "undefined" if that room has a player named "undefined". The `banked` set stores `undefined` itself (`Rooms.MayBank`).

## Model

| member | source | states |
|---|---|---|
| Scoring.Score | server.js:42-91 | A roll busts exactly when it is a 7 after the first three rolls. A bust leaves a pot of 0. Otherwise a non-negative pot never shrinks. Every early roll strictly grows the pot. |
| Scoring.EarlyPhaseGain | server.js:46-55 | In rolls 1-3 nothing busts. A 7 adds the bonus of 70. A double adds the face `d1`, which is less than the sum. Any other roll adds its sum. |
| Scoring.LatePhaseGain | server.js:57-91 | From roll 4 on, a 7 busts with pot 0, a double doubles the pot, and any other roll adds its sum without busting. |
| Scoring.ScoreIgnoresDiceOrder | server.js:46-91 | Swapping the two dice gives the same pot, message and bust flag. |
| Scoring.PlayStopsAtFirstLateSeven | server.js:36-102 | A round's rolls bust iff some roll after the third is a 7. The round then stops at the first such roll with pot 0, and no later roll is made. Without such a roll every roll is made and the pot does not fall below its start. |
| Scoring.EarlyPhaseNeverBusts | server.js:46-55 | Up to three rolls from a fresh round never bust, and each adds at least 1 to the pot. |
| Scoring.ThreeEarlySevensThenDouble | server.js:46-91 | Three early sevens and then the late double (4,4) leave the pot at 420 after 4 rolls, with no bust. |
| Names.Trim | server.js:141 | The trimmed name is no longer than the raw one and neither starts nor ends with white space or a line terminator. |
| Names.TrimRemovesOnlyEdges | server.js:141 | The trimmed name is a contiguous part of the raw name. Everything removed is white space or a line terminator at either end. |
| Names.TrimIdempotent | server.js:141 | Trimming a trimmed name changes nothing. |
| Names.PlayerNamesAreTrimmed | server.js:141-171 | The names a room can hold are exactly the non-empty strings that trimming leaves unchanged. |
| Rooms.Created | server.js:123-133 | A new room has no players, an empty leaderboard, no banked names, pot 0, roll count 0, no interval, round 1 of 10, the creating socket as its host, and satisfies the room invariant. |
| Rooms.Admit | server.js:141-166 | A join is admitted iff the trimmed name is non-empty and not yet a player. The stored name is the trimmed one. An empty trimmed name is refused with "Name cannot be empty", and a taken name with that name. |
| Rooms.Joined | server.js:168-171 | The joined name maps to the socket and has score 0. The invariant is kept, including equal key sets for players and leaderboard. |
| Rooms.Left | server.js:229-231 | The name is removed from both players and leaderboard. Every other player keeps its socket and score, no name is added, the rest of the room is unchanged, and the invariant is kept. |
| Rooms.Bank | server.js:200-204 | If the socket's name is a player that has not banked this round, the name is added to `banked`. Otherwise the room is unchanged. Only `banked` and the leaderboard ever change, so the pot stays for the other players to bank. The invariant is kept either way. |
| Rooms.RoundReset | server.js:25-36 | The pot, roll count and banked set are cleared, and the new interval is recorded. Every other field (host, players, leaderboard, round number, round limit) stays. |
| Rooms.Rolled | server.js:42-91 | The roll count goes up by one. The interval is dropped exactly on a bust. Every field other than roll count, pot and interval stays (host, players, leaderboard, banked set, round number, round limit), and the invariant is kept. |
| Rooms.NextRound | server.js:74 | The round number goes up by exactly one, every other field stays, and the invariant is kept. |
| Rooms.Restarted | server.js:193 | The round number is back to 1, every other field stays, and the invariant is kept. |
| Rooms.RolledAgreesWithPlay | server.js:42-91 | One firing of the interval on a room gives the same pot and roll count as the reference round `Scoring.Play` on that one roll, and drops the interval exactly when `Play` busts. |
| Rooms.RollBookkeeping | server.js:42-91 | Every roll adds exactly one to the roll count, and the pot stays non-negative. |
| Rooms.BankIdempotent | server.js:200-201 | Banking twice in a round has the same effect as banking once. |
| Rooms.BankCreditsExactlyThePot | server.js:200-204 | A successful bank raises only the banking player's score, by exactly the pot. The leaderboard's total grows by exactly the pot. |
| Rooms.JoinKeepsTotal | server.js:171 | A join leaves the leaderboard's total unchanged. |
| Rooms.LeaveUndoesJoin | server.js:229-231 | Leaving right after joining gives back the room as it was. |
| Rooms.LeaveForfeitsScore | server.js:229-231 | A leaving player's score is taken off the leaderboard's total. |
| Rooms.RoundsLeaveBoardAlone | server.js:21-102 | Rolls, round resets, round advances and restarts never change the leaderboard. |
| Engine.AtMostOneInterval | server.js:25-36 | In a consistent server, a room has at most one pending roll interval, and that interval is the one the room records. |
| Engine.RoomAdded | server.js:123-133 | A new room with no interval under an unused code keeps the server consistent. |
| Engine.IntervalReplaced | server.js:25-36 | Clearing a room's interval before setting the next one keeps the server consistent and leaves that room exactly one interval. |
| Engine.IntervalSwappedForGrace | server.js:70-83 | A bust that clears the interval and sets the grace timeout keeps the server consistent and leaves the room no interval. |
| Engine.GraceDropped | server.js:73-83 | A fired grace timeout is gone, and the server stays consistent. |
| Engine.Server.constructor | server.js:5 | A new server has no rooms and no timers, and is consistent. |
| Engine.Server.HostCreate | server.js:111-138 | A code in use gets "Room code already in use", and rooms and socket are unchanged. Otherwise the code maps to a new room hosted by the socket, and the socket becomes host of it with username "HOST". Consistency is kept. |
| Engine.Server.Join | server.js:139-176 | A missing room, an empty trimmed name or a taken name gets its error, and rooms and socket are unchanged. Otherwise only that room changes, by `Joined`. The socket takes the name and code, and the new leaderboard is broadcast to the players, the newcomer included. |
| Engine.Server.StartRound | server.js:21-36 | For an existing room: the old interval is cleared, one new interval is set (and is the room's only one), the round counters are reset, and the round is announced. For a missing room nothing happens. |
| Engine.Server.StartGame | server.js:177-194 | Only the host socket of its own room starts the game, from round 1 with a fresh round. Any other socket gets "Only host can start the game", and nothing changes. |
| Engine.Server.FireRoll | server.js:36-102 | A firing of a room's interval scores the roll with `Score` and broadcasts it. On a bust the interval is gone and one grace timeout is pending, so the round makes no further roll. Otherwise the timers are unchanged. |
| Engine.Server.FireGrace | server.js:73-83 | The round number goes up by one. If it is within `maxRounds`, the next round starts. Otherwise the final leaderboard is broadcast and no interval is set. |
| Engine.Server.Bank | server.js:195-215 | A player of the socket's room who has not banked this round is credited as in `Rooms.Bank`. The new score and then the leaderboard are broadcast. In every other case nothing changes and nothing is sent. |
| Engine.Server.Close | server.js:225-237 | If the socket's username is a non-empty player name in the socket's room, that name leaves the room, whichever socket joined with it, and the leaderboard is broadcast. Otherwise nothing changes. |
| Scenarios.GuestNamedHost | server.js:135-171 | After a host creates a room and another socket joins as "HOST", both sockets go by "HOST" and only the guest is a player. |
| Scenarios.HostCloseEvictsNamesake | server.js:225-237 | Closing that host's socket empties the leaderboard, although the guest's socket still goes by "HOST". |

## Left out

- The WebSocket server, the socket lifecycle, `JSON.parse`/`JSON.stringify` and the catch that answers "Malformed request." are not modelled. Handlers take the already-decoded fields and return the messages they send as `Event` values.
- `broadcast` skips sockets that are not open. The model records a broadcast to the room's `players` map as it is at that moment. Whether each socket is still open is left out, because the socket state belongs to the WebSocket library.
- `Math.random` is not modelled. Each die is an input of type `Die`, 1 to 6.
- The 4000 ms delays of the interval and the grace timeout are not modelled. Any pending timer may fire next, so the model admits every order of timer firings and messages, including ones the real delays would rule out.
- `console.log` and `console.error` are not modelled.
- JavaScript numbers are IEEE-754 doubles, and the model's pot and scores are exact integers. Doubling the pot and adding it to a score stay exact in server.js only below 2^53, and past about 2^1024 they become `Infinity`. So Scoring.LatePhaseGain ("doubles the pot"), Rooms.BankCreditsExactlyThePot ("exactly the pot") and the other pot and score facts hold for server.js only while values stay below 2^53. Reaching that takes about 50 late doubles in one round without a 7.
- Room records are values in the server's `rooms` map that the handlers replace, not objects updated in place. server.js never replaces or deletes a room under a code. So the room object a timer captured is always the one `rooms[roomCode]` returns, and this changes nothing observable.
- Plain-object lookups can find inherited keys, such as "constructor" or "toString", in `rooms`, `players` and `leaderboard`. The model treats only keys that were stored as present.
- Non-string `room` or `name` fields are not modelled. The room code is a string. A missing name behaves as the empty string, which gives the same "Name cannot be empty" reply as `undefined?.trim()`.
- Strings are sequences of Unicode scalar values. Lone UTF-16 surrogates cannot occur in the model.
- Scoring.Note: the roll messages are kept as their kind and number (`EarlyDouble(d1)`, `Doubled(pot)`), not as the emoji texts.
- Power-ups, ending a round when everyone has banked, top-3 rankings and a waiting/playing state are not modelled, because server.js has none of them.
