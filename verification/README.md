# Pac-Man cast receiver: session coordinator model

A Dafny model of the session coordinator in `receiver/pacman.js`. It is the
display-side half of a two-player Pac-Man game played from remote
controllers. The model covers:

- the `pacman` object's two player slots (`mPlayer1`, `mPlayer2`);
- its game-state marker (`mGameState`, "onload" or "ready");
- the process-wide `pacman.coinInserted` counter;
- the handlers that change them: `onMessage`, `onJoin`, `onLeave`,
  `onMove`, `startGame_` and `broadcastEndGame`.

Every handler is a pure function. It takes the session, plus the sender and
message where the handler has them. It returns an `Outcome`: the new session,
the effects it performed in order, and the exception that aborted it, if any.
The effects are:

- `Send(to, msg)`: `castMessageBus_.send`, which `sendError` also uses;
- `Broadcast(msg)`: `broadcast`;
- `KeyPressed(code)`: `google.pacman.keyPressed`;
- `InsertCoin`: `google.pacman.insertCoin`.

The `-1` empty-slot marker becomes `Slot = Empty | Occupied(Player)`. A
player's role is `None` until a start sequence assigns it. The engine's
`google.pacman.ready` flag is a boolean input of each inbound message. An
absent or throwing engine reads as `false`, because `startGame_` swallows that
exception.

Modules:

- `Options`: the optional value.
- `Protocol`: roles, game state, inbound and outbound messages, effects and
  the reply texts.
- `Input`: the direction-to-key-code translation of `onMove`, checked
  against a reference table for each slot.
- `Coordinator`: the session record, its invariant `Valid` and the handlers.
- `Trace`: replay of event sequences. This is where the properties of whole
  runs live: the invariant holds in every reachable state, the game state
  never goes back, and the coin gate fires on every accepted join but the
  first.

Where the code and its own documentation disagree, the model follows the code:

- **Non-player move.** A move from a sender holding no slot, while some slot
  is held, calls `sendError(channel, …)`. `channel` is not declared anywhere
  in the file, and the file runs in strict mode. So the handler throws a
  ReferenceError and no error reply goes out. The model records this as
  `raised == Some(ReferenceError("channel"))` with no effects. It does not
  model the "You are not playing the game" reply the code evidently intends.
- **Leaving does not end the game.** The doc comment of `onLeave` says it
  ends the game if all players are absent. The `broadcastEndGame` call there
  is commented out, so a leave only empties the leaver's slot and emits
  nothing. Ending the game is a separate event in the model.

The duplicate-join rejection text reads the player's role, which would
render as "undefined" if unset; the invariant `Valid` shows every seated
player has its role, so that text always names X or O.

## Model

| member | source | states |
|---|---|---|
| Input.KeyCode | receiver/pacman.js:198-219 | a direction yields a key exactly when it is one of left/up/down/right, and the key is the one the slot's table gives (37/38/40/39 for slot 1, 65/87/83/68 for slot 2) |
| Input.KeyCodeInjective | receiver/pacman.js:198-219 | within one slot's scheme, two directions that press the same key are the same direction |
| Input.SchemesDisjoint | receiver/pacman.js:198-219 | no key of slot 1's scheme is a key of slot 2's, so a key press identifies the player |
| Coordinator.PassCoinGate | receiver/pacman.js:284-287 | a counter of 0 becomes 1 and inserts no coin; any other counter is left as it was and inserts exactly one coin |
| Coordinator.StartGame | receiver/pacman.js:250-288 | occupants stay in their slots; slot 1 gets role X and slot 2 gets role O, and a valid session's slots are left as they were; the game state becomes "ready" exactly when it already was, or the engine is ready and a slot is held, and never goes back; the counter goes from 0 to 1 on the first start and is otherwise unchanged |
| Coordinator.StartGameGreetsOnce | receiver/pacman.js:257-281 | each occupied slot's sender gets exactly one `joined` message, carrying its slot's role and the game state the sequence ended in |
| Coordinator.StartGameSendsNothingElse | receiver/pacman.js:250-288 | apart from the coin, a start sequence emits only those `joined` messages |
| Coordinator.StartGameCoins | receiver/pacman.js:283-287 | the first start inserts no coin; every later start inserts exactly one, as its last effect |
| Coordinator.Seat | receiver/pacman.js:139-146 | a joiner goes into slot 1 if it is free, else slot 2, with no role yet; the other slot, the game state and the counter are untouched |
| Coordinator.OnJoin | receiver/pacman.js:121-159 | a sender already in slot 1 or slot 2 gets one "You are already <role>…" error and the session is unchanged; a join to a full game gets one "Game is full." error and the session is unchanged; otherwise the sender takes slot 1 if free, else slot 2, the other slot keeps its occupant, and the start sequence then always runs on the seated session: the outcome is exactly that sequence's, so every occupant, the joiner and the one already seated, gets a `joined` message for its slot's role, and the game state becomes "ready" if it was or the engine is ready |
| Coordinator.JoinCoinGate | receiver/pacman.js:139-158 | an accepted join runs the start sequence's coin gate; a rejected join leaves the session, and so the counter, unchanged and inserts no coin |
| Coordinator.OnLeave | receiver/pacman.js:166-180 | no effects; game state and counter unchanged; a sender in neither slot changes nothing; otherwise only the first slot it holds, slot 1 before slot 2, is emptied; on a valid session the sender is removed from the players and nobody else is |
| Coordinator.OnMove | receiver/pacman.js:188-226 | the session never changes and at most one key is pressed; with both slots empty nothing happens; the slot-1 sender presses its arrow-scheme key and the slot-2 sender its letter-scheme key, or none for an unknown direction; a move from anyone else presses nothing, and it raises the ReferenceError exactly when some slot is held |
| Coordinator.BroadcastEndGame | receiver/pacman.js:239-245 | both slots end empty whatever they held; game state and counter are kept; exactly one `endgame` broadcast with the given end state is emitted; the invariant is kept |
| Coordinator.OnMessage | receiver/pacman.js:97-113 | "join", "leave" and "move" go to their handlers; any other command changes nothing and emits nothing; every message keeps the invariant, never moves the game state back and never lowers the counter |
| Coordinator.PlayersAtMostTwo | receiver/pacman.js:124-151 | in a valid session the number of distinct seated senders equals the number of occupied slots (the bound of two itself is structural: there are two slots) |
| Coordinator.JoinThenLeave | receiver/pacman.js:139-177 | a leave by the sender just admitted restores both slots to what they were before the join |
| Coordinator.OthersKeepTheirSlots | receiver/pacman.js:97-226 | no message from one sender moves or evicts the player seated under another sender id |
| Trace.Replay | receiver/pacman.js:97-113 | over any sequence of messages and end-of-game events, the invariant holds in the final state, the game state never returns to "onload" and the counter never decreases |
| Trace.NonJoinInsertsNoCoin | receiver/pacman.js:104-113 | leave, move and unrecognised commands insert no coin and leave the counter unchanged |
| Trace.StepCoins | receiver/pacman.js:104-158 | on a valid session one event inserts a coin exactly when it is an accepted join and the counter is already 1, and it sets the counter to 1 exactly when it is an accepted join |
| Trace.CoinGate | receiver/pacman.js:284-287 | over any run from a valid session, the coins inserted equal the accepted joins, minus one if the counter started at 0; the counter ends at 1 once any join has been accepted, and is never reset |
| Trace.CoinGateFromStart | receiver/pacman.js:39 | from process start, n accepted joins insert n-1 coins: the first join never inserts one |
| Trace.Reachable | receiver/pacman.js:121-180 | every reachable session keeps the invariant: no sender in both slots, slot 1's role X and slot 2's role O, one distinct seated sender per occupied slot |
| Trace.TwoPlayerScenario | receiver/pacman.js:121-159 | two joins on an engine that is not ready give: X to the first sender, then X again to the first sender and O to the second, then a single coin |
| Trace.MoveRoutingScenario | receiver/pacman.js:198-219 | "left" from slot 1 presses 37, from slot 2 presses 65, and from a third sender presses nothing |

## Left out

- The cast SDK wiring is not modelled: the constructor's `CastReceiverManager` and message-bus setup (`receiver/pacman.js:47-64`), `onSenderConnected`, `onSenderDisconnected` and `window.close()` (`:73-90`). They are I/O against a vendor library. Sender ids and the engine's readiness are inputs instead.
- `console.log` calls: logging only.
- The `google.pacman` engine itself. Readiness is an input boolean. `keyPressed` and `insertCoin` are emitted effects only. The try/catch around `keyPressed` and `ready` only means "emit and continue".
- The throwing path of `insertCoin` (`:285`). It is not inside a try/catch, so a throwing engine would skip the decrement at `:286`. Only the non-throwing path is modelled.
- `broadcastGameReady` (`:234-237`): nothing calls it.
- `mCurrentPlayer` (`:50`): declared but never used.
- The `command` and `direct` fields are compared with `==` against string literals, and `name` is only stored. The model takes `command` to be a string and `direct` and `name` to be optional strings; non-string JSON values under those keys are not modelled.
- The onJoin guard `if (mPlayer1 != -1 || mPlayer2 != -1)` before `startGame_` (`:156`) always holds after a slot has been filled, so the model calls `StartGame` unconditionally.
- Coordinator.OnMove: for a non-player's move the model raises a ReferenceError. It does not claim that an error reply reaches the sender, because the undeclared `channel` identifier makes that reply unreachable.
