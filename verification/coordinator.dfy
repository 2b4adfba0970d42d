/** The session coordinator of `receiver/pacman.js`: two player slots, the
    game-state marker and the process-wide coin counter, with one pure
    function per message handler. Each handler returns the new session and
    the effects it performed, in order. */
module Coordinator {
  import opened Options
  import opened Protocol
  import opened Input

  /** A joined controller. `role` is None until a start sequence assigns it. */
  datatype Player = Player(senderId: SenderId, name: Option<string>, role: Option<Role>)

  /** One of the two seats; Empty replaces pacman.js's `-1` marker. */
  datatype Slot = Empty | Occupied(player: Player)
  {
    predicate HeldBy(id: SenderId)
    {
      Occupied? && player.senderId == id
    }
  }

  /** `mPlayer1`, `mPlayer2`, `mGameState` and the static `pacman.coinInserted`. */
  datatype Session = Session(player1: Slot, player2: Slot, gameState: GameState, coinInserted: nat)

  /** An exception that escapes a handler. */
  datatype Fault = ReferenceError(identifier: string)

  /** Result of handling one event: the new session, the effects performed,
      and the exception that aborted the handler, if any. */
  datatype Outcome = Outcome(session: Session, effects: seq<Effect>, raised: Option<Fault>)

  /** The state after construction, with the counter at its load-time value. */
  const Initial: Session := Session(Empty, Empty, Onload, 0)

  predicate Holds(s: Session, id: SenderId)
  {
    s.player1.HeldBy(id) || s.player2.HeldBy(id)
  }

  function SlotIds(slot: Slot): set<SenderId>
  {
    if slot.Occupied? then {slot.player.senderId} else {}
  }

  /** The sender ids currently holding a slot. */
  function Players(s: Session): set<SenderId>
  {
    SlotIds(s.player1) + SlotIds(s.player2)
  }

  /** Two slots hold the same occupant, ignoring the role field. */
  predicate SameOccupant(a: Slot, b: Slot)
  {
    && a.Occupied? == b.Occupied?
    && (a.Occupied? ==> a.player.senderId == b.player.senderId && a.player.name == b.player.name)
  }

  /** The invariant every handler keeps: no sender in both slots, roles fixed
      by slot, the coin counter is 0 or 1, and it is 0 only before the first
      start sequence, when nobody has joined and the game is still loading. */
  predicate Valid(s: Session)
  {
    && (s.player1.Occupied? && s.player2.Occupied? ==> s.player1.player.senderId != s.player2.player.senderId)
    && (s.player1.Occupied? ==> s.player1.player.role == Some(X))
    && (s.player2.Occupied? ==> s.player2.player.role == Some(O))
    && s.coinInserted <= 1
    && (s.coinInserted == 0 ==> s.player1.Empty? && s.player2.Empty? && s.gameState == Onload)
  }

  /** A join from `sender` is accepted: it holds no slot and a slot is free. */
  predicate Admits(s: Session, sender: SenderId)
  {
    !Holds(s, sender) && (s.player1.Empty? || s.player2.Empty?)
  }

  /** A `joined` message with `role` and game state `gs` was sent to the
      occupant of `slot`. */
  predicate JoinedSent(effects: seq<Effect>, slot: Slot, role: Role, gs: GameState)
  {
    slot.Occupied? && Send(slot.player.senderId, Joined(role, gs)) in effects
  }

  /** The `joined` message to a slot's occupant, if the slot is held. */
  function Greet(slot: Slot, role: Role, gs: GameState): seq<Effect>
  {
    if slot.Occupied? then [Send(slot.player.senderId, Joined(role, gs))] else []
  }

  /** The coin gate at the end of startGame_: the counter is incremented
      after its old value is tested, so only a non-zero counter inserts a
      coin, and then a decrement restores the incremented counter. */
  function PassCoinGate(coinInserted: nat): (r: (nat, seq<Effect>))
    ensures coinInserted == 0 ==> r.0 == 1 && r.1 == []
    ensures coinInserted != 0 ==> r.0 == coinInserted && r.1 == [InsertCoin]
  {
    var bumped := coinInserted + 1;
    if coinInserted != 0 then (bumped - 1, [InsertCoin]) else (bumped, [])
  }

  /** `startGame_`: give slot 1 role X and slot 2 role O, advance the game
      state if the engine reports ready, send `joined` to each occupant, then
      pass the coin gate: the first start ever only bumps the counter from 0
      to 1, every later start inserts a coin and leaves the counter as it was. */
  function StartGame(s: Session, ready: bool): (r: Outcome)
    ensures r.raised == None
    ensures SameOccupant(r.session.player1, s.player1) && SameOccupant(r.session.player2, s.player2)
    ensures r.session.player1.Occupied? ==> r.session.player1.player.role == Some(X)
    ensures r.session.player2.Occupied? ==> r.session.player2.player.role == Some(O)
    ensures Valid(s) ==> r.session.player1 == s.player1 && r.session.player2 == s.player2
    ensures GameStateAtMost(s.gameState, r.session.gameState)
    ensures r.session.gameState == Ready <==>
              s.gameState == Ready || (ready && (s.player1.Occupied? || s.player2.Occupied?))
    ensures r.effects == Greet(s.player1, X, r.session.gameState) + Greet(s.player2, O, r.session.gameState)
                         + (if s.coinInserted == 0 then [] else [InsertCoin])
    ensures s.coinInserted == 0 ==> r.session.coinInserted == 1
    ensures s.coinInserted != 0 ==> r.session.coinInserted == s.coinInserted
  {
    var p1 := if s.player1.Occupied? then Occupied(s.player1.player.(role := Some(X))) else Empty;
    var p2 := if s.player2.Occupied? then Occupied(s.player2.player.(role := Some(O))) else Empty;
    var gs1 := if p1.Occupied? && ready then Ready else s.gameState;
    var gs2 := if p2.Occupied? && ready then Ready else gs1;
    var (coin, inserted) := PassCoinGate(s.coinInserted);
    Outcome(Session(p1, p2, gs2, coin), Greet(p1, X, gs1) + Greet(p2, O, gs2) + inserted, None)
  }

  /** Every start sequence sends exactly one `joined` to each occupant, with
      its slot's role and the game state the sequence ended in. */
  lemma StartGameGreetsOnce(s: Session, ready: bool)
    ensures var r := StartGame(s, ready);
            && (s.player1.Occupied? ==> multiset(r.effects)[Send(s.player1.player.senderId, Joined(X, r.session.gameState))] == 1)
            && (s.player2.Occupied? ==> multiset(r.effects)[Send(s.player2.player.senderId, Joined(O, r.session.gameState))] == 1)
  {
  }

  /** A start sequence sends nothing but those greetings and the coin. */
  lemma StartGameSendsNothingElse(s: Session, ready: bool)
    ensures var r := StartGame(s, ready);
            forall i :: 0 <= i < |r.effects| && r.effects[i] != InsertCoin ==>
              || (s.player1.Occupied? && r.effects[i] == Send(s.player1.player.senderId, Joined(X, r.session.gameState)))
              || (s.player2.Occupied? && r.effects[i] == Send(s.player2.player.senderId, Joined(O, r.session.gameState)))
  {
  }

  /** A start sequence inserts one coin, as its last effect, unless it is the
      very first; the very first inserts none. */
  lemma StartGameCoins(s: Session, ready: bool)
    ensures var r := StartGame(s, ready);
            && Coins(r.effects) == (if s.coinInserted == 0 then 0 else 1)
            && (InsertCoin in r.effects ==> r.effects[|r.effects| - 1] == InsertCoin)
  {
  }

  /** The session with `sender` seated in the first free slot, slot 1
      before slot 2, its role not yet assigned. */
  function Seat(s: Session, sender: SenderId, name: Option<string>): (t: Session)
    requires s.player1.Empty? || s.player2.Empty?
    ensures s.player1.Empty? ==> t.player1 == Occupied(Player(sender, name, None)) && t.player2 == s.player2
    ensures s.player1.Occupied? ==> t.player1 == s.player1 && t.player2 == Occupied(Player(sender, name, None))
    ensures t.gameState == s.gameState && t.coinInserted == s.coinInserted
  {
    if s.player1.Empty? then s.(player1 := Occupied(Player(sender, name, None)))
    else s.(player2 := Occupied(Player(sender, name, None)))
  }

  /** `onJoin`: reject a sender that already holds a slot or a full game with
      one error reply and no state change; otherwise seat the sender in the
      first free slot and run the start sequence. */
  function OnJoin(s: Session, sender: SenderId, name: Option<string>, ready: bool): (r: Outcome)
    ensures r.raised == None
    ensures s.player1.HeldBy(sender) ==>
              r.session == s && r.effects == [SendError(sender, AlreadyJoinedText(s.player1.player.role))]
    ensures !s.player1.HeldBy(sender) && s.player2.HeldBy(sender) ==>
              r.session == s && r.effects == [SendError(sender, AlreadyJoinedText(s.player2.player.role))]
    ensures !Holds(s, sender) && s.player1.Occupied? && s.player2.Occupied? ==>
              r.session == s && r.effects == [SendError(sender, GameFullText)]
    ensures Admits(s, sender) && s.player1.Empty? ==>
              && r.session.player1 == Occupied(Player(sender, name, Some(X)))
              && SameOccupant(r.session.player2, s.player2)
              && JoinedSent(r.effects, r.session.player1, X, r.session.gameState)
    ensures Admits(s, sender) && s.player1.Occupied? ==>
              && SameOccupant(r.session.player1, s.player1)
              && r.session.player2 == Occupied(Player(sender, name, Some(O)))
              && JoinedSent(r.effects, r.session.player2, O, r.session.gameState)
    ensures Admits(s, sender) ==> Holds(r.session, sender)
    ensures Admits(s, sender) ==> r == StartGame(Seat(s, sender, name), ready)
    ensures Admits(s, sender) ==> (r.session.gameState == Ready <==> s.gameState == Ready || ready)
    ensures Admits(s, sender) && s.player1.Occupied? ==> JoinedSent(r.effects, r.session.player1, X, r.session.gameState)
  {
    if s.player1.HeldBy(sender) then
      Outcome(s, [SendError(sender, AlreadyJoinedText(s.player1.player.role))], None)
    else if s.player2.HeldBy(sender) then
      Outcome(s, [SendError(sender, AlreadyJoinedText(s.player2.player.role))], None)
    else if s.player1.Empty? || s.player2.Empty? then
      // after a fill a slot is occupied, so onJoin's guard on startGame_ always passes
      StartGame(Seat(s, sender, name), ready)
    else
      Outcome(s, [SendError(sender, GameFullText)], None)
  }

  /** The coin gate as seen from a join: an accepted join passes it, a
      rejected one never reaches it and inserts nothing. */
  lemma JoinCoinGate(s: Session, sender: SenderId, name: Option<string>, ready: bool)
    ensures var r := OnJoin(s, sender, name, ready);
            && (Admits(s, sender) && s.coinInserted == 0 ==> r.session.coinInserted == 1 && Coins(r.effects) == 0)
            && (Admits(s, sender) && s.coinInserted != 0 ==> r.session.coinInserted == s.coinInserted && Coins(r.effects) == 1)
            && (!Admits(s, sender) ==> r.session == s && Coins(r.effects) == 0)
  {
    if Admits(s, sender) {
      StartGameCoins(Seat(s, sender, name), ready);
    }
  }

  /** `onLeave`: empty the first slot (slot 1 before slot 2) that `sender`
      holds; a sender holding neither slot changes nothing. */
  function OnLeave(s: Session, sender: SenderId): (r: Outcome)
    ensures r.effects == [] && r.raised == None
    ensures r.session.gameState == s.gameState && r.session.coinInserted == s.coinInserted
    ensures !Holds(s, sender) ==> r.session == s
    ensures s.player1.HeldBy(sender) ==> r.session.player1 == Empty && r.session.player2 == s.player2
    ensures !s.player1.HeldBy(sender) && s.player2.HeldBy(sender) ==>
              r.session.player1 == s.player1 && r.session.player2 == Empty
    ensures Valid(s) ==> Valid(r.session) && Players(r.session) == Players(s) - {sender}
  {
    if s.player1.HeldBy(sender) then
      Outcome(s.(player1 := Empty), [], None)
    else if s.player2.HeldBy(sender) then
      Outcome(s.(player2 := Empty), [], None)
    else
      Outcome(s, [], None)
  }

  /** The key press of one move under one scheme, if the direction is known. */
  function Press(scheme: Scheme, direct: Option<string>): seq<Effect>
  {
    match KeyCode(scheme, direct)
    case Some(code) => [KeyPressed(code)]
    case None => []
  }

  /** `onMove`: translate the direction with the mover's slot scheme. A move
      from a sender holding no slot, while some slot is held, reaches
      `sendError(channel, …)`; `channel` is undeclared, so under strict mode
      the handler aborts with a ReferenceError before sending anything. */
  function OnMove(s: Session, sender: SenderId, direct: Option<string>): (r: Outcome)
    ensures r.session == s
    ensures |r.effects| <= 1
    ensures forall i :: 0 <= i < |r.effects| ==> r.effects[i].KeyPressed?
    ensures s.player1.Empty? && s.player2.Empty? ==> r.effects == [] && r.raised == None
    ensures s.player1.HeldBy(sender) ==>
              && r.raised == None
              && (r.effects != [] <==> direct.Some? && direct.value in Table(Arrows))
              && (r.effects != [] ==> r.effects[0] == KeyPressed(Table(Arrows)[direct.value]))
    ensures !s.player1.HeldBy(sender) && s.player2.HeldBy(sender) ==>
              && r.raised == None
              && (r.effects != [] <==> direct.Some? && direct.value in Table(Letters))
              && (r.effects != [] ==> r.effects[0] == KeyPressed(Table(Letters)[direct.value]))
    ensures !Holds(s, sender) ==> r.effects == []
    ensures r.raised.Some? <==> !Holds(s, sender) && (s.player1.Occupied? || s.player2.Occupied?)
  {
    if s.player1.Empty? && s.player2.Empty? then
      Outcome(s, [], None)
    else if s.player1.HeldBy(sender) then
      Outcome(s, Press(Arrows, direct), None)
    else if s.player2.HeldBy(sender) then
      Outcome(s, Press(Letters, direct), None)
    else
      Outcome(s, [], Some(ReferenceError("channel")))
  }

  /** `broadcastEndGame`: free both slots whatever they held and broadcast
      the end state; the game-state marker and the coin counter are kept. */
  function BroadcastEndGame(s: Session, endState: EndState): (r: Outcome)
    ensures r.session.player1 == Empty && r.session.player2 == Empty
    ensures Players(r.session) == {}
    ensures r.session.gameState == s.gameState && r.session.coinInserted == s.coinInserted
    ensures r.effects == [Broadcast(EndGame(endState))] && r.raised == None
    ensures Valid(s) ==> Valid(r.session)
  {
    Outcome(s.(player1 := Empty, player2 := Empty), [Broadcast(EndGame(endState))], None)
  }

  /** `onMessage`: dispatch on the `command` field; any other command is
      dropped without a reply. */
  function OnMessage(s: Session, sender: SenderId, m: Inbound, ready: bool): (r: Outcome)
    ensures m.command == "join" ==> r == OnJoin(s, sender, m.name, ready)
    ensures m.command == "leave" ==> r == OnLeave(s, sender)
    ensures m.command == "move" ==> r == OnMove(s, sender, m.direct)
    ensures m.command !in {"join", "leave", "move"} ==> r == Outcome(s, [], None)
    ensures Valid(s) ==> Valid(r.session)
    ensures GameStateAtMost(s.gameState, r.session.gameState)
    ensures s.coinInserted <= r.session.coinInserted
  {
    if m.command == "join" then
      OnJoin(s, sender, m.name, ready)
    else if m.command == "leave" then
      OnLeave(s, sender)
    else if m.command == "move" then
      OnMove(s, sender, m.direct)
    else
      Outcome(s, [], None)
  }

  /** Under the invariant, each occupied slot contributes its own sender:
      the number of seated senders is the number of occupied slots. (That it
      is at most two is structural: there are only two slots.) */
  lemma PlayersAtMostTwo(s: Session)
    requires Valid(s)
    ensures |Players(s)| == (if s.player1.Occupied? then 1 else 0) + (if s.player2.Occupied? then 1 else 0)
  {
  }

  /** Leaving undoes an accepted join: the slots are back as they were. */
  lemma JoinThenLeave(s: Session, sender: SenderId, name: Option<string>, ready: bool)
    requires Valid(s) && Admits(s, sender)
    ensures var t := OnLeave(OnJoin(s, sender, name, ready).session, sender).session;
            t.player1 == s.player1 && t.player2 == s.player2
  {
  }

  /** No message from one sender can move or evict the player of another. */
  lemma OthersKeepTheirSlots(s: Session, sender: SenderId, m: Inbound, ready: bool, id: SenderId)
    requires Valid(s) && sender != id
    ensures s.player1.HeldBy(id) ==> OnMessage(s, sender, m, ready).session.player1 == s.player1
    ensures s.player2.HeldBy(id) ==> OnMessage(s, sender, m, ready).session.player2 == s.player2
  {
  }

}
