/** Runs of the coordinator: a sequence of events replayed from a session,
    with the effects of every handler concatenated in order. */
module Trace {
  import opened Options
  import opened Protocol
  import opened Coordinator

  /** An inbound message with the engine readiness seen while handling it, or
      an explicit end of game. */
  datatype Event =
    | Message(sender: SenderId, msg: Inbound, ready: bool)
    | EndOfGame(endState: EndState)

  function Apply(s: Session, e: Event): Outcome
  {
    match e
    case Message(sender, m, ready) => OnMessage(s, sender, m, ready)
    case EndOfGame(endState) => BroadcastEndGame(s, endState)
  }

  /** A join the session accepts in state `s`. */
  predicate Admitted(s: Session, e: Event)
  {
    e.Message? && e.msg.command == "join" && Admits(s, e.sender)
  }

  datatype Run = Run(final: Session, effects: seq<Effect>)

  /** Replays `events` from `s`. The invariant holds in every state reached,
      the game state never returns to "onload" and the counter never goes down. */
  function Replay(s: Session, events: seq<Event>): (r: Run)
    ensures Valid(s) ==> Valid(r.final)
    ensures GameStateAtMost(s.gameState, r.final.gameState)
    ensures s.coinInserted <= r.final.coinInserted
    decreases |events|
  {
    if events == [] then Run(s, [])
    else
      var o := Apply(s, events[0]);
      var rest := Replay(o.session, events[1..]);
      Run(rest.final, o.effects + rest.effects)
  }

  /** The number of joins accepted while replaying `events` from `s`. */
  function Admissions(s: Session, events: seq<Event>): nat
    decreases |events|
  {
    if events == [] then 0
    else (if Admitted(s, events[0]) then 1 else 0) + Admissions(Apply(s, events[0]).session, events[1..])
  }

  /** Leave, move and unrecognised commands never touch the coin gate. */
  lemma NonJoinInsertsNoCoin(s: Session, sender: SenderId, m: Inbound, ready: bool)
    requires m.command != "join"
    ensures var o := OnMessage(s, sender, m, ready);
            Coins(o.effects) == 0 && o.session.coinInserted == s.coinInserted
  {
  }

  /** One event passes the coin gate only if it is an accepted join. */
  lemma StepCoins(s: Session, e: Event)
    requires Valid(s)
    ensures var o := Apply(s, e);
            && Coins(o.effects) == (if Admitted(s, e) && s.coinInserted == 1 then 1 else 0)
            && o.session.coinInserted == (if Admitted(s, e) then 1 else s.coinInserted)
  {
    match e
    case EndOfGame(endState) =>
    case Message(sender, m, ready) =>
      if m.command == "join" {
        JoinCoinGate(s, sender, m.name, ready);
      } else {
        NonJoinInsertsNoCoin(s, sender, m, ready);
      }
  }

  /** Over any run from a valid session, the coin is inserted once per
      accepted join, except for the very first start of the process. */
  lemma {:induction false} CoinGate(s: Session, events: seq<Event>)
    requires Valid(s)
    ensures var n := Admissions(s, events);
            var r := Replay(s, events);
            && Coins(r.effects) == (if s.coinInserted == 0 && n > 0 then n - 1 else n)
            && r.final.coinInserted == (if s.coinInserted == 0 && n == 0 then 0 else 1)
    decreases |events|
  {
    if events != [] {
      var o := Apply(s, events[0]);
      StepCoins(s, events[0]);
      CoinGate(o.session, events[1..]);
      var rest := Replay(o.session, events[1..]);
      assert Replay(s, events).effects == o.effects + rest.effects;
      assert multiset(o.effects + rest.effects) == multiset(o.effects) + multiset(rest.effects);
    }
  }

  /** From process start: the first accepted join inserts no coin, every
      later one inserts exactly one. */
  lemma CoinGateFromStart(events: seq<Event>)
    ensures var n := Admissions(Initial, events);
            Coins(Replay(Initial, events).effects) == (if n == 0 then 0 else n - 1)
  {
    CoinGate(Initial, events);
  }

  /** Every reachable session keeps the invariant: no sender twice, roles
      fixed by slot, one seated sender per occupied slot. */
  lemma Reachable(events: seq<Event>)
    ensures var t := Replay(Initial, events).final;
            && Valid(t)
            && |Players(t)| == (if t.player1.Occupied? then 1 else 0) + (if t.player2.Occupied? then 1 else 0)
  {
    PlayersAtMostTwo(Replay(Initial, events).final);
  }

  /** Alice then Bob join an engine that is not ready: Alice is greeted as X
      on her own join and again on Bob's, Bob as O, and only Bob's join
      inserts a coin. */
  lemma TwoPlayerScenario()
    ensures var events := [Message("A", Inbound("join", Some("alice"), None), false),
                           Message("B", Inbound("join", Some("bob"), None), false)];
            var r := Replay(Initial, events);
            && r.effects == [Send("A", Joined(X, Onload)),
                             Send("A", Joined(X, Onload)), Send("B", Joined(O, Onload)), InsertCoin]
            && r.final.player1 == Occupied(Player("A", Some("alice"), Some(X)))
            && r.final.player2 == Occupied(Player("B", Some("bob"), Some(O)))
  {
  }

  /** With both players seated, "left" from slot 1 presses key 37 and from
      slot 2 key 65; a third sender's move presses nothing. */
  lemma MoveRoutingScenario()
    ensures var seated := Session(Occupied(Player("A", Some("alice"), Some(X))),
                                  Occupied(Player("B", Some("bob"), Some(O))), Ready, 1);
            && OnMove(seated, "A", Some("left")).effects == [KeyPressed(37)]
            && OnMove(seated, "B", Some("left")).effects == [KeyPressed(65)]
            && OnMove(seated, "C", Some("left")).effects == []
  {
  }

}
