/** The vocabulary of the cast channel: roles, the game-state marker, inbound
    commands, outbound messages and the side effects a handler performs. */
module Protocol {
  import opened Options

  /** The channel's opaque sender identifier. */
  type SenderId = string

  /** Engine-defined payload of an end-game broadcast. */
  type EndState = string

  /** `pacman.PLAYER`: the role marker handed to each slot's occupant. */
  datatype Role = X | O

  /** `mGameState`: "onload" until the engine reports ready, then "ready". */
  datatype GameState = Onload | Ready

  /** The order in which the game-state marker may advance. */
  predicate GameStateAtMost(a: GameState, b: GameState)
  {
    a == Onload || b == Ready
  }

  /** An inbound JSON message. Fields the sender left out are None. */
  datatype Inbound = Inbound(command: string, name: Option<string>, direct: Option<string>)

  /** Outbound payloads: `joined` and `error` are addressed, `gameready` and
      `endgame` are broadcast. */
  datatype Outbound =
    | Joined(player: Role, gamestate: GameState)
    | Error(message: string)
    | GameReady
    | EndGame(endState: EndState)

  /** What a handler does to the outside world, in order. */
  datatype Effect =
    | Send(to: SenderId, msg: Outbound)   // castMessageBus_.send
    | Broadcast(msg: Outbound)            // castMessageBus_.broadcast
    | KeyPressed(code: int)               // google.pacman.keyPressed
    | InsertCoin                          // google.pacman.insertCoin

  /** `sendError`: an addressed `{event: 'error', message}`. */
  function SendError(to: SenderId, text: string): Effect
  {
    Send(to, Error(text))
  }

  /** How string concatenation renders a player's role field; an unset role
      renders as "undefined". */
  function RoleText(role: Option<Role>): string
  {
    match role
    case Some(X) => "X"
    case Some(O) => "O"
    case None => "undefined"
  }

  /** Reply to a sender that tries to join while already holding a slot. */
  function AlreadyJoinedText(role: Option<Role>): string
  {
    "You are already " + RoleText(role) + " You aren't allowed to play against yourself."
  }

  /** Reply to a join when both slots are taken. */
  const GameFullText: string := "Game is full."

  /** The number of `InsertCoin` effects in a sequence of effects. */
  function Coins(effects: seq<Effect>): nat
  {
    multiset(effects)[InsertCoin]
  }

}
