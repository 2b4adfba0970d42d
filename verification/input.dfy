/** The input translator of `onMove`: a direction string becomes the DOM key
    code the engine's `keyPressed` expects, with one fixed scheme per slot. */
module Input {
  import opened Options

  /** Slot 1 drives the arrow keys, slot 2 the W/A/S/D keys. */
  datatype Scheme = Arrows | Letters

  /** Reference table of each scheme: direction to key code. */
  function Table(scheme: Scheme): map<string, int>
  {
    match scheme
    case Arrows => map["left" := 37, "up" := 38, "down" := 40, "right" := 39]
    case Letters => map["left" := 65, "up" := 87, "down" := 83, "right" := 68]
  }

  /** The if-chain of `onMove` for one slot. `direct` is None when the message
      carries no `direct` field; an unrecognised direction yields no key. */
  function KeyCode(scheme: Scheme, direct: Option<string>): (k: Option<int>)
    ensures k.Some? <==> direct.Some? && direct.value in Table(scheme)
    ensures k.Some? ==> k.value == Table(scheme)[direct.value]
  {
    match scheme
    case Arrows =>
      if direct == Some("left") then Some(37)
      else if direct == Some("up") then Some(38)
      else if direct == Some("down") then Some(40)
      else if direct == Some("right") then Some(39)
      else None
    case Letters =>
      if direct == Some("left") then Some(65)
      else if direct == Some("up") then Some(87)
      else if direct == Some("down") then Some(83)
      else if direct == Some("right") then Some(68)
      else None
  }

  /** Within one scheme, different directions press different keys. */
  lemma KeyCodeInjective(scheme: Scheme, d1: Option<string>, d2: Option<string>)
    requires KeyCode(scheme, d1).Some?
    requires KeyCode(scheme, d1) == KeyCode(scheme, d2)
    ensures d1 == d2
  {
  }

  /** The two schemes share no key, so the engine can always tell which
      player a key press came from. */
  lemma SchemesDisjoint(d1: Option<string>, d2: Option<string>)
    requires KeyCode(Arrows, d1).Some?
    ensures KeyCode(Arrows, d1) != KeyCode(Letters, d2)
  {
  }

}
