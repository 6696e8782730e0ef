/** The key/value session state the tools read and write, the values stored in
    it, and the bits of Python semantics (truthiness, `in`, `len`) the tools rely on. */
module SessionState {
  import opened Wrappers
  import opened Errors
  import opened Cards

  /** What the deck service answers to a shuffle request; a response without
      a "success" entry is modelled with `success == false`. */
  datatype DeckResponse = DeckResponse(success: bool, deckId: string)

  /** What the deck service answers to a draw request. */
  datatype DrawResponse = DrawResponse(success: bool, cards: seq<Card>)

  /** The dealer's game-room record, with the fields the dealer tools use.
      `playerCards` holds, per player, the draw responses dealt to them. */
  datatype GameRoom = GameRoom(
    gameRoomId: string,
    players: seq<string>,
    gameStatus: string,
    playerScores: map<string, int>,
    playerCards: map<string, seq<DrawResponse>>,
    deck: Option<DeckResponse>,
    cards: seq<Card>)

  /** A session-state value: Python's None, a string, an integer, a list, or a
      game room in its dictionary form. */
  datatype Value =
    | Null
    | Str(s: string)
    | Int(i: int)
    | List(items: seq<Value>)
    | Room(room: GameRoom)

  /** The session state: string keys to values. */
  type State = map<string, Value>

  /** What a tool call produces: its result (or error) and the state it leaves behind. */
  datatype Step<T> = Step(result: Result<T, ToolError>, state: State)

  // Keys named by the application's state-variable constants.
  const GameDetailsKey: string := "game_details"
  const UserDetailsKey: string := "user_details"
  const UserIdKey: string := "user_id"
  const UserBetKey: string := "user_bet"
  const UserPurseKey: string := "user_purse"
  const UserRoleKey: string := "user_role"
  const GameRoomIdKey: string := "game_room_id"
  const CurrentGameKey: string := "current_game"
  const LastUserMessageKey: string := "_last_user_message"

  /** `state.get(key, default)`. */
  function Get(s: State, key: string, default: Value): Value {
    if key in s then s[key] else default
  }

  /** Python truthiness: None, "", 0 and [] are false; a game room's dictionary is never empty. */
  predicate Truthy(v: Value) {
    match v
    case Null => false
    case Str(t) => |t| > 0
    case Int(n) => n != 0
    case List(xs) => |xs| > 0
    case Room(_) => true
  }

  /** `u` occurs as a contiguous piece of `t` (Python's `u in t` on strings). */
  predicate IsSubstring(u: string, t: string)
    decreases |t|
  {
    u <= t || (|t| > 0 && IsSubstring(u, t[1..]))
  }

  /** Python's `item in container`: list membership, substring test on strings,
      None where Python raises TypeError. */
  function Contains(container: Value, item: Value): Option<bool> {
    match container
    case List(xs) => Some(item in xs)
    case Str(t) => if item.Str? then Some(IsSubstring(item.s, t)) else None
    case _ => None
  }

  /** Python's `len(v)` on a list or string; None where the model raises TypeError. */
  function PyLen(v: Value): Option<nat> {
    match v
    case List(xs) => Some(|xs|)
    case Str(t) => Some(|t|)
    case _ => None
  }

  /** `s'` agrees with `s` on every key outside `keys`: same presence, same value. */
  ghost predicate SameExcept(s: State, s': State, keys: set<string>) {
    forall k :: k !in keys ==> (k in s <==> k in s') && (k in s ==> s[k] == s'[k])
  }
}
