/** The session-memory helpers shared by the agents: plain and list-valued
    memorisation, forgetting, prompt-variable initialisation, and storing and
    fetching a game room under its `<id>_game_details` key. */
module Memory {
  import opened Wrappers
  import opened Errors
  import opened SessionState

  // ---------------------------------------------------------------------------
  // memorize

  /** Store `value` under `key`, replacing whatever was there. */
  function Memorize(s: State, key: string, value: string): (r: Step<()>)
    ensures r.result.Success?
    ensures key in r.state && r.state[key] == Str(value)
    ensures r.state.Keys == s.Keys + {key}
    ensures SameExcept(s, r.state, {key})
  {
    Step(Success(()), s[key := Str(value)])
  }

  /** The last write to a key wins, and writing the same value twice is writing it once. */
  lemma MemorizeLastWriteWins(s: State, key: string, a: string, b: string)
    ensures Memorize(Memorize(s, key, a).state, key, b).state == Memorize(s, key, b).state
    ensures Memorize(Memorize(s, key, b).state, key, b).state == Memorize(s, key, b).state
  {
  }

  // ---------------------------------------------------------------------------
  // memorize_list

  /** Add `value` to the list under `key` unless it is already there; an absent
      key first gets an empty list. A non-list value raises as Python would. */
  function MemorizeList(s: State, key: string, value: string): (r: Step<()>)
    ensures key !in s ==> r == Step(Success(()), s[key := List([Str(value)])])
    ensures key in s && s[key].List? ==>
      && r.result.Success?
      && key in r.state && r.state[key].List?
      && (Str(value) in s[key].items ==> r.state == s)
      && (Str(value) !in s[key].items ==> r.state[key].items == s[key].items + [Str(value)])
    ensures key in s && (s[key].Null? || s[key].Int? || s[key].Room?) ==> r == Step(Failure(Raised(TypeError)), s)
    ensures r.result.Failure? ==> r.state == s
    ensures SameExcept(s, r.state, {key})
  {
    var current := if key in s then s[key] else List([]);
    var s1 := if key in s then s else s[key := List([])];
    match Contains(current, Str(value))
    case None => Step(Failure(Raised(TypeError)), s1)
    case Some(true) => Step(Success(()), s1)
    case Some(false) =>
      if current.List? then
        assert key !in s ==> current.items + [Str(value)] == [Str(value)];
        Step(Success(()), s1[key := List(current.items + [Str(value)])])
      else Step(Failure(Raised(AttributeError)), s1)
  }

  /** A second identical memorize_list call after a successful one changes nothing. */
  lemma MemorizeListIdempotent(s: State, key: string, value: string)
    requires MemorizeList(s, key, value).result.Success?
    ensures MemorizeList(MemorizeList(s, key, value).state, key, value)
         == Step(Success(()), MemorizeList(s, key, value).state)
  {
    var s1 := MemorizeList(s, key, value).state;
    if key in s && s[key].Str? {
      assert s1 == s;
    } else {
      assert s1[key].List? && Str(value) in s1[key].items;
    }
  }

  // ---------------------------------------------------------------------------
  // forget

  /** Position of the first occurrence of `v` in `xs`. */
  function FirstIndex(xs: seq<Value>, v: Value): (i: nat)
    requires v in xs
    ensures i < |xs| && xs[i] == v && v !in xs[..i]
  {
    if xs[0] == v then 0
    else
      var j := FirstIndex(xs[1..], v);
      assert xs[..j + 1] == [xs[0]] + xs[1..][..j];
      j + 1
  }

  /** Python's `list.remove(v)`: drop the first occurrence of `v`, keep the rest in order. */
  function RemoveFirst(xs: seq<Value>, v: Value): (r: seq<Value>)
    ensures v !in xs ==> r == xs
    ensures v in xs ==> r == xs[..FirstIndex(xs, v)] + xs[FirstIndex(xs, v) + 1..]
  {
    if |xs| == 0 then []
    else if xs[0] == v then xs[1..]
    else
      var rest := RemoveFirst(xs[1..], v);
      assert v in xs ==> xs[..FirstIndex(xs, v)] == [xs[0]] + xs[1..][..FirstIndex(xs[1..], v)];
      [xs[0]] + rest
  }

  /** Remove the first occurrence of `value` from the list under `key`; a None
      value first becomes an empty list; a missing key raises KeyError. */
  function Forget(s: State, key: string, value: string): (r: Step<()>)
    ensures key !in s ==> r == Step(Failure(Raised(KeyError)), s)
    ensures key in s && s[key].Null? ==> r == Step(Success(()), s[key := List([])])
    ensures key in s && s[key].List? ==>
      && r.result.Success?
      && r.state == s[key := List(RemoveFirst(s[key].items, Str(value)))]
    ensures key in s && (s[key].Int? || s[key].Room?) ==> r == Step(Failure(Raised(TypeError)), s)
    ensures r.result.Failure? ==> r.state == s
    ensures SameExcept(s, r.state, {key})
  {
    if key !in s then Step(Failure(Raised(KeyError)), s)
    else
      var current := if s[key].Null? then List([]) else s[key];
      var s1 := if s[key].Null? then s[key := List([])] else s;
      match Contains(current, Str(value))
      case None => Step(Failure(Raised(TypeError)), s1)
      case Some(false) => Step(Success(()), s1)
      case Some(true) =>
        if current.List? then Step(Success(()), s1[key := List(RemoveFirst(current.items, Str(value)))])
        else Step(Failure(Raised(AttributeError)), s1)
  }

  /** Forget removes exactly one occurrence: the remaining list has one fewer copy
      of the value and the same copies of everything else. */
  lemma {:induction false} RemoveFirstMultiset(xs: seq<Value>, v: Value)
    ensures multiset(RemoveFirst(xs, v)) == multiset(xs) - multiset{v}
  {
    if |xs| > 0 {
      assert xs == [xs[0]] + xs[1..];
      if xs[0] != v {
        RemoveFirstMultiset(xs[1..], v);
      }
    }
  }

  /** Adding a value the list lacks and then forgetting it gives back the list
      (an absent key is left holding an empty list). */
  lemma MemorizeListThenForget(s: State, key: string, value: string)
    requires key in s ==> s[key].List? && Str(value) !in s[key].items
    ensures key in s ==> Forget(MemorizeList(s, key, value).state, key, value) == Step(Success(()), s)
    ensures key !in s ==> Forget(MemorizeList(s, key, value).state, key, value) == Step(Success(()), s[key := List([])])
  {
    var xs := if key in s then s[key].items else [];
    var x := Str(value);
    assert (xs + [x])[..|xs|] == xs;
    assert FirstIndex(xs + [x], x) == |xs|;
    assert RemoveFirst(xs + [x], x) == xs;
    if key in s {
      assert s[key := List(xs)] == s;
    }
  }

  // ---------------------------------------------------------------------------
  // initialize_session_state_for_instruction_prompts

  /** The state variables the instruction prompts refer to. */
  const PromptKeys: seq<string> := [
    GameDetailsKey, UserDetailsKey, UserIdKey, UserBetKey, UserPurseKey,
    UserRoleKey, GameRoomIdKey, CurrentGameKey, LastUserMessageKey ]

  /** Give every key of `keys` that is absent from `s` the value None, in order. */
  function SetAbsentToNull(s: State, keys: seq<string>): (r: State)
    ensures r.Keys == s.Keys + set k | k in keys
    ensures forall k :: k in s ==> r[k] == s[k]
    ensures forall k :: k in r && k !in s ==> r[k] == Null
    decreases |keys|
  {
    if |keys| == 0 then s
    else SetAbsentToNull(if keys[0] in s then s else s[keys[0] := Null], keys[1..])
  }

  /** The before-agent callback: every prompt variable missing from the state becomes None. */
  function InitializeSessionStateForPrompts(s: State): (r: State)
    ensures forall k :: k in PromptKeys ==> k in r
    ensures forall k :: k in PromptKeys && k !in s ==> r[k] == Null
    ensures forall k :: k in s ==> k in r && r[k] == s[k]
    ensures forall k :: k in r ==> k in s || k in PromptKeys
  {
    SetAbsentToNull(s, PromptKeys)
  }

  /** Running the initialisation callback again changes nothing. */
  lemma InitializeSessionStateIdempotent(s: State)
    ensures InitializeSessionStateForPrompts(InitializeSessionStateForPrompts(s)) == InitializeSessionStateForPrompts(s)
  {
    var r1 := InitializeSessionStateForPrompts(s);
    var r2 := InitializeSessionStateForPrompts(r1);
    assert r2.Keys == r1.Keys;
  }

  // ---------------------------------------------------------------------------
  // _load_game_room / _save_game_room

  /** The key a game room is stored under: `<id>_game_details`. */
  function RoomKey(id: string): string {
    id + "_" + GameDetailsKey
  }

  /** Different room ids are stored under different keys. */
  lemma RoomKeyInjective(a: string, b: string)
    requires RoomKey(a) == RoomKey(b)
    ensures a == b
  {
    assert |a| == |b|;
    assert a == RoomKey(a)[..|a|];
    assert b == RoomKey(b)[..|b|];
  }

  /** Fetch the game room stored for `id`: a missing or falsy entry is the
      "does not exist" error; an entry that is not a game room fails validation. */
  function LoadGameRoom(s: State, id: string): (r: Result<GameRoom, ToolError>)
    ensures r.Success? <==> RoomKey(id) in s && s[RoomKey(id)].Room?
    ensures r.Success? ==> s[RoomKey(id)] == Room(r.value)
    ensures !Truthy(Get(s, RoomKey(id), Null)) <==> r == Failure(Refused(RoomDoesNotExist(id)))
  {
    var stored := Get(s, RoomKey(id), Null);
    if !Truthy(stored) then Failure(Refused(RoomDoesNotExist(id)))
    else if stored.Room? then Success(stored.room)
    else Failure(Raised(ValidationError))
  }

  /** Store a game room under the key derived from its own id; loading that id
      gives the room back and no other key changes. */
  function SaveGameRoom(s: State, room: GameRoom): (r: State)
    ensures LoadGameRoom(r, room.gameRoomId) == Success(room)
    ensures r.Keys == s.Keys + {RoomKey(room.gameRoomId)}
    ensures SameExcept(s, r, {RoomKey(room.gameRoomId)})
  {
    s[RoomKey(room.gameRoomId) := Room(room)]
  }

  /** Saving one room leaves what every other room id loads unchanged. */
  lemma SaveKeepsOtherRooms(s: State, room: GameRoom, id: string)
    requires id != room.gameRoomId
    ensures LoadGameRoom(SaveGameRoom(s, room), id) == LoadGameRoom(s, id)
  {
    if RoomKey(id) == RoomKey(room.gameRoomId) {
      RoomKeyInjective(id, room.gameRoomId);
    }
  }
}
