/** The game-room agent's tools: a host creates a room, players join it. The
    room is kept in application-scoped keys `app:<id>_players` (the enrolled
    user ids) and `app:<id>_num_players` (the capacity) of the shared state. */
module GameRoomTools {
  import opened Wrappers
  import opened Errors
  import opened SessionState

  /** The fixed id every created room gets. */
  const NewGameRoomId: string := "1234"

  function PlayersKey(id: string): string {
    "app:" + id + "_players"
  }

  function NumPlayersKey(id: string): string {
    "app:" + id + "_num_players"
  }

  /** The two application-scoped keys of a room are distinct from each other and
      from the session keys the tools write. */
  lemma AppKeysAreDistinct(id: string)
    ensures PlayersKey(id) != NumPlayersKey(id)
    ensures PlayersKey(id) !in {UserIdKey, UserRoleKey, GameRoomIdKey}
    ensures NumPlayersKey(id) !in {UserIdKey, UserRoleKey, GameRoomIdKey}
  {
    assert |PlayersKey(id)| < |NumPlayersKey(id)|;
    assert PlayersKey(id)[0] == 'a' && NumPlayersKey(id)[0] == 'a';
    assert UserIdKey[0] == 'u' && UserRoleKey[0] == 'u' && GameRoomIdKey[0] == 'g';
  }

  // ---------------------------------------------------------------------------
  // create_game

  /** Create room "1234" hosted by the session's user: refused when no user id is
      known; otherwise the session records the room and the host role, and the
      room's player list and capacity are written to the shared keys. */
  function CreateGame(s: State, maxNumPlayers: int): (r: Step<string>)
    ensures !Truthy(Get(s, UserIdKey, Null)) <==> r == Step(Failure(Refused(UserIdUnknown)), s)
    ensures Truthy(Get(s, UserIdKey, Null)) ==> r.result.Success?
    ensures r.result.Failure? ==> r.state == s
    ensures r.result.Success? ==>
      && r.result.value == NewGameRoomId
      && r.state.Keys == s.Keys + {GameRoomIdKey, UserRoleKey, PlayersKey(NewGameRoomId), NumPlayersKey(NewGameRoomId)}
      && r.state[GameRoomIdKey] == Str(NewGameRoomId)
      && r.state[UserRoleKey] == Str("host")
      && r.state[PlayersKey(NewGameRoomId)] == List([s[UserIdKey]])
      && r.state[NumPlayersKey(NewGameRoomId)] == Int(maxNumPlayers)
      && r.state[UserIdKey] == s[UserIdKey]
      && SameExcept(s, r.state, {GameRoomIdKey, UserRoleKey, PlayersKey(NewGameRoomId), NumPlayersKey(NewGameRoomId)})
  {
    var user := Get(s, UserIdKey, Null);
    if !Truthy(user) then Step(Failure(Refused(UserIdUnknown)), s)
    else
      AppKeysAreDistinct(NewGameRoomId);
      var id := NewGameRoomId;
      Step(Success(id),
        s[GameRoomIdKey := Str(id)][UserRoleKey := Str("host")]
         [PlayersKey(id) := List([user])][NumPlayersKey(id) := Int(maxNumPlayers)])
  }

  // ---------------------------------------------------------------------------
  // join_game, as written

  /** The capacity test the join tool applies, as written: the join is rejected
      when the capacity is at least the current number of players. */
  predicate RejectsAsWritten(capacity: int, enrolled: nat) {
    capacity >= enrolled
  }

  /** The capacity test the rejection message describes: the room is full once
      the enrolled players reach its capacity. */
  predicate RejectsAsIntended(capacity: int, enrolled: nat) {
    enrolled >= capacity
  }

  /** Join room `id` as a player. Refused when no user id is known or the room's
      player list is missing or empty; `len` or `>=` on values of the wrong type
      raise TypeError; `reject` decides whether the room counts as full; on
      success the session records the room and the player role and the user id is
      appended to the room's player list (no duplicate check). A player list that
      is a string passes every guard and then raises AttributeError on append,
      after the session keys were already written. */
  function Join(s: State, id: string, reject: (int, nat) -> bool): (r: Step<()>)
  {
    var user := Get(s, UserIdKey, Null);
    if !Truthy(user) then Step(Failure(Refused(UserIdUnknown)), s)
    else
      var capacity := Get(s, NumPlayersKey(id), Int(0));
      var players := Get(s, PlayersKey(id), Null);
      if !Truthy(players) then Step(Failure(Refused(RoomDoesNotExist(id))), s)
      else if PyLen(players).None? || !capacity.Int? then Step(Failure(Raised(TypeError)), s)
      else if reject(capacity.i, PyLen(players).value) then Step(Failure(Refused(RoomAtCapacity(id))), s)
      else
        var s1 := s[GameRoomIdKey := Str(id)][UserRoleKey := Str("player")];
        if players.List? then Step(Success(()), s1[PlayersKey(id) := List(players.items + [user])])
        else Step(Failure(Raised(AttributeError)), s1)
  }

  /** The join tool as written: it rejects exactly when the capacity is at least
      the number of enrolled players, so a successful join implies the room
      already held more players than its capacity. */
  function JoinGame(s: State, id: string): (r: Step<()>)
    ensures !Truthy(Get(s, UserIdKey, Null)) ==> r == Step(Failure(Refused(UserIdUnknown)), s)
    ensures Truthy(Get(s, UserIdKey, Null)) && !Truthy(Get(s, PlayersKey(id), Null)) ==>
      r == Step(Failure(Refused(RoomDoesNotExist(id))), s)
    ensures r.result == Failure(Refused(RoomAtCapacity(id))) <==>
      && Truthy(Get(s, UserIdKey, Null))
      && Truthy(Get(s, PlayersKey(id), Null))
      && PyLen(Get(s, PlayersKey(id), Null)).Some?
      && Get(s, NumPlayersKey(id), Int(0)).Int?
      && Get(s, NumPlayersKey(id), Int(0)).i >= PyLen(Get(s, PlayersKey(id), Null)).value
    ensures (&& Truthy(Get(s, UserIdKey, Null))
             && Get(s, PlayersKey(id), Null).List? && |Get(s, PlayersKey(id), Null).items| > 0
             && Get(s, NumPlayersKey(id), Int(0)).Int?
             && Get(s, NumPlayersKey(id), Int(0)).i < |Get(s, PlayersKey(id), Null).items|) ==>
      r.result.Success?
    ensures r.result.Failure? && r.result.error != Raised(AttributeError) ==> r.state == s
    ensures r.result.Success? ==>
      && PlayersKey(id) in s && s[PlayersKey(id)].List?
      && Get(s, NumPlayersKey(id), Int(0)).Int?
      && |s[PlayersKey(id)].items| > Get(s, NumPlayersKey(id), Int(0)).i
      && UserIdKey in s
      && r.state.Keys == s.Keys + {GameRoomIdKey, UserRoleKey}
      && r.state[PlayersKey(id)] == List(s[PlayersKey(id)].items + [s[UserIdKey]])
      && r.state[GameRoomIdKey] == Str(id)
      && r.state[UserRoleKey] == Str("player")
      && SameExcept(s, r.state, {GameRoomIdKey, UserRoleKey, PlayersKey(id)})
  {
    AppKeysAreDistinct(id);
    Join(s, id, RejectsAsWritten)
  }

  /** The room just created with a capacity of one or more rejects every join as
      full, whoever asks: only the host is enrolled and the capacity is at least 1. */
  lemma CreatedRoomRejectsEveryJoin(s: State, maxNumPlayers: int, t: State)
    requires CreateGame(s, maxNumPlayers).result.Success? && maxNumPlayers >= 1
    requires Truthy(Get(t, UserIdKey, Null))
    requires var c := CreateGame(s, maxNumPlayers).state;
      && Get(t, PlayersKey(NewGameRoomId), Null) == c[PlayersKey(NewGameRoomId)]
      && Get(t, NumPlayersKey(NewGameRoomId), Int(0)) == c[NumPlayersKey(NewGameRoomId)]
    ensures JoinGame(t, NewGameRoomId) == Step(Failure(Refused(RoomAtCapacity(NewGameRoomId))), t)
  {
  }

  /** A successful join leaves the room holding more players than its capacity
      allows — at least two more than the capacity. */
  lemma SuccessfulJoinOverfillsRoom(s: State, id: string)
    requires JoinGame(s, id).result.Success?
    ensures |JoinGame(s, id).state[PlayersKey(id)].items| >= Get(s, NumPlayersKey(id), Int(0)).i + 2
  {
  }

  /** The same user can join twice: a second join appends the id again. */
  lemma JoinHasNoDuplicateCheck()
    ensures
      var s := map[UserIdKey := Str("u"), PlayersKey("r") := List([Str("u")])];
      JoinGame(s, "r").result.Success? && JoinGame(s, "r").state[PlayersKey("r")] == List([Str("u"), Str("u")])
  {
    AppKeysAreDistinct("r");
  }

  // ---------------------------------------------------------------------------
  // join_game, with the capacity test its message describes

  /** The join with the capacity test turned the right way round: rejected as full
      when the enrolled players already reach the capacity. */
  function JoinGameAsIntended(s: State, id: string): (r: Step<()>)
    ensures r.result.Failure? && r.result.error != Raised(AttributeError) ==> r.state == s
    ensures r.result.Success? ==>
      && PlayersKey(id) in s && s[PlayersKey(id)].List?
      && Get(s, NumPlayersKey(id), Int(0)).Int?
      && UserIdKey in s && PlayersKey(id) in r.state
      && r.state[PlayersKey(id)] == List(s[PlayersKey(id)].items + [s[UserIdKey]])
      && |r.state[PlayersKey(id)].items| <= Get(s, NumPlayersKey(id), Int(0)).i
      && SameExcept(s, r.state, {GameRoomIdKey, UserRoleKey, PlayersKey(id)})
  {
    AppKeysAreDistinct(id);
    Join(s, id, RejectsAsIntended)
  }

  /** With the intended test, a room created for two or more players accepts the
      next user, and no join ever takes the room past its capacity. */
  lemma CreatedRoomAcceptsJoinAsIntended(s: State, maxNumPlayers: int, t: State)
    requires CreateGame(s, maxNumPlayers).result.Success? && maxNumPlayers >= 2
    requires Truthy(Get(t, UserIdKey, Null))
    requires var c := CreateGame(s, maxNumPlayers).state;
      && Get(t, PlayersKey(NewGameRoomId), Null) == c[PlayersKey(NewGameRoomId)]
      && Get(t, NumPlayersKey(NewGameRoomId), Int(0)) == c[NumPlayersKey(NewGameRoomId)]
    ensures JoinGameAsIntended(t, NewGameRoomId).result.Success?
    ensures JoinGameAsIntended(t, NewGameRoomId).state[PlayersKey(NewGameRoomId)]
         == List([s[UserIdKey], t[UserIdKey]])
  {
    AppKeysAreDistinct(NewGameRoomId);
  }

  // ---------------------------------------------------------------------------
  // start_game, get_game_status

  /** The start-game tool reads the state and returns None: nothing changes. */
  function StartGame(s: State): (r: Step<()>)
    ensures r == Step(Success(()), s)
  {
    Step(Success(()), s)
  }

  /** The game-status tool reads the state and returns None: nothing changes. */
  function GetGameStatus(s: State): (r: Step<()>)
    ensures r == Step(Success(()), s)
  {
    Step(Success(()), s)
  }
}
