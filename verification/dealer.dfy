/** The dealer agent's game-room tools. Each one loads the room stored for an
    id, changes it, and saves it back under the key derived from the room's own
    id. Answers from the remote deck service (a shuffled deck, drawn cards)
    arrive as parameters. */
module DealerTools {
  import opened Wrappers
  import opened Errors
  import opened Cards
  import opened SessionState
  import opened Memory

  /** The room a successful tool call saved: it is stored under its own key and
      no other key of the state changed. */
  ghost predicate SavedOnly(s: State, s': State, room: GameRoom) {
    && LoadGameRoom(s', room.gameRoomId) == Success(room)
    && SameExcept(s, s', {RoomKey(room.gameRoomId)})
  }

  // ---------------------------------------------------------------------------
  // initialize_game_room

  /** Start a round: refused while the room is still "pre-game"; otherwise every
      enrolled player gets score 0 and an empty hand, the room gets a freshly
      shuffled deck (`freshDeck`, the deck service's answer) and status "dealing". */
  function InitializeGameRoom(s: State, id: string, freshDeck: DeckResponse): (r: Step<GameRoom>)
    ensures LoadGameRoom(s, id).Failure? ==> r == Step(Failure(LoadGameRoom(s, id).error), s)
    ensures LoadGameRoom(s, id).Success? && LoadGameRoom(s, id).value.gameStatus == "pre-game" ==>
      r == Step(Failure(Refused(GameNotStarted)), s)
    ensures LoadGameRoom(s, id).Success? && LoadGameRoom(s, id).value.gameStatus != "pre-game" ==>
      r.result.Success?
    ensures r.result.Success? ==>
      var before := LoadGameRoom(s, id).value;
      var g := r.result.value;
      && LoadGameRoom(s, id).Success? && before.gameStatus != "pre-game"
      && g.gameStatus == "dealing"
      && g.playerScores.Keys == (set p | p in before.players)
      && (forall p :: p in before.players ==> g.playerScores[p] == 0)
      && (forall p :: p in before.players ==> p in g.playerCards && g.playerCards[p] == [])
      && (forall p :: p in before.playerCards && p !in before.players ==> p in g.playerCards && g.playerCards[p] == before.playerCards[p])
      && g.playerCards.Keys == before.playerCards.Keys + (set p | p in before.players)
      && g.deck == Some(freshDeck)
      && g.(gameStatus := before.gameStatus, playerScores := before.playerScores,
            playerCards := before.playerCards, deck := before.deck) == before
      && SavedOnly(s, r.state, g)
  {
    match LoadGameRoom(s, id)
    case Failure(e) => Step(Failure(e), s)
    case Success(room) =>
      if room.gameStatus == "pre-game" then Step(Failure(Refused(GameNotStarted)), s)
      else
        var g := room.(
          playerScores := map p | p in room.players :: 0,
          playerCards := room.playerCards + map p | p in room.players :: [],
          deck := Some(freshDeck),
          gameStatus := "dealing");
        Step(Success(g), SaveGameRoom(s, g))
  }

  // ---------------------------------------------------------------------------
  // deal_card

  /** Deal to one player: refused unless the player is enrolled; a player with no
      hand entry raises KeyError; otherwise the deck service's draw answer `drawn`
      is appended to that player's hand and nothing else in the room changes. */
  function DealCard(s: State, id: string, playerId: string, drawn: DrawResponse): (r: Step<GameRoom>)
    ensures LoadGameRoom(s, id).Failure? ==> r == Step(Failure(LoadGameRoom(s, id).error), s)
    ensures LoadGameRoom(s, id).Success? && playerId !in LoadGameRoom(s, id).value.players ==>
      r == Step(Failure(Refused(PlayerNotInGame)), s)
    ensures (LoadGameRoom(s, id).Success? && playerId in LoadGameRoom(s, id).value.players
             && playerId !in LoadGameRoom(s, id).value.playerCards) ==>
      r == Step(Failure(Raised(KeyError)), s)
    ensures (LoadGameRoom(s, id).Success? && playerId in LoadGameRoom(s, id).value.players
             && playerId in LoadGameRoom(s, id).value.playerCards) ==>
      r.result.Success?
    ensures r.result.Failure? ==> r.state == s
    ensures r.result.Success? ==>
      var before := LoadGameRoom(s, id).value;
      var g := r.result.value;
      && LoadGameRoom(s, id).Success?
      && playerId in before.players && playerId in before.playerCards
      && g.playerCards.Keys == before.playerCards.Keys
      && g.playerCards[playerId] == before.playerCards[playerId] + [drawn]
      && (forall p :: p in before.playerCards && p != playerId ==> g.playerCards[p] == before.playerCards[p])
      && g.(playerCards := before.playerCards) == before
      && SavedOnly(s, r.state, g)
  {
    match LoadGameRoom(s, id)
    case Failure(e) => Step(Failure(e), s)
    case Success(room) =>
      if playerId !in room.players then Step(Failure(Refused(PlayerNotInGame)), s)
      else if playerId !in room.playerCards then Step(Failure(Raised(KeyError)), s)
      else
        var g := room.(playerCards := room.playerCards[playerId := room.playerCards[playerId] + [drawn]]);
        Step(Success(g), SaveGameRoom(s, g))
  }

  /** Initialising a round gives every enrolled player a hand entry, so dealing to
      any enrolled player right afterwards succeeds (the KeyError branch cannot
      follow it) and leaves that player holding exactly the one draw answer. */
  lemma InitializeThenDeal(s: State, id: string, freshDeck: DeckResponse, playerId: string, drawn: DrawResponse)
    requires InitializeGameRoom(s, id, freshDeck).result.Success?
    requires playerId in LoadGameRoom(s, id).value.players
    ensures var init := InitializeGameRoom(s, id, freshDeck);
      var dealt := DealCard(init.state, init.result.value.gameRoomId, playerId, drawn);
      && dealt.result.Success?
      && dealt.result.value.playerCards[playerId] == [drawn]
      && dealt.result.value.gameStatus == "dealing"
  {
    var init := InitializeGameRoom(s, id, freshDeck);
    var g := init.result.value;
    assert g.players == LoadGameRoom(s, id).value.players;
    assert LoadGameRoom(init.state, g.gameRoomId) == Success(g);
  }

  // ---------------------------------------------------------------------------
  // create_deck_tool

  /** Fill the room's card list: `deck` is the deck service's answer to the shuffle
      request and `drawn` its answer to drawing the whole deck. Either answer
      without success is refused and nothing is saved. */
  function CreateDeckTool(s: State, id: string, deck: DeckResponse, drawn: DrawResponse): (r: Step<seq<Card>>)
    ensures LoadGameRoom(s, id).Failure? ==> r == Step(Failure(LoadGameRoom(s, id).error), s)
    ensures LoadGameRoom(s, id).Success? && !deck.success ==> r == Step(Failure(Refused(DeckNotCreated)), s)
    ensures LoadGameRoom(s, id).Success? && deck.success && !drawn.success ==>
      r == Step(Failure(Refused(CardsNotDrawn)), s)
    ensures r.result.Failure? ==> r.state == s
    ensures r.result.Success? <==> LoadGameRoom(s, id).Success? && deck.success && drawn.success
    ensures r.result.Success? ==>
      && r.result.value == drawn.cards
      && SavedOnly(s, r.state, LoadGameRoom(s, id).value.(deck := Some(deck), cards := drawn.cards))
  {
    match LoadGameRoom(s, id)
    case Failure(e) => Step(Failure(e), s)
    case Success(room) =>
      if !deck.success then Step(Failure(Refused(DeckNotCreated)), s)
      else if !drawn.success then Step(Failure(Refused(CardsNotDrawn)), s)
      else
        var g := room.(deck := Some(deck), cards := drawn.cards);
        Step(Success(g.cards), SaveGameRoom(s, g))
  }

  // ---------------------------------------------------------------------------
  // draw_card_tool

  /** Pop the last card of the room's card list; an empty list raises IndexError
      and nothing is saved. */
  function DrawCardTool(s: State, id: string): (r: Step<Card>)
    ensures LoadGameRoom(s, id).Failure? ==> r == Step(Failure(LoadGameRoom(s, id).error), s)
    ensures LoadGameRoom(s, id).Success? && |LoadGameRoom(s, id).value.cards| == 0 ==>
      r == Step(Failure(Raised(IndexError)), s)
    ensures LoadGameRoom(s, id).Success? && |LoadGameRoom(s, id).value.cards| > 0 ==> r.result.Success?
    ensures r.result.Failure? ==> r.state == s
    ensures r.result.Success? ==>
      var before := LoadGameRoom(s, id).value;
      && LoadGameRoom(s, id).Success? && |before.cards| > 0
      && r.result.value == before.cards[|before.cards| - 1]
      && before.cards == before.cards[..|before.cards| - 1] + [r.result.value]
      && SavedOnly(s, r.state, before.(cards := before.cards[..|before.cards| - 1]))
  {
    match LoadGameRoom(s, id)
    case Failure(e) => Step(Failure(e), s)
    case Success(room) =>
      if |room.cards| == 0 then Step(Failure(Raised(IndexError)), s)
      else
        var n := |room.cards|;
        Step(Success(room.cards[n - 1]), SaveGameRoom(s, room.(cards := room.cards[..n - 1])))
  }

  /** Call the draw tool `n` times in a row, collecting the cards, stopping at the first failure. */
  function DrawTimes(s: State, id: string, n: nat): Step<seq<Card>>
    decreases n
  {
    if n == 0 then Step(Success([]), s)
    else
      var first := DrawCardTool(s, id);
      match first.result
      case Failure(e) => Step(Failure(e), first.state)
      case Success(c) =>
        var rest := DrawTimes(first.state, id, n - 1);
        match rest.result
        case Failure(e) => Step(Failure(e), rest.state)
        case Success(cs) => Step(Success([c] + cs), rest.state)
  }

  /** The last `n` cards of `cards`, last card first: the order repeated pops hand them out. */
  function PoppedOrder(cards: seq<Card>, n: nat): (r: seq<Card>)
    requires n <= |cards|
    ensures |r| == n
    ensures forall j :: 0 <= j < n ==> r[j] == cards[|cards| - 1 - j]
  {
    if n == 0 then []
    else [cards[|cards| - 1]] + PoppedOrder(cards[..|cards| - 1], n - 1)
  }

  /** The room `room` is what the state holds under that room's own key. */
  predicate StoredUnderOwnId(s: State, room: GameRoom) {
    RoomKey(room.gameRoomId) in s && s[RoomKey(room.gameRoomId)] == Room(room)
  }

  /** One successful draw from a room stored under its own id: the last card is
      returned and the room is stored again without it. */
  lemma DrawOnce(s: State, room: GameRoom)
    requires StoredUnderOwnId(s, room) && |room.cards| > 0
    ensures DrawCardTool(s, room.gameRoomId)
         == Step(Success(room.cards[|room.cards| - 1]),
                 s[RoomKey(room.gameRoomId) := Room(room.(cards := room.cards[..|room.cards| - 1]))])
  {
  }

  /** For a room stored under its own id, drawing `n` cards one at a time hands
      them out from the end of the list, last card first, and leaves exactly the
      untouched prefix stored: no card is duplicated or lost, and no other key changes. */
  lemma {:induction false} DrawTimesTakesFromTheEnd(s: State, room: GameRoom, n: nat)
    requires StoredUnderOwnId(s, room)
    requires n <= |room.cards|
    ensures DrawTimes(s, room.gameRoomId, n)
         == Step(Success(PoppedOrder(room.cards, n)),
                 s[RoomKey(room.gameRoomId) := Room(room.(cards := room.cards[..|room.cards| - n]))])
    decreases n
  {
    var key := RoomKey(room.gameRoomId);
    var kept := room.cards[..|room.cards| - n];
    if n == 0 {
      assert room.(cards := kept) == room;
      assert s[key := Room(room)] == s;
    } else {
      var m := |room.cards|;
      var room' := room.(cards := room.cards[..m - 1]);
      var s1 := s[key := Room(room')];
      DrawTimesTakesFromTheEnd(s1, room', n - 1);
      assert room'.cards[..|room'.cards| - (n - 1)] == kept;
      assert room'.(cards := kept) == room.(cards := kept);
      OverwriteTwice(s, key, Room(room'), Room(room.(cards := kept)));
      DrawTimesAfterDraw(s, room, n, PoppedOrder(room'.cards, n - 1), s[key := Room(room.(cards := kept))]);
    }
  }

  /** Writing a key twice leaves only the second write. */
  lemma OverwriteTwice(s: State, key: string, a: Value, b: Value)
    ensures s[key := a][key := b] == s[key := b]
  {
  }

  /** A run of `n` draws from a stored room with cards is its last card followed
      by the run of `n - 1` draws from the state that stores the room without it. */
  lemma DrawTimesAfterDraw(s: State, room: GameRoom, n: nat, cs: seq<Card>, s2: State)
    requires StoredUnderOwnId(s, room) && |room.cards| > 0 && n > 0
    requires DrawTimes(s[RoomKey(room.gameRoomId) := Room(room.(cards := room.cards[..|room.cards| - 1]))],
                       room.gameRoomId, n - 1) == Step(Success(cs), s2)
    ensures DrawTimes(s, room.gameRoomId, n) == Step(Success([room.cards[|room.cards| - 1]] + cs), s2)
  {
    DrawOnce(s, room);
  }

  /** Drawing more cards than the room's list holds ends in IndexError. */
  lemma {:induction false} DrawingPastTheEndFails(s: State, room: GameRoom, n: nat)
    requires StoredUnderOwnId(s, room)
    requires n > |room.cards|
    ensures DrawTimes(s, room.gameRoomId, n).result == Failure(Raised(IndexError))
    decreases n
  {
    var id := room.gameRoomId;
    if |room.cards| == 0 {
      assert DrawCardTool(s, id).result == Failure(Raised(IndexError));
    } else {
      var m := |room.cards|;
      DrawOnce(s, room);
      DrawingPastTheEndFails(s[RoomKey(id) := Room(room.(cards := room.cards[..m - 1]))], room.(cards := room.cards[..m - 1]), n - 1);
    }
  }

  /** Drawing after the deck was created hands out the drawn cards from the end,
      last card first, for every count up to the number of cards. */
  lemma CreateDeckThenDraw(s: State, id: string, deck: DeckResponse, drawn: DrawResponse, n: nat)
    requires CreateDeckTool(s, id, deck, drawn).result.Success?
    requires n <= |drawn.cards|
    ensures DrawTimes(CreateDeckTool(s, id, deck, drawn).state, LoadGameRoom(s, id).value.gameRoomId, n).result
         == Success(PoppedOrder(drawn.cards, n))
  {
    var g := LoadGameRoom(s, id).value.(deck := Some(deck), cards := drawn.cards);
    var st := CreateDeckTool(s, id, deck, drawn).state;
    assert LoadGameRoom(st, g.gameRoomId) == Success(g);
    DrawTimesTakesFromTheEnd(st, g, n);
  }
}
