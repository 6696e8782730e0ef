# Blackjack tool layer — Dafny model

This project models the deterministic part of a demo Blackjack application in which LLM agents call Python "tools". The tools operate on a key/value session state. The model covers:

- **Card valuation and hand scoring** (`calculate_card_value`, `calculate_hand_score`).
- **The dealer's game-room tools**:
  - `initialize_game_room`
  - `deal_card`
  - `create_deck_tool`
  - `draw_card_tool`
- **The game-room agent's enrolment tools** (`create_game`, `join_game`), plus the no-op stubs `start_game` and `get_game_status`.
- **The session-memory helpers**:
  - `memorize`
  - `memorize_list`
  - `forget`
  - the prompt-variable initialisation callback
  - `_load_game_room` / `_save_game_room`

Modules, leaf first:

| file | module | what it holds |
|---|---|---|
| wrappers.dfy | `Wrappers` | `Option`, `Result` |
| errors.dfy | `Errors` | the Python exceptions a tool can raise and the error dictionaries it can return |
| cards.dfy | `Cards` | cards, ranks, Python `int()` on integer literals, card value, hand score |
| session.dfy | `SessionState` | session values, the game-room record, `State = map<string, Value>`, Python truthiness, `in` and `len` |
| memory.dfy | `Memory` | the memory helpers and the room store |
| dealer.dfy | `DealerTools` | the dealer's tools |
| game_room.dfy | `GameRoomTools` | create/join and the stubs |

Every tool is a pure function from a state (plus its arguments) to a `Step(result, state)`:

- **Success.** The result is `Success(...)` with what the tool returns.
- **Error dictionary.** When the tool returns `{"status": "error", ...}`, the result is `Failure(Refused(reason))`.
- **Exception.** When Python would raise, the result is `Failure(Raised(exception))`.

In every error case the returned state equals the input state. There is one exception, described under `join_game` below.

Calls to the remote deck service are parameters of the tools:

- `DeckResponse` stands for the shuffle answer.
- `DrawResponse` stands for the draw answer.

The dealer's game-room record comes from a `utils.models` module, which is not part of this model. The model defines its own record with the fields the tools use:

- `gameRoomId`
- `players`
- `gameStatus`
- `playerScores`
- `playerCards`
- `deck`
- `cards`

`model_dump` / `model_validate` are treated as the identity. A stored game room is `Room(record)`; any other truthy value under a room key fails validation.

Points worth knowing about the code as written, all modelled as written:

- **Hand score.** Aces are counted low greedily: 10 is taken off per ace while the total is over 21. The three-ace hand `[ACE, ACE, ACE, 8]` therefore scores 41 → 31 → 21. A card whose value text is "11" counts as an ace, because the code counts aces by value (`Cards.ElevenTextCountsAsAce`).
- **`deal_card`** appends the deck service's whole draw response to the player's hand, not the card inside it.
- **Room keys.** Every dealer tool saves the room under the key of the room's own `game_room_id`, not under the id it was asked to load. The draw lemmas therefore assume the room is stored under its own id.
- **`join_game`'s capacity guard** rejects exactly when `max_num_players >= len(players)`. A room created with capacity 1 or more therefore rejects every join, and a successful join requires the room to be over capacity already. See Findings.

## Model

| member | source | states |
|---|---|---|
| Cards.CardValue | backend/src/demo_adk_app/agents/dealer_agent/tools.py:184-190 | "JACK", "QUEEN" and "KING" are worth 10 and "ACE" 11; any other text is worth exactly the integer it denotes; a card fails with ValueError exactly when its text is none of these |
| Cards.ParseShowRoundTrip | backend/src/demo_adk_app/agents/dealer_agent/tools.py:190 | the model of `int()` is inverse to decimal rendering: parsing the digits of any natural number gives it back |
| Cards.StandardRankValue | backend/src/demo_adk_app/agents/dealer_agent/tools.py:184-190 | each of the 13 standard ranks is valued at its reference points: 2–10 map to themselves, JACK/QUEEN/KING to 10, ACE to 11 |
| Cards.ElevenTextCountsAsAce | backend/src/demo_adk_app/agents/dealer_agent/tools.py:185-208 | a card whose text is "11" is worth 11 like an ace, so a hand of "11" and ACE scores 12 with one of them counted low |
| Cards.Downgrades | backend/src/demo_adk_app/agents/dealer_agent/tools.py:212-214 | the number of aces the loop counts low is greedy: no more than the aces held, each downgrade was made while the total was over 21, and it stops only at ≤ 21 or when no ace is left |
| Cards.HandScore | backend/src/demo_adk_app/agents/dealer_agent/tools.py:193-216 | a hand scores exactly when every card has a value; the score is the base total minus 10·k for a greedy k with 0 ≤ k ≤ number of aces |
| Cards.CalculateHandScore | backend/src/demo_adk_app/agents/dealer_agent/tools.py:201-216 | the two loops as written (sum and count aces, then take 10 off per ace while over 21) compute exactly `HandScore` |
| Cards.GreedyIsUnique | backend/src/demo_adk_app/agents/dealer_agent/tools.py:212-214 | any greedy downgrade count equals the loop's count, so the greedy characterisation determines the score |
| Cards.EmptyHandScoresZero | backend/src/demo_adk_app/agents/dealer_agent/tools.py:201-216 | the empty hand scores 0 |
| Cards.DowngradesAreMinimal | backend/src/demo_adk_app/agents/dealer_agent/tools.py:204-214 | total − 10·aces ≤ score ≤ total, in steps of 10; no ace is counted low when the total is ≤ 21; a score still over 21 has every ace counted low; a lowered score was over 21 before the last downgrade |
| Cards.ScoreIsBestNonBust | backend/src/demo_adk_app/agents/dealer_agent/tools.py:211-214 | whenever counting some j aces low gives at most 21, the score is at most 21 and at least that value (the best non-busting score) |
| Cards.AceKingScores21 | backend/src/demo_adk_app/agents/dealer_agent/tools.py:193-216 | [ACE, KING] scores 21 |
| Cards.TwoAcesNineScores21 | backend/src/demo_adk_app/agents/dealer_agent/tools.py:193-216 | [ACE, ACE, 9] scores 21 |
| Cards.ThreeAcesEightTotals | backend/src/demo_adk_app/agents/dealer_agent/tools.py:204-209 | [ACE, ACE, ACE, 8] sums to 41 with three aces before any ace is counted low |
| Cards.ThreeAcesEightScores21 | backend/src/demo_adk_app/agents/dealer_agent/tools.py:212-214 | [ACE, ACE, ACE, 8] scores 21 (41 → 31 → 21) |
| Cards.TenTenFiveScores25 | backend/src/demo_adk_app/agents/dealer_agent/tools.py:193-216 | [10, 10, 5] scores 25 |
| Memory.Memorize | backend/src/demo_adk_app/utils/tools.py:62-64 | afterwards the key holds the value, the key set gains only that key, and every other key is unchanged |
| Memory.MemorizeLastWriteWins | backend/src/demo_adk_app/utils/tools.py:62-64 | two writes to one key leave the second value; repeating a write changes nothing |
| Memory.MemorizeList | backend/src/demo_adk_app/utils/tools.py:42-47 | an absent key becomes [value]; on a list the value is appended at the end only if absent (existing order kept); None, an integer or a room raises TypeError; errors change nothing; other keys are unchanged |
| Memory.MemorizeListIdempotent | backend/src/demo_adk_app/utils/tools.py:42-47 | after a successful call, an identical second call succeeds and changes nothing |
| Memory.RemoveFirst | backend/src/demo_adk_app/utils/tools.py:81-82 | removal drops the first occurrence of the value and keeps the rest in order; a list without the value is unchanged |
| Memory.RemoveFirstMultiset | backend/src/demo_adk_app/utils/tools.py:81-82 | removal takes away exactly one copy of the value and nothing else |
| Memory.Forget | backend/src/demo_adk_app/utils/tools.py:79-82 | a missing key raises KeyError; a None entry becomes []; on a list the first occurrence is removed; an integer or room entry raises TypeError; errors change nothing; other keys are unchanged |
| Memory.MemorizeListThenForget | backend/src/demo_adk_app/utils/tools.py:42-82 | adding a value the list lacks and then forgetting it restores the original state; for an absent key it leaves the key holding [] |
| Memory.SetAbsentToNull | backend/src/demo_adk_app/utils/tools.py:99-103 | the result's keys are the old keys plus the listed keys; present keys keep their values; newly added keys hold None |
| Memory.InitializeSessionStateForPrompts | backend/src/demo_adk_app/utils/tools.py:96-103 | every prompt state variable is present afterwards; absent ones hold None; no present key is overwritten; no other key is added |
| Memory.InitializeSessionStateIdempotent | backend/src/demo_adk_app/utils/tools.py:96-103 | running the initialisation twice is the same as once |
| Memory.RoomKeyInjective | backend/src/demo_adk_app/utils/tools.py:122 | distinct room ids are stored under distinct `<id>_game_details` keys |
| Memory.LoadGameRoom | backend/src/demo_adk_app/utils/tools.py:122-131 | loading succeeds exactly when the key holds a game room, and returns it; a missing or falsy entry is exactly the "does not exist" error |
| Memory.SaveGameRoom | backend/src/demo_adk_app/utils/tools.py:147 | after saving, loading the room's own id returns the room (save/load round trip); only that room's key is added or changed |
| Memory.SaveKeepsOtherRooms | backend/src/demo_adk_app/utils/tools.py:147 | saving one room leaves what any other id loads unchanged |
| DealerTools.InitializeGameRoom | backend/src/demo_adk_app/agents/dealer_agent/tools.py:19-48 | a load error is returned with no change; status "pre-game" is refused with no change; any other loaded room succeeds, and then each enrolled player has score 0 and an empty hand, scores hold only enrolled players, hands of non-enrolled keys are kept, the fresh deck is set, status becomes "dealing", nothing else in the room changes and only the room's key is written |
| DealerTools.DealCard | backend/src/demo_adk_app/agents/dealer_agent/tools.py:72-88 | a load error or a non-enrolled player changes nothing; an enrolled player without a hand entry raises KeyError; an enrolled player with a hand entry is dealt to: only that player's hand grows, by the drawn response at the end; other hands and all other fields are unchanged; only the room's key is written |
| DealerTools.InitializeThenDeal | backend/src/demo_adk_app/agents/dealer_agent/tools.py:31-88 | after a successful round initialisation, dealing to any enrolled player succeeds (no KeyError) and leaves that player holding exactly the one draw answer, with status "dealing" |
| DealerTools.CreateDeckTool | backend/src/demo_adk_app/agents/dealer_agent/tools.py:105-136 | a load error, an unsuccessful shuffle answer or an unsuccessful draw answer changes nothing; it succeeds exactly when all three succeed, returning the drawn cards and saving them with the deck |
| DealerTools.DrawCardTool | backend/src/demo_adk_app/agents/dealer_agent/tools.py:160-174 | a load error changes nothing; an empty card list raises IndexError with nothing saved; a loaded room with cards succeeds, returning the last card and saving the list minus that card, nothing else written |
| DealerTools.DrawTimesTakesFromTheEnd | backend/src/demo_adk_app/agents/dealer_agent/tools.py:163-171 | for a room stored under its own id, n successive draws, n at most the number of cards, return the last n cards last card first and leave exactly the room with its first (count − n) cards stored under its key, no other key changed |
| DealerTools.DrawingPastTheEndFails | backend/src/demo_adk_app/agents/dealer_agent/tools.py:168 | drawing more times than there are cards ends in IndexError |
| DealerTools.CreateDeckThenDraw | backend/src/demo_adk_app/agents/dealer_agent/tools.py:120-171 | after the deck is created, n draws, n at most the number of drawn cards, return the last n drawn cards, last first |
| GameRoomTools.CreateGame | backend/src/demo_adk_app/agents/game_room_agent/tools.py:12-28 | refused with no change exactly when the user id is missing or falsy; with a truthy user id it succeeds, setting game_room_id "1234", role "host", `app:1234_players` = [user id], `app:1234_num_players` = max, and nothing else |
| GameRoomTools.JoinGame | backend/src/demo_adk_app/agents/game_room_agent/tools.py:43-71 | missing user id or missing/empty player list is refused with no change; "reached max players" is returned exactly when the capacity is ≥ the number of players; a truthy user id, a non-empty player list and an integer capacity below its length always succeed; a success implies the list was longer than the capacity, appends the user id at the end, sets game_room_id and role "player", and changes nothing else |
| GameRoomTools.CreatedRoomRejectsEveryJoin | backend/src/demo_adk_app/agents/game_room_agent/tools.py:21-64 | a room created with capacity ≥ 1 rejects every join as full, with no change |
| GameRoomTools.SuccessfulJoinOverfillsRoom | backend/src/demo_adk_app/agents/game_room_agent/tools.py:60-71 | after any successful join the room holds at least capacity + 2 players |
| GameRoomTools.JoinHasNoDuplicateCheck | backend/src/demo_adk_app/agents/game_room_agent/tools.py:66-71 | a user already enrolled can join again and appears twice |
| GameRoomTools.JoinGameAsIntended | backend/src/demo_adk_app/agents/game_room_agent/tools.py:59-71 | with the capacity test the message describes, a successful join never takes the list past the capacity |
| GameRoomTools.CreatedRoomAcceptsJoinAsIntended | backend/src/demo_adk_app/agents/game_room_agent/tools.py:21-71 | with the intended test, a room created for ≥ 2 players accepts the next user after the host |
| GameRoomTools.StartGame | backend/src/demo_adk_app/agents/game_room_agent/tools.py:77-85 | returns nothing and leaves the state unchanged |
| GameRoomTools.GetGameStatus | backend/src/demo_adk_app/agents/game_room_agent/tools.py:87-95 | returns nothing and leaves the state unchanged |

## Findings

| source | as written | input that shows it | evidently intended | confidence | as-written member | corrected member |
|---|---|---|---|---|---|---|
| backend/src/demo_adk_app/agents/game_room_agent/tools.py:60 | rejects when `max_num_players >= len(players)` | `create_game(4)` by user "h", then `join_game("1234")` by any user: 4 ≥ 1, so the join is refused as "already reached max players" with one of four places taken | reject when `len(players) >= max_num_players` | high (not executed) | GameRoomTools.CreatedRoomRejectsEveryJoin | GameRoomTools.CreatedRoomAcceptsJoinAsIntended |

`GameRoomTools.JoinGame` keeps the guard as written. `GameRoomTools.JoinGameAsIntended` is the same tool with only the comparison reversed. It proves that with the reversed test a successful join never takes the player list past the capacity.

## Left out

- **Remote deck service.** The HTTP client behind `shuffle_new_deck` / `draw_cards` is not modelled. Its answers are tool parameters, and the `deck_id` argument of `deal_card`, which only feeds that client, is dropped.
- **Failed HTTP requests.** Both deck-service calls raise when the HTTP status is an error. `initialize_game_room`, `deal_card` and `create_deck_tool` then raise before saving, so the state is unchanged. The `DeckResponse` / `DrawResponse` parameters always stand for an answer that arrived, so this error path is not modelled.
- **In-place list mutation.** `memorize_list` and `forget` change the stored list in place without assigning it back to the state. The model treats the state as a plain dictionary, where such a change is visible, so it assumes the framework records it.
- **Logging.** The `print` of each initialised key in `initialize_session_state_for_instruction_prompts` has no effect on state and is not modelled.
- **Response contents.** A shuffle answer lacking a "success" entry is modelled as `success == false`. The status and message texts of the returned dictionaries are not modelled; each becomes one `Refusal` case. This includes the misspelt "mesage" key of `create_deck_tool`'s errors.
- **`shuffle_deck_tool`.** It is a no-op that returns None, and it is not modelled.
- **Agents, prompts, services, API, CLI and frontend.** The agent definitions, prompt texts, service providers, runner, HTTP API, authentication, configuration, CLI and frontend are out of scope. They are wiring around external services.
- **Dealer policy, outcomes and payouts.** The dealer's hit-below-17 policy, outcome rules and purse payouts exist only as prompt prose. No code implements them, so the model does not present them.
- **`IS_INITIALIZED` key.** The state-variable class also holds `IS_INITIALIZED = False`. The Python initialisation loop therefore also writes `state[False] = None`. The model's keys are strings, so `InitializeSessionStateForPrompts` covers only the nine string-valued variables.
- **Python `int()`.** `Cards.CardValue` accepts only an optional sign followed by ASCII digits. Python's `int()` also accepts surrounding whitespace, underscores between digits and non-ASCII digits; the model reports ValueError for those.
- **Game-room values in lists and counts.** Python would treat a game-room record stored under a list key or a player-list key by its dictionary form: `in` tests its keys and `len` counts them. `Memory.MemorizeList`, `Memory.Forget` and `GameRoomTools.JoinGame` report TypeError there instead, because the record's full field set lives in a module not modelled here.
- **Integer/boolean equality.** Python's `==` between integers and booleans is not modelled; the model has no boolean values.
- **Exceptions after writes.** When `join_game` finds a non-empty string stored as the player list, it writes `game_room_id` and `user_role` and then raises AttributeError on `append`. The model keeps those writes, as Python's in-memory state would. Whether the agent framework persists them after the exception is not modelled.
- **Concurrency.** Concurrent sessions sharing the `app:` keys are not modelled. Each tool call is one atomic state transition.
