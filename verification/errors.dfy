/** The two ways a tool call can fail: a Python exception escapes the tool,
    or the tool returns an error dictionary (`{"status": "error", ...}`). */
module Errors {

  /** Python exceptions the tools can raise on malformed session state or input. */
  datatype PyException =
    | KeyError         // indexing a dict with a missing key
    | TypeError        // `in`, `len` or `>=` on a value of the wrong type
    | AttributeError   // `.append` / `.remove` on something that is not a list
    | ValueError       // `int(...)` on text that is not an integer literal
    | IndexError       // `pop()` on an empty list
    | ValidationError  // `GameRoom.model_validate` on something that is not a game room

  /** The error dictionaries the tools return, one case per distinct message. */
  datatype Refusal =
    | UserIdUnknown                    // "user id is not known"
    | RoomDoesNotExist(roomId: string) // no game room stored under that id
    | RoomAtCapacity(roomId: string)   // "has already reached max players"
    | GameNotStarted                   // room still in "pre-game"
    | PlayerNotInGame                  // player is not in the room's player list
    | DeckNotCreated                   // the deck service did not report success on shuffle
    | CardsNotDrawn                    // the deck service did not report success on draw

  datatype ToolError = Refused(reason: Refusal) | Raised(exc: PyException)
}
