# equis: a Battlesnake server, modelled in Dafny

equis answers the Battlesnake game server's HTTP requests from a JavaScript
worker that hosts the Rust code compiled to WASM. The Rust side does two
things, and this project models both:

- **the move selector** (`next_move`, module `Game` in `game.dfy`). It takes a
  decoded turn snapshot and picks one of Up, Down, Left and Right. It looks at
  two things only: the head of its own snake and the first food item. Then it
  follows a fixed chain: Right if the food is further right, Left if it is
  further left, Up if it is higher, and Down otherwise. It checks no walls,
  no bodies and no hazards.
- **the request handler** (`run` and `do_run`, module `Lib` in `lib.dfy`).
  The path is the URL's suffix from its third `/`. The pair (method, path) is
  matched exactly against four routes: `GET /` (info), `POST /start`,
  `POST /end` and `POST /move`. Every other pair gets "dunno". Start, end and
  move decode the body first. An error comes back as `oopsie: ` followed by
  its text.

`wrappers.dfy` holds the `Option` and `Result` shapes used by both.

The model follows the code. The code has no legality mask, no wall or
collision checks and no fallback for an empty food list, so the model has none
either. The lemmas `NextMoveMayHitOwnBody` and `NextMoveMayLeaveBoard` show
what that means: with the head at (5,3), the food at (5,5) and the neck at
(5,4), the move is Up, straight into the snake's own body. A snake standing on
food in the bottom row moves Down, off the board.

What is proved:

- The move selector gives the horizontal axis priority: the move is vertical
  exactly when the head and the food share a column.
- Unless the head is already on the food, every move brings it one cell
  closer in Manhattan distance. On the food, the move is Down.
- The move depends on nothing but the head and the first food item.
- The direction tokens `up`, `down`, `left` and `right` read back to the
  direction they came from.
- The path is characterised as the suffix that starts at the one `/` preceded
  by exactly two others.
- Routing is exact.
- Only the routes that decode the body can fail, and they fail with the
  decoder's message.
- The text `run` returns tells success from error, and determines the outcome.
- A move response reads back to exactly `next_move` of the snapshot.

## Model

| member | source | states |
|---|---|---|
| `Game.Token` | src/game.rs:69-76 | the snake_case rename: each direction is sent as a non-empty, all lower-case token (the tokens are pinned by `TokenRoundTrip` and told apart by `TokenInjective`) |
| `Game.FromToken` | src/game.rs:69-76 | a string is read back as a direction only if it is that direction's snake_case token; any string other than the four tokens is rejected |
| `Game.TokenRoundTrip` | src/game.rs:69-76 | each direction's token reads back to that direction |
| `Game.TokenInjective` | src/game.rs:69-76 | distinct directions serialise to distinct tokens |
| `Game.NextMove` | src/game.rs:78-92 | needs a non-empty food list (the source indexes `food[0]`); the move is Up or Down exactly when food and head share a column; off the food, the step shortens the Manhattan distance to the first food item by one; on the food it is Down |
| `Game.NextMoveChain` | src/game.rs:83-90 | food further right gives Right whatever the y values; further left gives Left; same column and higher gives Up; same column and not higher gives Down, including standing on the food |
| `Game.NextMoveReadsOnlyHeadAndFirstFood` | src/game.rs:78-82 | two snapshots with the same head and the same first food item get the same move, whatever their width, height, hazards, snakes, bodies, later food, turn and game |
| `Game.NextMoveMayHitOwnBody` | src/game.rs:78-92 | with the head at (5,3), the food at (5,5) and the body [(5,3),(5,4)], the move is Up, and the cell it steps into is occupied by a segment of the snake's own body: no collision check |
| `Game.NextMoveMayLeaveBoard` | src/game.rs:79-90 | standing on food in row 0, the move is Down, to row -1: width and height are never consulted |
| `Lib.MatchIndicesFrom` | src/lib.rs:43 | the positions of a character from an index on: as many as its occurrences there, each holding the character, the k-th preceded by exactly k others |
| `Lib.MatchIndices` | src/lib.rs:43 | the positions of a character in the whole string, with the same characterisation |
| `Lib.ThirdSlash` | src/lib.rs:43 | `nth(2)` yields an index exactly when the URL holds at least three '/'; that index holds a '/' preceded by exactly two others |
| `Lib.ThirdSlashUnique` | src/lib.rs:43 | any '/' preceded by exactly two others is the one `nth(2)` yields |
| `Lib.PathOf` | src/lib.rs:43-44 | needs at least three '/' (the source unwraps); the path is a suffix of the URL, starts with '/', and the part before it holds exactly two '/' |
| `Lib.PathOfExample` | src/lib.rs:43-44 | "https://h/move" has the path "/move" |
| `Lib.RouteOf` | src/lib.rs:46-52 | a pair in the four-entry route table gets its route; every other pair gets Dunno |
| `Lib.RouteOfIsExact` | src/lib.rs:46-52 | a lower-case "post", a query string "/move?x=1", GET on "/move" and POST on "/" all get Dunno |
| `Lib.SnakeInfoJson` | src/lib.rs:69-72 | the serialised record is non-empty text starting with '{', so it never starts with "oopsie: " |
| `Lib.MessageJson` | src/lib.rs:10-19 | a serialised message is non-empty text starting with '{', so it never starts with "oopsie: " |
| `Lib.ParseMessageJson` | src/lib.rs:10-19 | a message is read out of a text only when the text is exactly that message's response |
| `Lib.MessageJsonRoundTrip` | src/lib.rs:10-19 | a message response reads back to the message it carries under `message` |
| `Lib.MoveJson` | src/lib.rs:21-30 | a serialised move response is non-empty text starting with '{', so it never starts with "oopsie: " |
| `Lib.ParseMoveJson` | src/lib.rs:21-30 | a direction is read out of a text only when the text is exactly that direction's move response |
| `Lib.MoveJsonRoundTrip` | src/lib.rs:21-30 | a move response reads back to the direction it carries under `move` |
| `Lib.InfoResponse` | src/lib.rs:69-72 | `info` answers with text that starts with '{' and ends with '}', and that reads back neither as a message nor as a move response |
| `Lib.DunnoResponse` | src/lib.rs:65-67 | `dunno` answers with the message "dunno" |
| `Lib.StartResponse` | src/lib.rs:74-76 | `start` answers with the message "start"; the contract does not mention the snapshot, which `start` ignores |
| `Lib.EndResponse` | src/lib.rs:78-80 | `end` answers with the message "end"; the contract does not mention the snapshot, which `end` ignores |
| `Lib.MoveResponse` | src/lib.rs:82-84 | needs food in the snapshot (`next_move` indexes `food[0]`); `do_move`'s response reads back to exactly `next_move` of the snapshot |
| `Lib.DoRun` | src/lib.rs:40-53 | needs at least three '/' in the URL and food on a move's snapshot; every success is non-empty text starting with '{', so no success starts with "oopsie: "; the result is an error exactly when the route decodes the body and decoding failed, and then it carries the decoder's message |
| `Lib.Run` | src/lib.rs:33-38 | a success is returned unchanged and an error as "oopsie: " plus its text; the output starts with "oopsie: " exactly when `do_run` failed |
| `Lib.RunDeterminesOutcome` | src/lib.rs:33-38 | two requests answered with the same text had the same `do_run` outcome |
| `Lib.BodyIgnoredOffDecodingRoutes` | src/lib.rs:46-52 | info and unknown routes succeed and answer the same whatever the body decodes to |
| `Lib.FixedRouteResponses` | src/lib.rs:65-80 | info answers with the default snake info; start, end and unknown routes answer with the messages "start", "end" and "dunno", whatever the snapshot |
| `Lib.MoveRouteCarriesNextMove` | src/lib.rs:82-84 | a move request with a decoded snapshot succeeds, and its response reads back to exactly `next_move` of that snapshot |

## Left out

- The worker script (worker/worker.js) is not part of this model. It hosts the WASM module and sets the response headers, which is pure I/O.
- The `Request` object, `JsFuture` and the awaits (src/lib.rs:32-33, 55-61) are left out. Decoding the body is a parameter of `Lib.DoRun`: the outcome of decoding, a snapshot or an error message. Only start, end and move consult it.
- The panics inside `get_game_state` are not modelled. These are `request.json().unwrap()` and `as_string().unwrap()` on a rejection that is not a string (src/lib.rs:56-58). A failed decode is modelled as an error with a message.
- serde and serde_json are not modelled as libraries. Responses are the text `to_string` writes for these shapes. The `Err` arm of `to_string(...).map_err(From::from)` (src/lib.rs:66, 71, 75, 79, 83) is not modelled. It cannot happen here: these structs hold only strings and a unit-variant enum, with no map keyed by non-strings and no hand-written `Serialize` that could fail.
- Lib.SnakeInfoJson: JSON well-formedness and string escaping are not modelled. Field values are copied between quotes unescaped, so the result is valid JSON only for values without '"', '\' or control characters. The function is applied only to the default record, whose fields are such values.
- Lib.MessageJson: JSON well-formedness and string escaping are not modelled. The message is copied between quotes unescaped. The function is applied only to the literals "start", "end" and "dunno", which need no escaping.
- Lib.MoveJson: JSON well-formedness is not stated by its contract. Its content is pinned by `Lib.ParseMoveJson` and `Lib.MoveJsonRoundTrip`. The four tokens it embeds need no escaping.
- Decoding of the snapshot's JSON into `GameState` is not modelled. The snapshot is a Dafny value with every field of the source's structs.
- `match_indices` yields byte offsets and the model uses character offsets. Both cut the URL at the same `/`, so the path is the same string.
- The source's `Game` record is named `GameInfo` here, because `Game` is the module's name. Its ruleset is a `map<string, string>` rather than a hash map. Nothing reads it.
- An empty food list makes `next_move` panic. It is a precondition of `Game.NextMove`, and of `Lib.DoRun` on the move route. No fallback is added, because the code has none.
- A legality mask that removes moves into walls or bodies is not modelled: the code never checks walls or bodies. The same goes for hazard handling and a fallback chain for a boxed-in snake. `width` and `height` are read at src/game.rs:79-80 but never used.
