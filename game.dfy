/**
 * The move selector: the shapes of a decoded turn snapshot and `next_move`,
 * which heads for the first food item, horizontal axis first.
 *
 * The selector looks at nothing but the head of its own snake and the first
 * food item: it checks no walls, no bodies and no hazards.
 */
module Game {
  import opened Wrappers

  /** The unsigned 32-bit integers the snapshot is decoded into. */
  newtype u32 = x: int | 0 <= x < 0x1_0000_0000

  datatype Coord = Coord(x: u32, y: u32)

  datatype Battlesnake = Battlesnake(
    id: string,
    name: string,
    health: u32,
    body: seq<Coord>,
    head: Coord,
    length: u32,
    latency: string)

  datatype Board = Board(
    height: u32,
    width: u32,
    food: seq<Coord>,
    hazards: seq<Coord>,
    snakes: seq<Battlesnake>)

  datatype GameInfo = GameInfo(id: string, ruleset: map<string, string>, timeout: u32)

  /** One turn's snapshot; `you` is the snake this server moves. */
  datatype GameState = GameState(turn: u32, game: GameInfo, board: Board, you: Battlesnake)

  datatype Direction = Up | Down | Left | Right

  /** The snake_case token a direction is serialised as: its name in lower case. */
  function Token(d: Direction): (t: string)
    ensures |t| > 0 && forall i :: 0 <= i < |t| ==> 'a' <= t[i] <= 'z'
  {
    match d
    case Up => "up"
    case Down => "down"
    case Left => "left"
    case Right => "right"
  }

  /** Reads a token back; the only strings accepted are the four tokens. */
  function FromToken(s: string): (r: Option<Direction>)
    ensures r.Some? ==> Token(r.value) == s
    ensures r.None? ==> s !in {"up", "down", "left", "right"}
  {
    if s == "up" then Some(Up)
    else if s == "down" then Some(Down)
    else if s == "left" then Some(Left)
    else if s == "right" then Some(Right)
    else None
  }

  lemma TokenRoundTrip(d: Direction)
    ensures FromToken(Token(d)) == Some(d)
  {
  }

  /** Distinct directions are sent as distinct tokens. */
  lemma TokenInjective(d: Direction, e: Direction)
    ensures Token(d) == Token(e) ==> d == e
  {
    TokenRoundTrip(d);
    TokenRoundTrip(e);
  }

  function Abs(n: int): nat
  {
    if n < 0 then -n else n
  }

  /** Manhattan distance from the cell (x, y), which may lie off the grid, to `c`. */
  function Distance(x: int, y: int, c: Coord): nat
  {
    Abs(x - c.x as int) + Abs(y - c.y as int)
  }

  /**
   * The cell one step from `c` in direction `d`. Up increases y, as the
   * selector's own choice of Up for food that is higher implies.
   */
  function Step(c: Coord, d: Direction): (int, int)
  {
    match d
    case Up => (c.x as int, c.y as int + 1)
    case Down => (c.x as int, c.y as int - 1)
    case Left => (c.x as int - 1, c.y as int)
    case Right => (c.x as int + 1, c.y as int)
  }

  /**
   * `next_move`: the direction toward the first food item. The food list must
   * not be empty, since the source indexes its first element unconditionally.
   */
  function NextMove(state: GameState): (d: Direction)
    requires |state.board.food| > 0
    // the horizontal axis has priority: a vertical move only when the columns agree
    ensures (d == Up || d == Down) <==> state.board.food[0].x == state.you.head.x
    // unless already on the food, the step brings the head one cell closer to it
    ensures state.you.head != state.board.food[0] ==>
      Distance(Step(state.you.head, d).0, Step(state.you.head, d).1, state.board.food[0]) + 1
        == Distance(state.you.head.x as int, state.you.head.y as int, state.board.food[0])
    // standing on the food falls through to Down
    ensures state.you.head == state.board.food[0] ==> d == Down
  {
    var head := state.you.head;
    var target := state.board.food[0];
    if target.x > head.x then Right
    else if target.x < head.x then Left
    else if target.y > head.y then Up
    else Down
  }

  /** The priority chain, branch by branch. */
  lemma NextMoveChain(state: GameState)
    requires |state.board.food| > 0
    ensures state.board.food[0].x > state.you.head.x ==> NextMove(state) == Right
    ensures state.board.food[0].x < state.you.head.x ==> NextMove(state) == Left
    ensures state.board.food[0].x == state.you.head.x && state.board.food[0].y > state.you.head.y
      ==> NextMove(state) == Up
    ensures state.board.food[0].x == state.you.head.x && state.board.food[0].y <= state.you.head.y
      ==> NextMove(state) == Down
  {
  }

  /**
   * The choice depends on the head of `you` and the first food item alone:
   * board size, hazards, snakes, bodies, later food, turn and game are ignored.
   */
  lemma NextMoveReadsOnlyHeadAndFirstFood(s: GameState, t: GameState)
    requires |s.board.food| > 0 && |t.board.food| > 0
    requires s.you.head == t.you.head && s.board.food[0] == t.board.food[0]
    ensures NextMove(s) == NextMove(t)
  {
  }

  /**
   * No collision check: with the head at (5,3), the food at (5,5) and the
   * snake's own neck at (5,4), the move is Up, straight into its own body.
   */
  lemma NextMoveMayHitOwnBody(state: GameState)
    requires state.you.head == Coord(5, 3) && state.you.body == [Coord(5, 3), Coord(5, 4)]
    requires state.board.food == [Coord(5, 5)]
    ensures NextMove(state) == Up
    ensures exists i ::
      && 0 <= i < |state.you.body|
      && Step(state.you.head, NextMove(state)) == (state.you.body[i].x as int, state.you.body[i].y as int)
  {
    assert Step(state.you.head, NextMove(state)) == (state.you.body[1].x as int, state.you.body[1].y as int);
  }

  /**
   * No wall check: standing on food in the bottom row, the move is Down,
   * off the board.
   */
  lemma NextMoveMayLeaveBoard(state: GameState)
    requires state.you.head.y == 0 && |state.board.food| > 0 && state.board.food[0] == state.you.head
    ensures NextMove(state) == Down
    ensures Step(state.you.head, NextMove(state)).1 < 0
  {
  }
}
