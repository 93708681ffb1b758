/**
 * The request handler around the move selector: the path is cut out of the
 * URL at its third '/', (method, path) is matched exactly against four
 * routes, and an error is returned as text prefixed with "oopsie: ".
 *
 * Decoding the request body is not modelled: the handler receives its
 * outcome, a game state or an error message, and consults it only on the
 * routes that decode the body.
 */
module Lib {
  import opened Wrappers
  import opened Game

  // ---------------------------------------------------------------------
  // Path extraction: `url.match_indices("/").nth(2).unwrap().0`
  // ---------------------------------------------------------------------

  /** The number of occurrences of `c` in `s`. */
  function Count(s: string, c: char): nat
  {
    if s == [] then 0 else (if s[0] == c then 1 else 0) + Count(s[1..], c)
  }

  /** Counting a string one character longer at the end. */
  lemma {:induction false} CountSnoc(s: string, c: char, x: char)
    ensures Count(s + [x], c) == Count(s, c) + (if x == c then 1 else 0)
  {
    if s != [] {
      assert (s + [x])[1..] == s[1..] + [x];
      CountSnoc(s[1..], c, x);
    }
  }

  /** A longer prefix holds at least as many occurrences. */
  lemma {:induction false} CountPrefixMonotone(s: string, c: char, i: nat, j: nat)
    requires i <= j <= |s|
    ensures Count(s[..i], c) <= Count(s[..j], c)
    decreases j - i
  {
    if i < j {
      assert s[..j] == s[..j - 1] + [s[j - 1]];
      CountSnoc(s[..j - 1], c, s[j - 1]);
      CountPrefixMonotone(s, c, i, j - 1);
    }
  }

  /** The prefix that ends just after an occurrence at `i`. */
  lemma CountThrough(s: string, c: char, i: nat)
    requires i < |s| && s[i] == c
    ensures Count(s[..i + 1], c) == Count(s[..i], c) + 1
  {
    assert s[..i + 1] == s[..i] + [s[i]];
    CountSnoc(s[..i], c, s[i]);
  }

  /** Splitting off the first character of a non-empty slice. */
  lemma CountSliceCons(s: string, c: char, i: nat, j: nat)
    requires i < j <= |s|
    ensures Count(s[i..j], c) == (if s[i] == c then 1 else 0) + Count(s[i + 1..j], c)
  {
    assert s[i..j][1..] == s[i + 1..j];
  }

  /**
   * The positions of `c` in `s` from index `i` on, in order: `match_indices`
   * read from `i`. The k-th position holds `c` and has exactly k occurrences
   * of `c` between `i` and it.
   */
  function MatchIndicesFrom(s: string, c: char, i: nat): (r: seq<nat>)
    requires i <= |s|
    ensures |r| == Count(s[i..], c)
    ensures forall k :: 0 <= k < |r| ==> i <= r[k] < |s| && s[r[k]] == c
    ensures forall k :: 0 <= k < |r| ==> Count(s[i..r[k]], c) == k
    decreases |s| - i
  {
    if i == |s| then []
    else
      var rest := MatchIndicesFrom(s, c, i + 1);
      CountSliceCons(s, c, i, |s|);
      assert s[i..] == s[i..|s|] && s[i + 1..] == s[i + 1..|s|];
      assert forall k :: 0 <= k < |rest| ==> Count(s[i..rest[k]], c) == (if s[i] == c then 1 else 0) + k by {
        forall k | 0 <= k < |rest|
          ensures Count(s[i..rest[k]], c) == (if s[i] == c then 1 else 0) + k
        {
          CountSliceCons(s, c, i, rest[k]);
        }
      }
      if s[i] == c then [i] + rest else rest
  }

  /** The positions of every `c` in `s`: `s.match_indices(c)`. */
  function MatchIndices(s: string, c: char): (r: seq<nat>)
    ensures |r| == Count(s, c)
    ensures forall k :: 0 <= k < |r| ==> r[k] < |s| && s[r[k]] == c && Count(s[..r[k]], c) == k
  {
    assert s[0..] == s;
    var r := MatchIndicesFrom(s, c, 0);
    assert forall k :: 0 <= k < |r| ==> s[0..r[k]] == s[..r[k]];
    r
  }

  /** `url.match_indices("/").nth(2)`: the index of the third '/', if there is one. */
  function ThirdSlash(url: string): (r: Option<nat>)
    ensures r.Some? <==> Count(url, '/') >= 3
    ensures r.Some? ==> r.value < |url| && url[r.value] == '/' && Count(url[..r.value], '/') == 2
  {
    var positions := MatchIndices(url, '/');
    if |positions| > 2 then Some(positions[2]) else None
  }

  /** Exactly one '/' in a string is preceded by exactly two others. */
  lemma ThirdSlashUnique(url: string, p: nat)
    requires p < |url| && url[p] == '/' && Count(url[..p], '/') == 2
    ensures ThirdSlash(url) == Some(p)
  {
    CountThrough(url, '/', p);
    assert url[..|url|] == url;
    CountPrefixMonotone(url, '/', p + 1, |url|);
    var q := ThirdSlash(url).value;
    if q < p {
      CountThrough(url, '/', q);
      CountPrefixMonotone(url, '/', q + 1, p);
    } else if p < q {
      CountPrefixMonotone(url, '/', p + 1, q);
    }
  }

  /**
   * The request path: the suffix of the URL that starts at its third '/'.
   * A URL with fewer than three '/' makes the source's `unwrap` panic.
   */
  function PathOf(url: string): (path: string)
    requires Count(url, '/') >= 3
    ensures |path| > 0 && path[0] == '/'
    ensures |path| <= |url| && url[|url| - |path|..] == path
    ensures Count(url[..|url| - |path|], '/') == 2
  {
    url[ThirdSlash(url).value..]
  }

  /** "https://h/move" is answered under the path "/move". */
  lemma PathOfExample()
    ensures PathOf("https://h/move") == "/move"
  {
    var url := "https://h/move";
    assert url[..9] == "https://h";
    assert Count("https://h", '/') == 2;
    ThirdSlashUnique(url, 9);
  }

  // ---------------------------------------------------------------------
  // Dispatch on (method, path)
  // ---------------------------------------------------------------------

  datatype Route = Info | Start | End | Move | Dunno

  /** The four routes the handler answers; every other pair is unknown. */
  const RouteTable: map<(string, string), Route> :=
    map[("GET", "/") := Info, ("POST", "/start") := Start, ("POST", "/end") := End, ("POST", "/move") := Move]

  /** The exact-match dispatch of `do_run`. */
  function RouteOf(httpMethod: string, path: string): (r: Route)
    ensures (httpMethod, path) in RouteTable ==> r == RouteTable[(httpMethod, path)]
    ensures (httpMethod, path) !in RouteTable ==> r == Dunno
  {
    if httpMethod == "GET" && path == "/" then Info
    else if httpMethod == "POST" && path == "/start" then Start
    else if httpMethod == "POST" && path == "/end" then End
    else if httpMethod == "POST" && path == "/move" then Move
    else Dunno
  }

  /** Matching is exact: a lower-case method or a query string is unknown. */
  lemma RouteOfIsExact()
    ensures RouteOf("post", "/move") == Dunno
    ensures RouteOf("POST", "/move?x=1") == Dunno
    ensures RouteOf("GET", "/move") == Dunno
    ensures RouteOf("POST", "/") == Dunno
  {
  }

  /** The routes whose handler decodes the request body first. */
  predicate DecodesBody(r: Route)
  {
    r == Start || r == End || r == Move
  }

  // ---------------------------------------------------------------------
  // Responses, as the JSON text serde_json writes for them
  // ---------------------------------------------------------------------

  /** `SnakeInfo`, the record the info route answers with. */
  datatype SnakeInfo = SnakeInfo(
    apiversion: string,
    author: string,
    color: string,
    head: string,
    tail: string,
    version: string)

  const DefaultSnakeInfo := SnakeInfo("1", "jreyes33", "#66ff66", "silly", "small-rattle", "0.1.0")

  function Quoted(s: string): string
  {
    "\"" + s + "\""
  }

  /**
   * The text serde_json writes for a `SnakeInfo`. Field values are copied
   * without escaping: the only record serialised is the default one, whose
   * fields hold no character that needs it.
   */
  function SnakeInfoJson(info: SnakeInfo): (json: string)
    ensures |json| > 0 && json[0] == '{'
  {
    "{\"apiversion\":" + Quoted(info.apiversion)
      + ",\"author\":" + Quoted(info.author)
      + ",\"color\":" + Quoted(info.color)
      + ",\"head\":" + Quoted(info.head)
      + ",\"tail\":" + Quoted(info.tail)
      + ",\"version\":" + Quoted(info.version) + "}"
  }

  const MessagePrefix := "{\"message\":\""
  const MessageSuffix := "\"}"

  /**
   * The text serde_json writes for a `Message`. The message is copied without
   * escaping: the only messages sent are "start", "end" and "dunno".
   */
  function MessageJson(message: string): (json: string)
    ensures |json| > 0 && json[0] == '{'
  {
    MessagePrefix + message + MessageSuffix
  }

  /** Reads the message back out of a message response. */
  function ParseMessageJson(json: string): (r: Option<string>)
    ensures r.Some? ==> json == MessageJson(r.value)
  {
    if |json| >= |MessagePrefix| + |MessageSuffix|
      && json[..|MessagePrefix|] == MessagePrefix
      && json[|json| - |MessageSuffix|..] == MessageSuffix
    then
      var message := json[|MessagePrefix|..|json| - |MessageSuffix|];
      assert json == MessagePrefix + message + MessageSuffix;
      Some(message)
    else None
  }

  /** A message response reads back to the message it carries under `message`. */
  lemma MessageJsonRoundTrip(message: string)
    ensures ParseMessageJson(MessageJson(message)) == Some(message)
  {
    var json := MessageJson(message);
    assert json[..|MessagePrefix|] == MessagePrefix;
    assert json[|json| - |MessageSuffix|..] == MessageSuffix;
    assert json[|MessagePrefix|..|json| - |MessageSuffix|] == message;
  }

  const MovePrefix := "{\"move\":\""
  const MoveSuffix := "\"}"

  /** The text serde_json writes for a `MoveResponse`. */
  function MoveJson(d: Direction): (json: string)
    ensures |json| > 0 && json[0] == '{'
  {
    MovePrefix + Token(d) + MoveSuffix
  }

  /** Reads the direction back out of a move response. */
  function ParseMoveJson(json: string): (r: Option<Direction>)
    ensures r.Some? ==> json == MoveJson(r.value)
  {
    if |json| >= |MovePrefix| + |MoveSuffix|
      && json[..|MovePrefix|] == MovePrefix
      && json[|json| - |MoveSuffix|..] == MoveSuffix
    then
      var r := FromToken(json[|MovePrefix|..|json| - |MoveSuffix|]);
      assert r.Some? ==> json == MovePrefix + json[|MovePrefix|..|json| - |MoveSuffix|] + MoveSuffix;
      r
    else None
  }

  /** The response to a move carries exactly the chosen direction under `move`. */
  lemma MoveJsonRoundTrip(d: Direction)
    ensures ParseMoveJson(MoveJson(d)) == Some(d)
  {
    var json := MoveJson(d);
    assert json[..|MovePrefix|] == MovePrefix;
    assert json[|json| - |MoveSuffix|..] == MoveSuffix;
    assert json[|MovePrefix|..|json| - |MoveSuffix|] == Token(d);
    TokenRoundTrip(d);
  }

  /**
   * `info`: the default `SnakeInfo`, as text the game server can tell apart
   * from a message or a move response.
   */
  function InfoResponse(): (json: string)
    ensures |json| > 0 && json[0] == '{' && json[|json| - 1] == '}'
    ensures ParseMessageJson(json) == None && ParseMoveJson(json) == None
  {
    var json := SnakeInfoJson(DefaultSnakeInfo);
    assert json[2] == 'a';
    assert json[..|MessagePrefix|] != MessagePrefix by { assert MessagePrefix[2] == 'm'; }
    assert json[..|MovePrefix|] != MovePrefix by { assert MovePrefix[2] == 'm'; }
    json
  }

  /** `dunno`: the answer to an unknown route. */
  function DunnoResponse(): (json: string)
    ensures ParseMessageJson(json) == Some("dunno")
  {
    MessageJsonRoundTrip("dunno");
    MessageJson("dunno")
  }

  /** `start` ignores the snapshot it was given. */
  function StartResponse(state: GameState): (json: string)
    ensures ParseMessageJson(json) == Some("start")
  {
    MessageJsonRoundTrip("start");
    MessageJson("start")
  }

  /** `end` ignores the snapshot it was given. */
  function EndResponse(state: GameState): (json: string)
    ensures ParseMessageJson(json) == Some("end")
  {
    MessageJsonRoundTrip("end");
    MessageJson("end")
  }

  /** `do_move`: the selector's choice, wrapped as a `MoveResponse`. */
  function MoveResponse(state: GameState): (json: string)
    requires |state.board.food| > 0
    ensures ParseMoveJson(json) == Some(NextMove(state))
  {
    MoveJsonRoundTrip(NextMove(state));
    MoveJson(NextMove(state))
  }

  // ---------------------------------------------------------------------
  // The handler
  // ---------------------------------------------------------------------

  /**
   * `do_run`: route the request; `state` is the outcome of decoding its body,
   * which only the start, end and move routes look at. The move route panics
   * on a snapshot without food, so such a snapshot is excluded there.
   */
  function DoRun(httpMethod: string, url: string, state: Result<GameState, string>): (r: Result<string, string>)
    requires Count(url, '/') >= 3
    requires RouteOf(httpMethod, PathOf(url)) == Move && state.Ok? ==> |state.value.board.food| > 0
    // every success is non-empty text starting with '{', never with "oopsie: "
    ensures r.Ok? ==> |r.value| > 0 && r.value[0] == '{'
    // the only failure is a failed decode on a route that decodes the body
    ensures r.Err? <==> DecodesBody(RouteOf(httpMethod, PathOf(url))) && state.Err?
    ensures r.Err? ==> r.error == state.error
  {
    match RouteOf(httpMethod, PathOf(url))
    case Info => Ok(InfoResponse())
    case Start => if state.Err? then Err(state.error) else Ok(StartResponse(state.value))
    case End => if state.Err? then Err(state.error) else Ok(EndResponse(state.value))
    case Move => if state.Err? then Err(state.error) else Ok(MoveResponse(state.value))
    case Dunno => Ok(DunnoResponse())
  }

  const ErrorPrefix := "oopsie: "

  /** `run`: a success is returned as it is, an error behind "oopsie: ". */
  function Run(httpMethod: string, url: string, state: Result<GameState, string>): (response: string)
    requires Count(url, '/') >= 3
    requires RouteOf(httpMethod, PathOf(url)) == Move && state.Ok? ==> |state.value.board.food| > 0
    ensures DoRun(httpMethod, url, state).Ok? ==> response == DoRun(httpMethod, url, state).value
    ensures DoRun(httpMethod, url, state).Err? ==> response == ErrorPrefix + DoRun(httpMethod, url, state).error
    // the prefix tells the two apart: no success starts with it
    ensures (|response| >= |ErrorPrefix| && response[..|ErrorPrefix|] == ErrorPrefix)
      <==> DoRun(httpMethod, url, state).Err?
  {
    match DoRun(httpMethod, url, state)
    case Ok(v) => v
    case Err(e) => ErrorPrefix + e
  }

  /** Two requests answered with the same text had the same outcome. */
  lemma RunDeterminesOutcome(
    m1: string, u1: string, s1: Result<GameState, string>,
    m2: string, u2: string, s2: Result<GameState, string>)
    requires Count(u1, '/') >= 3 && Count(u2, '/') >= 3
    requires RouteOf(m1, PathOf(u1)) == Move && s1.Ok? ==> |s1.value.board.food| > 0
    requires RouteOf(m2, PathOf(u2)) == Move && s2.Ok? ==> |s2.value.board.food| > 0
    requires Run(m1, u1, s1) == Run(m2, u2, s2)
    ensures DoRun(m1, u1, s1) == DoRun(m2, u2, s2)
  {
    var r1, r2 := DoRun(m1, u1, s1), DoRun(m2, u2, s2);
    if r1.Err? && r2.Err? {
      assert (ErrorPrefix + r1.error)[|ErrorPrefix|..] == r1.error;
      assert (ErrorPrefix + r2.error)[|ErrorPrefix|..] == r2.error;
    }
  }

  /** Info and unknown routes never look at the request body. */
  lemma BodyIgnoredOffDecodingRoutes(httpMethod: string, url: string, s: Result<GameState, string>, t: Result<GameState, string>)
    requires Count(url, '/') >= 3
    requires !DecodesBody(RouteOf(httpMethod, PathOf(url)))
    ensures DoRun(httpMethod, url, s) == DoRun(httpMethod, url, t)
    ensures DoRun(httpMethod, url, s).Ok?
  {
  }

  /**
   * Info answers with the default `SnakeInfo`, unknown routes with "dunno",
   * and start and end with their fixed message whatever the snapshot.
   */
  lemma FixedRouteResponses(httpMethod: string, url: string, state: GameState)
    requires Count(url, '/') >= 3
    requires RouteOf(httpMethod, PathOf(url)) != Move
    ensures RouteOf(httpMethod, PathOf(url)) == Info ==> DoRun(httpMethod, url, Ok(state)) == Ok(SnakeInfoJson(DefaultSnakeInfo))
    ensures RouteOf(httpMethod, PathOf(url)) == Start ==> DoRun(httpMethod, url, Ok(state)) == Ok(MessageJson("start"))
    ensures RouteOf(httpMethod, PathOf(url)) == End ==> DoRun(httpMethod, url, Ok(state)) == Ok(MessageJson("end"))
    ensures RouteOf(httpMethod, PathOf(url)) == Dunno ==> DoRun(httpMethod, url, Ok(state)) == Ok(MessageJson("dunno"))
  {
  }

  /** A move request is answered with exactly `next_move` of its snapshot. */
  lemma MoveRouteCarriesNextMove(httpMethod: string, url: string, state: GameState)
    requires Count(url, '/') >= 3
    requires RouteOf(httpMethod, PathOf(url)) == Move && |state.board.food| > 0
    ensures DoRun(httpMethod, url, Ok(state)).Ok?
    ensures ParseMoveJson(Run(httpMethod, url, Ok(state))) == Some(NextMove(state))
  {
    MoveJsonRoundTrip(NextMove(state));
  }
}
