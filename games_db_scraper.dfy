/**
 * The request/response contract of the scraper that asks thegamesdb.net for
 * games matching a name: the query path it builds, the bounded list of
 * `{name, desc}` records it makes from the XML reply, and the blocking
 * call that waits for the request to settle before parsing.
 *
 * The transport is reduced to the status it reports and the body it
 * received; the XML parser to a function from the body to either a
 * parse failure or a tree of elements.
 */
module GamesDbScraper {

  /** `HttpReq::Status`: every terminal failure kind is folded into `Failed`. */
  datatype ReqStatus = InProgress | Success | Failed

  /** An XML element: its tag, its text content and its child elements in document order. */
  datatype XmlNode = XmlNode(name: string, text: string, children: seq<XmlNode>)

  /** What `xml_document::load` leaves behind: a parse failure, or the document node. */
  datatype XmlParse = Malformed | Parsed(document: XmlNode)

  /** The part of `ScraperSearchParams` the scraper reads. */
  datatype SearchParams = SearchParams(nameOverride: string, baseName: string)

  /** The request handed to the transport. */
  datatype HttpReq = HttpReq(host: string, path: string)

  /** One result: the `name` and `desc` entries of a `MetaDataList`. */
  datatype GameRecord = GameRecord(name: string, desc: string)

  datatype Option<T> = None | Some(value: T)

  const Host: string := "thegamesdb.net"
  const Endpoint: string := "/api/GetGame.php?"
  const QueryPrefix: string := Endpoint + "name="
  const MaxResults: nat := 5

  // ---------------------------------------------------------------------
  // Building the request

  /** The name searched for: the override when there is one, else the game's base name. */
  function SearchTerm(params: SearchParams): (term: string)
    ensures params.nameOverride != [] ==> term == params.nameOverride
    ensures params.nameOverride == [] ==> term == params.baseName
  {
    if params.nameOverride != [] then params.nameOverride else params.baseName
  }

  /** `makeHttpReq`: the term is appended to the query as it is, with no percent-encoding. */
  function MakeHttpReq(params: SearchParams): (req: HttpReq)
    ensures req.host == Host
    ensures |req.path| == |QueryPrefix| + |SearchTerm(params)|
  {
    HttpReq(Host, Endpoint + "name=" + SearchTerm(params))
  }

  /** Reads the search term back out of a query path; `None` for a path of another shape. */
  function QueryTerm(path: string): (term: Option<string>)
    ensures term.Some? <==> |QueryPrefix| <= |path| && path[..|QueryPrefix|] == QueryPrefix
  {
    if |QueryPrefix| <= |path| && path[..|QueryPrefix|] == QueryPrefix
    then Some(path[|QueryPrefix|..])
    else None
  }

  /** The path carries the search term verbatim: reading it back gives the term itself. */
  lemma MakeHttpReqCarriesTerm(params: SearchParams)
    ensures MakeHttpReq(params).host == Host
    ensures QueryTerm(MakeHttpReq(params).path) == Some(SearchTerm(params))
  {
    var path := MakeHttpReq(params).path;
    assert path == QueryPrefix + SearchTerm(params);
    assert path[..|QueryPrefix|] == QueryPrefix;
    assert path[|QueryPrefix|..] == SearchTerm(params);
  }

  /** Two searches reach the same path exactly when they search for the same term. */
  lemma MakeHttpReqInjective(p: SearchParams, q: SearchParams)
    ensures MakeHttpReq(p) == MakeHttpReq(q) <==> SearchTerm(p) == SearchTerm(q)
  {
    if MakeHttpReq(p) == MakeHttpReq(q) {
      MakeHttpReqCarriesTerm(p);
      MakeHttpReqCarriesTerm(q);
    }
  }

  // ---------------------------------------------------------------------
  // Navigating the document, as pugixml does

  /**
   * The index of the first element named `name` at or after `from`
   * (`node.child(name)` starts at 0, `node.next_sibling(name)` just after
   * the node).
   */
  function NextNamed(siblings: seq<XmlNode>, name: string, from: nat): (r: Option<nat>)
    decreases |siblings| - from
    ensures r.Some? ==> from <= r.value < |siblings| && siblings[r.value].name == name
    ensures r.Some? ==> forall j :: from <= j < r.value ==> siblings[j].name != name
    ensures r.None? ==> forall j :: from <= j < |siblings| ==> siblings[j].name != name
  {
    if from >= |siblings| then None
    else if siblings[from].name == name then Some(from)
    else NextNamed(siblings, name, from + 1)
  }

  /** `node.child(name)`; a null node (`None`) has no children. */
  function Child(node: Option<XmlNode>, name: string): (c: Option<XmlNode>)
    ensures c.Some? ==> c.value.name == name && node.Some? && c.value in node.value.children
  {
    match node
    case None => None
    case Some(n) =>
      match NextNamed(n.children, name, 0)
      case None => None
      case Some(i) => Some(n.children[i])
  }

  /** `node.text().get()`: the empty string for a null node. */
  function Text(node: Option<XmlNode>): string {
    match node
    case None => ""
    case Some(n) => n.text
  }

  // ---------------------------------------------------------------------
  // What a reply means

  /** The children named `Game`, in document order. */
  function Games(nodes: seq<XmlNode>): (games: seq<XmlNode>)
    ensures |games| <= |nodes|
  {
    if nodes == [] then []
    else
      var last := nodes[|nodes| - 1];
      Games(nodes[..|nodes| - 1]) + (if last.name == "Game" then [last] else [])
  }

  /** The record made from one `Game` element: its `GameTitle` and `Overview` texts. */
  function ToRecord(game: XmlNode): GameRecord {
    GameRecord(Text(Child(Some(game), "GameTitle")), Text(Child(Some(game), "Overview")))
  }

  function Records(games: seq<XmlNode>): (records: seq<GameRecord>)
    ensures |records| == |games|
  {
    seq(|games|, i requires 0 <= i < |games| => ToRecord(games[i]))
  }

  function Take<T>(s: seq<T>, n: nat): seq<T> {
    if |s| <= n then s else s[..n]
  }

  /** The children of the document's `Data` element (none when it has no such element). */
  function DataChildren(document: XmlNode): seq<XmlNode> {
    match Child(Some(document), "Data")
    case None => []
    case Some(data) => data.children
  }

  /** The results a settled request yields. */
  function ExpectedResults(status: ReqStatus, content: string, parse: string -> XmlParse): seq<GameRecord> {
    if status != Success then []
    else
      match parse(content)
      case Malformed => []
      case Parsed(document) => Take(Records(Games(DataChildren(document))), MaxResults)
  }

  // Facts about the selection of `Game` children

  lemma {:induction false} GamesAppend(a: seq<XmlNode>, b: seq<XmlNode>)
    ensures Games(a + b) == Games(a) + Games(b)
    decreases |b|
  {
    if b == [] {
      assert a + b == a;
    } else {
      var b' := b[..|b| - 1];
      assert (a + b)[..|a + b| - 1] == a + b';
      GamesAppend(a, b');
    }
  }

  lemma GamesOne(n: XmlNode)
    ensures Games([n]) == if n.name == "Game" then [n] else []
  {
    assert [n][..0] == [];
  }

  /** Elements with another tag are skipped: `Game` elements alone make up `Games`. */
  lemma {:induction false} GamesAreGames(nodes: seq<XmlNode>)
    ensures forall g :: g in Games(nodes) ==> g.name == "Game" && g in nodes
  {
    if nodes != [] {
      GamesAreGames(nodes[..|nodes| - 1]);
    }
  }

  /** Every `Game` element is selected: the selection is as long as the number of them. */
  lemma {:induction false} GamesKeepsAll(nodes: seq<XmlNode>)
    requires forall j :: 0 <= j < |nodes| ==> nodes[j].name == "Game"
    ensures Games(nodes) == nodes
  {
    if nodes != [] {
      GamesKeepsAll(nodes[..|nodes| - 1]);
    }
  }

  /** Nothing but non-`Game` elements selects nothing. */
  lemma {:induction false} GamesSkipsAll(nodes: seq<XmlNode>)
    requires forall j :: 0 <= j < |nodes| ==> nodes[j].name != "Game"
    ensures Games(nodes) == []
  {
    if nodes != [] {
      GamesSkipsAll(nodes[..|nodes| - 1]);
    }
  }

  // ---------------------------------------------------------------------
  // The operations

  /** Where the sibling cursor stands: at its element, or past the last sibling once it is null. */
  function CursorIndex(siblings: seq<XmlNode>, cursor: Option<nat>): nat {
    if cursor.Some? then cursor.value else |siblings|
  }

  /** Siblings that are not `Game` elements add nothing to the selection. */
  lemma GapIsSkipped(siblings: seq<XmlNode>, from: nat, upTo: nat)
    requires from <= upTo <= |siblings|
    requires forall j :: from <= j < upTo ==> siblings[j].name != "Game"
    ensures Games(siblings[..upTo]) == Games(siblings[..from])
  {
    var gap := siblings[from..upTo];
    assert forall j :: 0 <= j < |gap| ==> gap[j].name != "Game" by {
      forall j | 0 <= j < |gap| ensures gap[j].name != "Game" {
        assert gap[j] == siblings[from + j];
      }
    }
    GamesSkipsAll(gap);
    GamesAppend(siblings[..from], gap);
    assert siblings[..from] + gap == siblings[..upTo];
  }

  /** Advancing the cursor from one `Game` to the next adds exactly that `Game`. */
  lemma GamesAdvance(siblings: seq<XmlNode>, at: nat)
    requires at < |siblings| && siblings[at].name == "Game"
    ensures var upTo := CursorIndex(siblings, NextNamed(siblings, "Game", at + 1));
            Games(siblings[..upTo]) == Games(siblings[..at]) + [siblings[at]]
  {
    var next := NextNamed(siblings, "Game", at + 1);
    var upTo := CursorIndex(siblings, next);
    assert at + 1 <= upTo <= |siblings|;
    assert forall j :: at + 1 <= j < upTo ==> siblings[j].name != "Game";
    GapIsSkipped(siblings, at + 1, upTo);
    GamesOne(siblings[at]);
    GamesAppend(siblings[..at], [siblings[at]]);
    assert siblings[..at] + [siblings[at]] == siblings[..at + 1];
  }

  lemma RecordsAppend(games: seq<XmlNode>, g: XmlNode)
    ensures Records(games + [g]) == Records(games) + [ToRecord(g)]
  {
  }

  /** Once the cursor stops, what was collected is the capped selection of all siblings. */
  lemma CursorStopped(siblings: seq<XmlNode>, upTo: nat)
    requires upTo <= |siblings|
    requires upTo == |siblings| || |Games(siblings[..upTo])| == MaxResults
    requires |Games(siblings[..upTo])| <= MaxResults
    ensures Records(Games(siblings[..upTo])) == Take(Records(Games(siblings)), MaxResults)
  {
    GamesAppend(siblings[..upTo], siblings[upTo..]);
    assert siblings[..upTo] + siblings[upTo..] == siblings;
    if upTo < |siblings| {
      var done := Games(siblings[..upTo]);
      assert Records(Games(siblings))[..MaxResults] == Records(done);
    }
  }

  /**
   * `parseReq`: an unsuccessful request or a body that does not parse gives
   * no results; otherwise the first five `Game` children of `Data`, as
   * records, in document order.  The loop walks the sibling cursor as
   * pugixml does.
   */
  method ParseReq(status: ReqStatus, content: string, parse: string -> XmlParse) returns (mdl: seq<GameRecord>)
    ensures mdl == ExpectedResults(status, content, parse)
  {
    mdl := [];
    if status != Success {
      return;
    }
    var parsed := parse(content);
    if parsed.Malformed? {
      return;
    }
    var data := Child(Some(parsed.document), "Data");
    var siblings := if data.Some? then data.value.children else [];
    assert siblings == DataChildren(parsed.document);
    var resultNum: nat := 0;
    var game := NextNamed(siblings, "Game", 0);
    GamesSkipsAll(siblings[..CursorIndex(siblings, game)]);
    while game.Some? && resultNum < MaxResults
      invariant game.Some? ==> game.value < |siblings| && siblings[game.value].name == "Game"
      invariant mdl == Records(Games(siblings[..CursorIndex(siblings, game)]))
      invariant resultNum == |mdl| <= MaxResults
      decreases |siblings| - CursorIndex(siblings, game)
    {
      var at := game.value;
      GamesAdvance(siblings, at);
      RecordsAppend(Games(siblings[..at]), siblings[at]);
      mdl := mdl + [ToRecord(siblings[at])];
      resultNum := resultNum + 1;
      game := NextNamed(siblings, "Game", at + 1);
    }
    CursorStopped(siblings, CursorIndex(siblings, game));
  }

  /** The status settles: some poll reports a terminal status. */
  predicate Settles(polls: seq<ReqStatus>) {
    exists k :: 0 <= k < |polls| && polls[k] != InProgress
  }

  /** The first terminal status among the polls. */
  function Settled(polls: seq<ReqStatus>): (s: ReqStatus)
    requires Settles(polls)
    ensures s != InProgress
  {
    if polls[0] != InProgress then polls[0]
    else
      assert Settles(polls[1..]) by {
        var k :| 0 <= k < |polls| && polls[k] != InProgress;
        assert polls[1..][k - 1] == polls[k];
      }
      Settled(polls[1..])
  }

  /**
   * `getResults`: issue the request, spin on its status while it is in
   * progress (`polls` is what successive calls of `status()` report), then
   * parse the settled request.
   */
  method GetResults(params: SearchParams, polls: seq<ReqStatus>, content: string, parse: string -> XmlParse)
    returns (req: HttpReq, results: seq<GameRecord>)
    requires Settles(polls)
    ensures req == MakeHttpReq(params)
    ensures results == ExpectedResults(Settled(polls), content, parse)
  {
    req := MakeHttpReq(params);
    var i := 0;
    while polls[i] == InProgress
      invariant 0 <= i < |polls|
      invariant Settles(polls[i..])
      invariant Settled(polls[i..]) == Settled(polls)
      decreases |polls| - i
    {
      assert polls[i..][1..] == polls[i + 1..];
      i := i + 1;
    }
    results := ParseReq(polls[i], content, parse);
  }

  // ---------------------------------------------------------------------
  // What the results promise

  /** A request that did not succeed yields no results. */
  lemma FailedRequestYieldsNothing(status: ReqStatus, content: string, parse: string -> XmlParse)
    requires status != Success
    ensures ExpectedResults(status, content, parse) == []
  {
  }

  /** A body that does not parse yields no results. */
  lemma MalformedReplyYieldsNothing(content: string, parse: string -> XmlParse)
    requires parse(content) == Malformed
    ensures ExpectedResults(Success, content, parse) == []
  {
  }

  /**
   * A parsed reply yields `min(5, number of Game children of Data)`
   * records, the i-th made from the i-th `Game` child's `GameTitle` and
   * `Overview` texts.
   */
  lemma ParsedReplyResults(content: string, parse: string -> XmlParse, document: XmlNode)
    requires parse(content) == Parsed(document)
    ensures var games := Games(DataChildren(document));
            var results := ExpectedResults(Success, content, parse);
            && |results| == (if |games| < MaxResults then |games| else MaxResults)
            && forall i :: 0 <= i < |results| ==>
                 && games[i].name == "Game"
                 && results[i].name == Text(Child(Some(games[i]), "GameTitle"))
                 && results[i].desc == Text(Child(Some(games[i]), "Overview"))
  {
    var games := Games(DataChildren(document));
    GamesAreGames(DataChildren(document));
    assert forall i :: 0 <= i < |games| ==> games[i] in games;
  }

  /** The cap: however long the reply, at most five results. */
  lemma ResultsAreCapped(status: ReqStatus, content: string, parse: string -> XmlParse)
    ensures |ExpectedResults(status, content, parse)| <= MaxResults
  {
  }

  /** A child with another tag changes nothing: it neither appears nor counts toward the cap. */
  lemma OtherTagsDoNotCount(before: seq<XmlNode>, other: XmlNode, after: seq<XmlNode>)
    requires other.name != "Game"
    ensures Games(before + [other] + after) == Games(before + after)
  {
    GamesAppend(before + [other], after);
    GamesAppend(before, [other]);
    GamesOne(other);
    GamesAppend(before, after);
  }

  /** An element missing from a `Game` is read as the empty text. */
  lemma MissingFieldIsEmpty(game: XmlNode)
    requires forall j :: 0 <= j < |game.children| ==> game.children[j].name != "Overview"
    ensures ToRecord(game).desc == ""
  {
  }

  /** The blocking call on a request that settles in failure yields no results. */
  lemma SettledFailureYieldsNothing(polls: seq<ReqStatus>, content: string, parse: string -> XmlParse)
    requires Settles(polls) && Settled(polls) == Failed
    ensures ExpectedResults(Settled(polls), content, parse) == []
  {
  }

  /** The three-game scenario: titles and overviews come back paired, in order. */
  lemma ThreeGamesScenario(content: string, parse: string -> XmlParse)
    requires parse(content) == Parsed(XmlNode("", "", [XmlNode("Data", "", [
               XmlNode("Game", "", [XmlNode("GameTitle", "Game A", []), XmlNode("Overview", "Desc A", [])]),
               XmlNode("Game", "", [XmlNode("GameTitle", "Game B", []), XmlNode("Overview", "Desc B", [])]),
               XmlNode("Game", "", [XmlNode("GameTitle", "Game C", []), XmlNode("Overview", "Desc C", [])])])]))
    ensures ExpectedResults(Success, content, parse) ==
              [GameRecord("Game A", "Desc A"), GameRecord("Game B", "Desc B"), GameRecord("Game C", "Desc C")]
  {
    var document := parse(content).document;
    var games := DataChildren(document);
    GamesKeepsAll(games);
  }
}
