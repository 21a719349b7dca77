/**
 * The two remote fetches a symbol goes through, with the network and the
 * text parsers replaced by the replies they produce: the sentiment page
 * (one GET, a regular-expression match on its text) and the message stream
 * (a primary endpoint and one fallback, the chosen reply decoded as JSON).
 */
module Fetch {
  import opened Wrappers
  import opened Twits

  /** A ticker symbol such as "HOGE.X". */
  type Symbol = string

  /** Number of stream endpoints configured for messages: a primary and one fallback. */
  const StreamEndpoints: nat := 2

  /** What one `requests.get` gives back: it raised, or a status code and a body. */
  datatype Response<B> = ConnectionFailed | Response(status: int, body: B)

  /**
   * The sentiment page's text as seen by the regular expression: the two
   * captured groups (sentiment change, volume change), or no match.
   */
  datatype SentimentBody = Captured(sentiment: string, volume: string) | NoMatch

  /**
   * The stream reply's text as seen by `json.loads(...)['messages']`: the
   * value under 'messages' (JSON null is `None`), or text that is not JSON
   * or has no 'messages' key.
   */
  datatype StreamBody = Parsed(messages: Option<seq<RawTwit>>) | Malformed

  /** The replies the network gives for one symbol: the sentiment page, then one per stream endpoint. */
  datatype SymbolReplies = SymbolReplies(sentiment: Response<SentimentBody>, streams: seq<Response<StreamBody>>)

  /** The endpoints a GET may address. */
  datatype Endpoint = SentimentPage | Stream(index: nat)

  /** One GET request: its endpoint and the symbol formatted into its URL. */
  datatype Request = Get(endpoint: Endpoint, symbol: Symbol)

  /** The exceptions a fetch can raise. */
  datatype ScrapeError =
    | SVScrapeException(symbol: Symbol)    // the sentiment page did not answer 200
    | TwitScrapeException(symbol: Symbol)  // the last stream reply tried did not answer 200
    | AttributeError                       // `matches.group` on a failed match
    | JsonError                            // not JSON, or no 'messages' key
    | ConnectionError                      // `requests.get` itself raised

  /** Whether the network gave one reply per stream endpoint for every symbol position. */
  predicate Answers(net: seq<SymbolReplies>, n: nat)
  {
    |net| == n && forall k :: 0 <= k < n ==> |net[k].streams| == StreamEndpoints
  }

  /**
   * pull_sentiment_volume without its writes: the (sentiment, volume) pair
   * it would store, or the exception it raises.
   */
  function SentimentFetch(symbol: Symbol, page: Response<SentimentBody>): (r: Result<(string, string), ScrapeError>)
    ensures r.Success? <==> page.Response? && page.status == 200 && page.body.Captured?
    ensures r.Success? ==> r.value == (page.body.sentiment, page.body.volume)
    ensures page.Response? && page.status != 200 ==> r == Failure(SVScrapeException(symbol))
    ensures r.Failure? && page.Response? && page.status == 200 ==> r.error == AttributeError
  {
    match page
    case ConnectionFailed => Failure(ConnectionError)
    case Response(status, body) =>
      if status != 200 then Failure(SVScrapeException(symbol))
      else match body
        case NoMatch => Failure(AttributeError)
        case Captured(s, v) => Success((s, v))
  }

  /** Whether the endpoint loop of pull_twits stops at this reply: it raised or answered 200. */
  predicate Stops<B>(reply: Response<B>)
  {
    reply.ConnectionFailed? || reply.status == 200
  }

  /**
   * How many of the stream endpoints pull_twits asks, starting from endpoint
   * `i`: it goes on to the next endpoint only after an answer other than 200.
   */
  function AttemptsFrom(replies: seq<Response<StreamBody>>, i: nat): (n: nat)
    requires i < |replies|
    ensures i < n <= |replies|
    ensures forall j :: i <= j < n - 1 ==> !Stops(replies[j])
    ensures n < |replies| ==> Stops(replies[n - 1])
    decreases |replies| - i
  {
    if Stops(replies[i]) || i == |replies| - 1 then i + 1 else AttemptsFrom(replies, i + 1)
  }

  /** The number of GETs pull_twits makes for one symbol. */
  function StreamAttempts(replies: seq<Response<StreamBody>>): (n: nat)
    requires |replies| == StreamEndpoints
    ensures 1 <= n <= StreamEndpoints
    ensures n == 2 <==> replies[0].Response? && replies[0].status != 200
  {
    AttemptsFrom(replies, 0)
  }

  /** The GETs pull_twits makes when it asks the first `n` stream endpoints, in order. */
  function StreamRequests(symbol: Symbol, n: nat): (r: seq<Request>)
    ensures |r| == n
    ensures forall j :: 0 <= j < n ==> r[j] == Get(Stream(j), symbol)
  {
    if n == 0 then [] else StreamRequests(symbol, n - 1) + [Get(Stream(n - 1), symbol)]
  }

  /**
   * pull_twits without its write: the value it would store under the symbol,
   * or the exception it raises.
   */
  function TwitFetch(symbol: Symbol, replies: seq<Response<StreamBody>>): (r: Result<Option<seq<RawTwit>>, ScrapeError>)
    requires |replies| == StreamEndpoints
    ensures r == Failure(TwitScrapeException(symbol)) <==>
      forall j :: 0 <= j < |replies| ==> replies[j].Response? && replies[j].status != 200
    ensures replies[0] == Response(200, Parsed(None)) ==> r == Success(None)
    ensures forall m :: replies[0] == Response(200, Parsed(Some(m))) ==> r == Success(Some(m))
    ensures forall m :: replies[0].Response? && replies[0].status != 200 && replies[1] == Response(200, Parsed(m)) ==>
      r == Success(m)
    ensures replies[0].ConnectionFailed? ==> r == Failure(ConnectionError)
    ensures replies[0] == Response(200, Malformed) ==> r == Failure(JsonError)
    ensures replies[0].Response? && replies[0].status != 200 && replies[1] == Response(200, Malformed) ==>
      r == Failure(JsonError)
    ensures r.Success? ==> replies[StreamAttempts(replies) - 1] == Response(200, Parsed(r.value))
  {
    var n := StreamAttempts(replies);
    var last := replies[n - 1];
    if last.ConnectionFailed? then Failure(ConnectionError)
    else if last.status != 200 then Failure(TwitScrapeException(symbol))
    else if last.body.Malformed? then Failure(JsonError)
    else Success(last.body.messages)
  }

  /** The GETs one symbol's hydration makes: the sentiment page, then the stream endpoints asked. */
  function SymbolRequests(symbol: Symbol, rep: SymbolReplies): (r: seq<Request>)
    requires |rep.streams| == StreamEndpoints
  {
    [Get(SentimentPage, symbol)] + StreamRequests(symbol, StreamAttempts(rep.streams))
  }

  /** The symbols of the requests addressed to endpoint `e`, in request order. */
  function Targets(trace: seq<Request>, e: Endpoint): (r: seq<Symbol>)
    ensures |r| <= |trace|
  {
    if trace == [] then []
    else (if trace[0].endpoint == e then [trace[0].symbol] else []) + Targets(trace[1..], e)
  }

  lemma {:induction false} TargetsAppend(a: seq<Request>, b: seq<Request>, e: Endpoint)
    ensures Targets(a + b, e) == Targets(a, e) + Targets(b, e)
  {
    if a == [] {
      assert a + b == b;
    } else {
      var ab := a + b;
      assert ab[0] == a[0] && ab[1..] == a[1..] + b;
      TargetsAppend(a[1..], b, e);
      assert Targets(ab, e) == (if a[0].endpoint == e then [a[0].symbol] else []) + Targets(ab[1..], e);
    }
  }

  /**
   * One symbol's hydration addresses the sentiment page once, the primary
   * stream endpoint once and the fallback endpoint at most once, all for
   * that symbol.
   */
  lemma SymbolRequestsTargets(symbol: Symbol, rep: SymbolReplies)
    requires |rep.streams| == StreamEndpoints
    ensures Targets(SymbolRequests(symbol, rep), SentimentPage) == [symbol]
    ensures Targets(SymbolRequests(symbol, rep), Stream(0)) == [symbol]
    ensures Targets(SymbolRequests(symbol, rep), Stream(1)) ==
      if rep.streams[0].Response? && rep.streams[0].status != 200 then [symbol] else []
    ensures |SymbolRequests(symbol, rep)| <= 1 + StreamEndpoints
  {
    var n := StreamAttempts(rep.streams);
    var head := [Get(SentimentPage, symbol)];
    var primary := [Get(Stream(0), symbol)];
    forall e: Endpoint, g: Request {
      TargetsSingle(g, e);
    }
    if n == 1 {
      assert SymbolRequests(symbol, rep) == head + primary;
      TargetsAppend(head, primary, SentimentPage);
      TargetsAppend(head, primary, Stream(0));
      TargetsAppend(head, primary, Stream(1));
    } else {
      var fallback := [Get(Stream(1), symbol)];
      assert SymbolRequests(symbol, rep) == head + (primary + fallback);
      TargetsAppend(head, primary + fallback, SentimentPage);
      TargetsAppend(primary, fallback, SentimentPage);
      TargetsAppend(head, primary + fallback, Stream(0));
      TargetsAppend(primary, fallback, Stream(0));
      TargetsAppend(head, primary + fallback, Stream(1));
      TargetsAppend(primary, fallback, Stream(1));
    }
  }

  /** The sentiment page and the primary stream endpoint, on their own. */
  lemma SymbolRequestsOwnTargets(symbol: Symbol, rep: SymbolReplies, e: Endpoint)
    requires |rep.streams| == StreamEndpoints
    requires e == SentimentPage || e == Stream(0)
    ensures Targets(SymbolRequests(symbol, rep), e) == [symbol]
  {
    SymbolRequestsTargets(symbol, rep);
  }

  /** The counting consequences of SymbolRequestsTargets, on their own. */
  lemma SymbolRequestsBounds(symbol: Symbol, rep: SymbolReplies)
    requires |rep.streams| == StreamEndpoints
    ensures |Targets(SymbolRequests(symbol, rep), Stream(1))| <= 1
    ensures |SymbolRequests(symbol, rep)| <= 1 + StreamEndpoints
  {
    SymbolRequestsTargets(symbol, rep);
  }

  lemma TargetsSingle(g: Request, e: Endpoint)
    ensures Targets([g], e) == if g.endpoint == e then [g.symbol] else []
  {
    assert [g][1..] == [];
  }
}
