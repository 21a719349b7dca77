/**
 * The TwitScraper object: the active symbol list and the three per-symbol
 * maps, updated in place by add_symbol, the two fetch helpers and hydrate.
 * Each method is proved against the functions of Fetch and Hydration.
 */
module Scraper {
  import opened Wrappers
  import opened Twits
  import opened Fetch
  import opened Lists
  import opened Hydration

  /** Exceptions raised by members that are broken as written. */
  datatype PyError = NameError(name: string) | TypeError(message: string)

  /**
   * add_symbol's intended effect on the list: the symbol is appended unless
   * it is already there, so adding twice is the same as adding once.
   */
  function WithSymbol(symbols: seq<Symbol>, symbol: Symbol): (r: seq<Symbol>)
    ensures symbol in r
    ensures symbols <= r && |r| <= |symbols| + 1
    ensures r == symbols <==> symbol in symbols
    ensures NoDuplicates(symbols) ==> NoDuplicates(r)
  {
    if symbol in symbols then symbols else symbols + [symbol]
  }

  class TwitScraper {
    /** `_symbols`: the active symbols, in the caller's order. */
    var symbols: seq<Symbol>
    /** `_sentiment`: the sentiment change per symbol, `None` after a failed attempt. */
    var sentiment: map<Symbol, Option<string>>
    /** `_volume`: the volume change per symbol, `None` after a failed attempt. */
    var volume: map<Symbol, Option<string>>
    /** `_twits`: the raw messages per symbol, `None` after a failed attempt. */
    var twits: map<Symbol, Option<seq<RawTwit>>>

    /** The object's state as a value. */
    function State(): Store
      reads this
    {
      Store(symbols, sentiment, volume, twits)
    }

    /**
     * `TwitScraper(symbols, hydrate)`: empty maps, and a hydration pass when
     * asked for, answered by `net`.
     */
    constructor (symbols: seq<Symbol>, hydrate: bool, net: seq<SymbolReplies>)
      requires hydrate ==> Answers(net, |symbols|)
      ensures !hydrate ==> State() == Store(symbols, map[], map[], map[])
      ensures hydrate ==> State() == Hydrated(Store(symbols, map[], map[], map[]), net)
    {
      this.symbols := symbols;
      sentiment, volume, twits := map[], map[], map[];
      new;
      if hydrate {
        var _ := Hydrate(net);
      }
    }

    /** `check`: the symbol is active. */
    predicate IsActive(symbol: Symbol)
      reads this
    {
      symbol in symbols
    }

    /** `check_sent`: the symbol has a sentiment entry. */
    predicate HasSentiment(symbol: Symbol)
      reads this
    {
      symbol in sentiment
    }

    /** `check_vol`: the symbol has a volume entry. */
    predicate HasVolume(symbol: Symbol)
      reads this
    {
      symbol in volume
    }

    /** `check_twit`: the symbol has a twits entry. */
    predicate HasTwits(symbol: Symbol)
      reads this
    {
      symbol in twits
    }

    /**
     * get_sentiment_volume: never raises; each component is the stored value
     * when the symbol is active and has an entry in that map, and "" otherwise.
     */
    function GetSentimentVolume(symbol: Symbol): (r: (Option<string>, Option<string>))
      reads this
      ensures IsActive(symbol) && HasSentiment(symbol) ==> r.0 == sentiment[symbol]
      ensures !(IsActive(symbol) && HasSentiment(symbol)) ==> r.0 == Some("")
      ensures IsActive(symbol) && HasVolume(symbol) ==> r.1 == volume[symbol]
      ensures !(IsActive(symbol) && HasVolume(symbol)) ==> r.1 == Some("")
    {
      var s := if IsActive(symbol) && HasSentiment(symbol) then sentiment[symbol] else Some("");
      var v := if IsActive(symbol) && HasVolume(symbol) then volume[symbol] else Some("");
      (s, v)
    }

    /**
     * get_twits as intended: the stored entry (which is `None` after a failed
     * attempt) when the symbol is active and has one, and the empty list otherwise.
     */
    function GetTwits(symbol: Symbol): (r: Option<seq<RawTwit>>)
      reads this
      ensures IsActive(symbol) && HasTwits(symbol) ==> r == twits[symbol]
      ensures !(IsActive(symbol) && HasTwits(symbol)) ==> r == Some([])
    {
      if IsActive(symbol) && HasTwits(symbol) then twits[symbol] else Some([])
    }

    /**
     * get_twits as written: its guard evaluates the undefined global name
     * `symbols`, so every call raises NameError.
     */
    function GetTwitsAsWritten(symbol: Symbol): (r: Result<Option<seq<RawTwit>>, PyError>)
      ensures r == Failure(NameError("symbols"))
    {
      Failure(NameError("symbols"))
    }

    /** add_symbol as intended: append the symbol iff it is not already active. */
    method AddSymbol(symbol: Symbol)
      modifies this`symbols
      ensures symbols == WithSymbol(old(symbols), symbol)
    {
      if !IsActive(symbol) {
        symbols := symbols + [symbol];
      }
    }

    /**
     * add_symbol as written: it calls the two-parameter `check` with one
     * argument, so every call raises TypeError before the list is touched.
     */
    function AddSymbolAsWritten(symbol: Symbol): (r: Outcome<PyError>)
      ensures r == Fail(TypeError("<lambda>() missing 1 required positional argument: 'symbol'"))
    {
      Fail(TypeError("<lambda>() missing 1 required positional argument: 'symbol'"))
    }

    /**
     * pull_sentiment_volume: one GET of the sentiment page. A non-200 answer
     * raises SVScrapeException and a page the pattern does not match raises
     * AttributeError, both before anything is written; otherwise the two
     * captures are stored as sentiment and volume.
     */
    method PullSentimentVolume(symbol: Symbol, page: Response<SentimentBody>)
      returns (outcome: Outcome<ScrapeError>, requests: seq<Request>)
      modifies this`sentiment, this`volume
      ensures requests == [Get(SentimentPage, symbol)]
      ensures match SentimentFetch(symbol, page)
        case Success(p) =>
          outcome == Pass && sentiment == old(sentiment)[symbol := Some(p.0)] && volume == old(volume)[symbol := Some(p.1)]
        case Failure(e) =>
          outcome == Fail(e) && sentiment == old(sentiment) && volume == old(volume)
    {
      requests := [Get(SentimentPage, symbol)];
      if page.ConnectionFailed? {
        return Fail(ConnectionError), requests;
      }
      if page.status != 200 {
        return Fail(SVScrapeException(symbol)), requests;
      }
      match page.body
      case NoMatch =>
        outcome := Fail(AttributeError);
      case Captured(s, v) =>
        sentiment := sentiment[symbol := Some(s)];
        volume := volume[symbol := Some(v)];
        outcome := Pass;
    }

    /**
     * pull_twits: asks the stream endpoints in order and stops at the first
     * answer 200 (a raising GET leaves at once). TwitScrapeException when the
     * last reply asked is not 200, a JSON error when its body has no
     * messages; the twits entry is written only on success.
     */
    method PullTwits(symbol: Symbol, replies: seq<Response<StreamBody>>)
      returns (outcome: Outcome<ScrapeError>, requests: seq<Request>)
      requires |replies| == StreamEndpoints
      modifies this`twits
      ensures requests == StreamRequests(symbol, StreamAttempts(replies))
      ensures |requests| <= StreamEndpoints
      ensures match TwitFetch(symbol, replies)
        case Success(m) => outcome == Pass && twits == old(twits)[symbol := m]
        case Failure(e) => outcome == Fail(e) && twits == old(twits)
    {
      requests := [];
      var data := replies[0];  // overwritten by the loop's first iteration
      var i := 0;
      while i < |replies|
        invariant 0 <= i <= |replies|
        invariant requests == StreamRequests(symbol, i)
        invariant forall j :: 0 <= j < i ==> !Stops(replies[j])
        invariant 0 < i ==> data == replies[i - 1]
      {
        data := replies[i];
        requests := requests + [Get(Stream(i), symbol)];
        if data.ConnectionFailed? {
          AttemptsAt(replies, i + 1);
          return Fail(ConnectionError), requests;
        }
        if data.status == 200 {
          AttemptsAt(replies, i + 1);
          i := i + 1;
          break;
        }
        i := i + 1;
      }
      AttemptsAt(replies, i);
      if data.status != 200 {
        return Fail(TwitScrapeException(symbol)), requests;
      }
      match data.body
      case Malformed =>
        outcome := Fail(JsonError);
      case Parsed(m) =>
        twits := twits[symbol := m];
        outcome := Pass;
    }

    /**
     * The body of hydrate's loop for one symbol: the sentiment/volume attempt
     * and the twits attempt, each failure caught and stored as `None`; says
     * whether all three entries of the symbol are then `None`.
     */
    method VisitSymbol(symbol: Symbol, rep: SymbolReplies) returns (nothing: bool, requests: seq<Request>)
      requires |rep.streams| == StreamEndpoints
      modifies this`sentiment, this`volume, this`twits
      ensures State() == Visit(old(State()), symbol, rep)
      ensures symbol in sentiment && symbol in volume && symbol in twits
      ensures nothing == NothingScraped(State(), symbol)
      ensures requests == SymbolRequests(symbol, rep)
    {
      var sv, svRequests := PullSentimentVolume(symbol, rep.sentiment);
      if sv.Fail? {
        sentiment := sentiment[symbol := None];
        volume := volume[symbol := None];
      }
      var tw, twitRequests := PullTwits(symbol, rep.streams);
      if tw.Fail? {
        twits := twits[symbol := None];
      }
      requests := svRequests + twitRequests;
      nothing := sentiment[symbol].None? && volume[symbol].None? && twits[symbol].None?;
    }

    /** hydrate's pruning loop: `list.remove` of each invalid symbol, in order. */
    method Prune(invalid: seq<Symbol>)
      requires multiset(invalid) <= multiset(symbols)
      modifies this`symbols
      ensures symbols == RemoveEach(old(symbols), invalid)
    {
      assert invalid[0..] == invalid;
      for j := 0 to |invalid|
        invariant multiset(invalid[j..]) <= multiset(symbols)
        invariant RemoveEach(symbols, invalid[j..]) == RemoveEach(old(symbols), invalid)
      {
        RemoveStep(symbols, invalid, j);
        symbols := RemoveFirst(symbols, invalid[j]);
      }
      assert invalid[|invalid|..] == [];
    }

    /**
     * hydrate: visits every symbol of the list in order, collecting those that
     * got nothing, then removes them from the list. Every symbol that was in
     * the list has entries in all three maps afterwards; the list never gains
     * a symbol; a list without duplicates is filtered to the symbols with at
     * least one successful facet, in their original order.
     */
    method Hydrate(net: seq<SymbolReplies>) returns (requests: seq<Request>)
      requires Answers(net, |symbols|)
      modifies this
      ensures State() == Hydrated(old(State()), net)
      ensures requests == HydrateRequests(old(symbols), net)
      ensures forall x :: x in old(symbols) ==> x in sentiment && x in volume && x in twits
      ensures multiset(symbols) <= multiset(old(symbols))
      ensures NoDuplicates(old(symbols)) ==> symbols == Survivors(old(symbols), net) && NoDuplicates(symbols)
    {
      ghost var st0 := State();
      var invalid;
      invalid, requests := VisitAll(net);
      assert st0.symbols[..|st0.symbols|] == st0.symbols;
      Prune(invalid);
      HydrateFillsEntries(st0, net);
      if NoDuplicates(st0.symbols) {
        HydratePrunes(st0, net);
      }
    }

    /** hydrate's loop over the symbols: one visit each, in list order. */
    method VisitAll(net: seq<SymbolReplies>) returns (invalid: seq<Symbol>, requests: seq<Request>)
      requires Answers(net, |symbols|)
      modifies this`sentiment, this`volume, this`twits
      ensures State() == Run(old(State()), net, |symbols|).store
      ensures invalid == Run(old(State()), net, |symbols|).invalid
      ensures requests == HydrateRequests(symbols, net)
    {
      ghost var st0 := State();
      var current := symbols;
      invalid, requests := [], [];
      for i := 0 to |current|
        invariant symbols == current == st0.symbols
        invariant State() == Run(st0, net, i).store
        invariant invalid == Run(st0, net, i).invalid
        invariant requests == RequestsUpTo(current, net, i)
      {
        RunNext(st0, net, i);
        var nothing, symbolRequests := VisitSymbol(current[i], net[i]);
        requests := requests + symbolRequests;
        if nothing {
          invalid := invalid + [current[i]];
        }
      }
    }
  }

  /**
   * The stream loop that stopped after asking `n` endpoints (every earlier
   * answer other than 200, the last one stopping or the last endpoint) made
   * exactly StreamAttempts requests.
   */
  lemma AttemptsAt(replies: seq<Response<StreamBody>>, n: nat)
    requires |replies| == StreamEndpoints && 1 <= n <= |replies|
    requires forall j :: 0 <= j < n - 1 ==> !Stops(replies[j])
    requires n == |replies| || Stops(replies[n - 1])
    ensures StreamAttempts(replies) == n
  {
  }

  /** One `list.remove` of hydrate's pruning loop, in terms of RemoveEach. */
  lemma RemoveStep(symbols: seq<Symbol>, invalid: seq<Symbol>, j: nat)
    requires j < |invalid| && multiset(invalid[j..]) <= multiset(symbols)
    ensures invalid[j] in symbols
    ensures multiset(invalid[j + 1..]) <= multiset(RemoveFirst(symbols, invalid[j]))
    ensures RemoveEach(symbols, invalid[j..]) == RemoveEach(RemoveFirst(symbols, invalid[j]), invalid[j + 1..])
  {
    assert invalid[j..] == [invalid[j]] + invalid[j + 1..];
    assert invalid[j] in multiset(invalid[j..]);
    RemoveFirstMultiset(symbols, invalid[j]);
    SubMultisetCancel(multiset(invalid[j + 1..]), multiset(RemoveFirst(symbols, invalid[j])), invalid[j]);
  }

  /** add_symbol as written never adds a symbol that add_symbol as intended appends. */
  lemma AddSymbolAsWrittenNeverAdds(t: TwitScraper, symbol: Symbol)
    requires !t.IsActive(symbol)
    ensures t.AddSymbolAsWritten(symbol).Fail?
    ensures WithSymbol(t.symbols, symbol) == t.symbols + [symbol]
  {
  }

  /** get_twits as written fails even for an active symbol whose twits were fetched. */
  lemma GetTwitsAsWrittenLosesTwits(t: TwitScraper, symbol: Symbol, m: seq<RawTwit>)
    requires t.IsActive(symbol) && t.HasTwits(symbol) && t.twits[symbol] == Some(m)
    ensures t.GetTwitsAsWritten(symbol).Failure?
    ensures t.GetTwits(symbol) == Some(m)
  {
  }
}
