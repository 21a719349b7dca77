/**
 * The hydration pass as a function of the scraper's state and of the
 * network's replies: one visit per position of the symbol list (a
 * sentiment/volume attempt and a twits attempt, each failure turned into
 * `None` entries), the symbols that got nothing collected as invalid, and
 * those removed from the list with `list.remove` after the loop.
 */
module Hydration {
  import opened Wrappers
  import opened Twits
  import opened Fetch
  import opened Lists

  /** The scraper's state: the active symbols and the three per-symbol maps. */
  datatype Store = Store(
    symbols: seq<Symbol>,
    sentiment: map<Symbol, Option<string>>,
    volume: map<Symbol, Option<string>>,
    twits: map<Symbol, Option<seq<RawTwit>>>)

  /** The value hydrate leaves under a symbol in the sentiment map after one attempt. */
  function SentimentEntry(symbol: Symbol, page: Response<SentimentBody>): Option<string>
  {
    match SentimentFetch(symbol, page)
    case Success(p) => Some(p.0)
    case Failure(_) => None
  }

  /** The value hydrate leaves under a symbol in the volume map after one attempt. */
  function VolumeEntry(symbol: Symbol, page: Response<SentimentBody>): Option<string>
  {
    match SentimentFetch(symbol, page)
    case Success(p) => Some(p.1)
    case Failure(_) => None
  }

  /** The value hydrate leaves under a symbol in the twits map after one attempt. */
  function TwitsEntry(symbol: Symbol, replies: seq<Response<StreamBody>>): Option<seq<RawTwit>>
    requires |replies| == StreamEndpoints
  {
    match TwitFetch(symbol, replies)
    case Success(m) => m
    case Failure(_) => None
  }

  /** Whether one visit stores something other than `None` for the symbol in some map. */
  predicate Kept(symbol: Symbol, rep: SymbolReplies)
    requires |rep.streams| == StreamEndpoints
  {
    SentimentFetch(symbol, rep.sentiment).Success? || TwitsEntry(symbol, rep.streams).Some?
  }

  /** The body of hydrate's loop for one symbol: both attempts and their writes. */
  function Visit(st: Store, symbol: Symbol, rep: SymbolReplies): Store
    requires |rep.streams| == StreamEndpoints
  {
    st.(sentiment := st.sentiment[symbol := SentimentEntry(symbol, rep.sentiment)],
        volume := st.volume[symbol := VolumeEntry(symbol, rep.sentiment)],
        twits := st.twits[symbol := TwitsEntry(symbol, rep.streams)])
  }

  /** hydrate's invalidity test: all three entries of the symbol are `None`. */
  predicate NothingScraped(st: Store, symbol: Symbol)
    requires symbol in st.sentiment && symbol in st.volume && symbol in st.twits
  {
    st.sentiment[symbol].None? && st.volume[symbol].None? && st.twits[symbol].None?
  }

  /** The state of hydrate's loop: the store and the `invalid` list. */
  datatype LoopState = LoopState(store: Store, invalid: seq<Symbol>)

  /** hydrate's loop after its first `n` iterations. */
  function Run(st: Store, net: seq<SymbolReplies>, n: nat): (p: LoopState)
    requires Answers(net, |st.symbols|) && n <= |st.symbols|
    ensures p.store.symbols == st.symbols
    ensures multiset(p.invalid) <= multiset(st.symbols[..n])
  {
    if n == 0 then LoopState(st, [])
    else
      var prev := Run(st, net, n - 1);
      var symbol := st.symbols[n - 1];
      var after := Visit(prev.store, symbol, net[n - 1]);
      assert st.symbols[..n] == st.symbols[..n - 1] + [symbol];
      LoopState(after, prev.invalid + (if NothingScraped(after, symbol) then [symbol] else []))
  }

  /** The state hydrate leaves: the loop's maps, and the list without the invalid symbols. */
  function Hydrated(st: Store, net: seq<SymbolReplies>): (r: Store)
    requires Answers(net, |st.symbols|)
    ensures multiset(r.symbols) <= multiset(st.symbols)
  {
    var p := Run(st, net, |st.symbols|);
    assert st.symbols[..|st.symbols|] == st.symbols;
    p.store.(symbols := RemoveEach(st.symbols, p.invalid))
  }

  /** The GETs hydrate's loop makes in its first `n` iterations, in order. */
  function RequestsUpTo(symbols: seq<Symbol>, net: seq<SymbolReplies>, n: nat): seq<Request>
    requires Answers(net, |symbols|) && n <= |symbols|
  {
    if n == 0 then [] else RequestsUpTo(symbols, net, n - 1) + SymbolRequests(symbols[n - 1], net[n - 1])
  }

  /** The GETs hydrate makes, in order. */
  function HydrateRequests(symbols: seq<Symbol>, net: seq<SymbolReplies>): seq<Request>
    requires Answers(net, |symbols|)
  {
    RequestsUpTo(symbols, net, |symbols|)
  }

  /** Reference result: the symbols with at least one successful facet, in list order. */
  function Survivors(symbols: seq<Symbol>, net: seq<SymbolReplies>): seq<Symbol>
    requires Answers(net, |symbols|)
  {
    if symbols == [] then []
    else (if Kept(symbols[0], net[0]) then [symbols[0]] else []) + Survivors(symbols[1..], net[1..])
  }

  // ---------------------------------------------------------------------
  // Properties of one visit

  /** A visit writes the symbol's three entries and no other. */
  lemma VisitWrites(st: Store, symbol: Symbol, rep: SymbolReplies)
    requires |rep.streams| == StreamEndpoints
    ensures var after := Visit(st, symbol, rep);
      && after.symbols == st.symbols
      && after.sentiment.Keys == st.sentiment.Keys + {symbol}
      && after.volume.Keys == st.volume.Keys + {symbol}
      && after.twits.Keys == st.twits.Keys + {symbol}
      && after.sentiment[symbol] == SentimentEntry(symbol, rep.sentiment)
      && after.volume[symbol] == VolumeEntry(symbol, rep.sentiment)
      && after.twits[symbol] == TwitsEntry(symbol, rep.streams)
      && (forall x :: x != symbol && x in st.sentiment ==> after.sentiment[x] == st.sentiment[x])
      && (forall x :: x != symbol && x in st.volume ==> after.volume[x] == st.volume[x])
      && (forall x :: x != symbol && x in st.twits ==> after.twits[x] == st.twits[x])
  {
  }

  /** A visit marks the symbol invalid exactly when neither facet succeeded. */
  lemma VisitInvalidIffNothingKept(st: Store, symbol: Symbol, rep: SymbolReplies)
    requires |rep.streams| == StreamEndpoints
    ensures var after := Visit(st, symbol, rep);
      symbol in after.sentiment && symbol in after.volume && symbol in after.twits &&
      (NothingScraped(after, symbol) <==> !Kept(symbol, rep))
  {
  }

  // ---------------------------------------------------------------------
  // Properties of the loop

  /** One more iteration of hydrate's loop: visit the next symbol, and note it if it got nothing. */
  lemma RunNext(st: Store, net: seq<SymbolReplies>, i: nat)
    requires Answers(net, |st.symbols|) && i < |st.symbols|
    ensures var prev := Run(st, net, i);
      var after := Visit(prev.store, st.symbols[i], net[i]);
      && st.symbols[i] in after.sentiment && st.symbols[i] in after.volume && st.symbols[i] in after.twits
      && Run(st, net, i + 1).store == after
      && Run(st, net, i + 1).invalid == prev.invalid + (if NothingScraped(after, st.symbols[i]) then [st.symbols[i]] else [])
      && RequestsUpTo(st.symbols, net, i + 1) == RequestsUpTo(st.symbols, net, i) + SymbolRequests(st.symbols[i], net[i])
  {
  }

  /** After `n` iterations, the `k`-th symbol (for `k < n`) has a key in all three maps. */
  lemma {:induction false} RunFillsEntry(st: Store, net: seq<SymbolReplies>, n: nat, k: nat)
    requires Answers(net, |st.symbols|) && k < n <= |st.symbols|
    ensures var s := Run(st, net, n).store;
      st.symbols[k] in s.sentiment && st.symbols[k] in s.volume && st.symbols[k] in s.twits
  {
    var prev := Run(st, net, n - 1).store;
    VisitWrites(prev, st.symbols[n - 1], net[n - 1]);
    if k < n - 1 {
      RunFillsEntry(st, net, n - 1, k);
    }
  }

  /** The loop touches no entry of a symbol outside the list. */
  lemma {:induction false} RunLeavesOthers(st: Store, net: seq<SymbolReplies>, n: nat, x: Symbol)
    requires Answers(net, |st.symbols|) && n <= |st.symbols| && x !in st.symbols
    ensures var s := Run(st, net, n).store;
      && (x in s.sentiment <==> x in st.sentiment) && (x in st.sentiment ==> s.sentiment[x] == st.sentiment[x])
      && (x in s.volume <==> x in st.volume) && (x in st.volume ==> s.volume[x] == st.volume[x])
      && (x in s.twits <==> x in st.twits) && (x in st.twits ==> s.twits[x] == st.twits[x])
  {
    if n > 0 {
      RunLeavesOthers(st, net, n - 1, x);
    }
  }

  /**
   * On a list without duplicates, after `n` iterations the `k`-th symbol
   * (for `k < n`) holds what its own visit stored.
   */
  lemma {:induction false} RunEntry(st: Store, net: seq<SymbolReplies>, n: nat, k: nat)
    requires Answers(net, |st.symbols|) && k < n <= |st.symbols| && NoDuplicates(st.symbols)
    ensures var s := Run(st, net, n).store;
      var x := st.symbols[k];
      && x in s.sentiment && s.sentiment[x] == SentimentEntry(x, net[k].sentiment)
      && x in s.volume && s.volume[x] == VolumeEntry(x, net[k].sentiment)
      && x in s.twits && s.twits[x] == TwitsEntry(x, net[k].streams)
  {
    var prev := Run(st, net, n - 1).store;
    VisitWrites(prev, st.symbols[n - 1], net[n - 1]);
    if k < n - 1 {
      RunEntry(st, net, n - 1, k);
      assert st.symbols[k] != st.symbols[n - 1];
    }
  }

  /**
   * On a list without duplicates, after `n` iterations the `k`-th symbol
   * (for `k < n`) is in the `invalid` list exactly when it kept nothing.
   */
  lemma {:induction false} RunInvalidAt(st: Store, net: seq<SymbolReplies>, n: nat, k: nat)
    requires Answers(net, |st.symbols|) && k < n <= |st.symbols| && NoDuplicates(st.symbols)
    ensures st.symbols[k] in Run(st, net, n).invalid <==> !Kept(st.symbols[k], net[k])
  {
    var prev := Run(st, net, n - 1);
    var symbol := st.symbols[n - 1];
    var after := Visit(prev.store, symbol, net[n - 1]);
    VisitInvalidIffNothingKept(prev.store, symbol, net[n - 1]);
    var added := if NothingScraped(after, symbol) then [symbol] else [];
    assert Run(st, net, n).invalid == prev.invalid + added;
    var x := st.symbols[k];
    assert x in prev.invalid + added <==> x in prev.invalid || x in added;
    if k < n - 1 {
      RunInvalidAt(st, net, n - 1, k);
      assert x != symbol;
    } else {
      NotBefore(st.symbols, n - 1);
      NotInSubMultiset(symbol, prev.invalid, st.symbols[..n - 1]);
    }
  }

  /** The sentiment page and the primary stream endpoint are asked once per symbol, in list order. */
  lemma {:induction false} RequestsUpToTargets(symbols: seq<Symbol>, net: seq<SymbolReplies>, n: nat, e: Endpoint)
    requires Answers(net, |symbols|) && n <= |symbols|
    requires e == SentimentPage || e == Stream(0)
    ensures Targets(RequestsUpTo(symbols, net, n), e) == symbols[..n]
  {
    if n > 0 {
      var prev := RequestsUpTo(symbols, net, n - 1);
      var block := SymbolRequests(symbols[n - 1], net[n - 1]);
      assert RequestsUpTo(symbols, net, n) == prev + block;
      TargetsAppend(prev, block, e);
      RequestsUpToTargets(symbols, net, n - 1, e);
      SymbolRequestsOwnTargets(symbols[n - 1], net[n - 1], e);
      PrefixSnoc(symbols, n);
      assert Targets(prev + block, e) == symbols[..n - 1] + [symbols[n - 1]];
    }
  }

  /** The fallback endpoint is asked at most once per symbol, and each symbol costs at most three requests. */
  lemma {:induction false} RequestsUpToBounds(symbols: seq<Symbol>, net: seq<SymbolReplies>, n: nat)
    requires Answers(net, |symbols|) && n <= |symbols|
    ensures |Targets(RequestsUpTo(symbols, net, n), Stream(1))| <= n
    ensures |RequestsUpTo(symbols, net, n)| <= (1 + StreamEndpoints) * n
  {
    if n > 0 {
      RequestsUpToBounds(symbols, net, n - 1);
      var prev := RequestsUpTo(symbols, net, n - 1);
      var block := SymbolRequests(symbols[n - 1], net[n - 1]);
      assert RequestsUpTo(symbols, net, n) == prev + block;
      SymbolRequestsBounds(symbols[n - 1], net[n - 1]);
      TargetsAppend(prev, block, Stream(1));
    }
  }

  // ---------------------------------------------------------------------
  // Properties of the whole pass

  /**
   * After hydrate, every symbol that was in the list has a key in all three
   * maps, and the entries of symbols that were not in the list are as before.
   */
  lemma HydrateFillsEntries(st: Store, net: seq<SymbolReplies>)
    requires Answers(net, |st.symbols|)
    ensures var r := Hydrated(st, net);
      forall x :: x in st.symbols ==> x in r.sentiment && x in r.volume && x in r.twits
    ensures var r := Hydrated(st, net);
      forall x :: x !in st.symbols ==>
        && (x in r.sentiment <==> x in st.sentiment) && (x in st.sentiment ==> r.sentiment[x] == st.sentiment[x])
        && (x in r.volume <==> x in st.volume) && (x in st.volume ==> r.volume[x] == st.volume[x])
        && (x in r.twits <==> x in st.twits) && (x in st.twits ==> r.twits[x] == st.twits[x])
  {
    forall k | 0 <= k < |st.symbols| 
      ensures var r := Hydrated(st, net);
        st.symbols[k] in r.sentiment && st.symbols[k] in r.volume && st.symbols[k] in r.twits
    {
      RunFillsEntry(st, net, |st.symbols|, k);
    }
    forall x | x !in st.symbols
      ensures var r := Hydrated(st, net);
        && (x in r.sentiment <==> x in st.sentiment) && (x in st.sentiment ==> r.sentiment[x] == st.sentiment[x])
        && (x in r.volume <==> x in st.volume) && (x in st.volume ==> r.volume[x] == st.volume[x])
        && (x in r.twits <==> x in st.twits) && (x in st.twits ==> r.twits[x] == st.twits[x])
    {
      RunLeavesOthers(st, net, |st.symbols|, x);
    }
  }

  /**
   * On a list without duplicates, each symbol's entries after hydrate are the
   * fetched data, or `None` for a facet that failed.
   */
  lemma HydrateEntries(st: Store, net: seq<SymbolReplies>)
    requires Answers(net, |st.symbols|) && NoDuplicates(st.symbols)
    ensures var r := Hydrated(st, net);
      forall k :: 0 <= k < |st.symbols| ==>
        var x := st.symbols[k];
        && x in r.sentiment && r.sentiment[x] == SentimentEntry(x, net[k].sentiment)
        && x in r.volume && r.volume[x] == VolumeEntry(x, net[k].sentiment)
        && x in r.twits && r.twits[x] == TwitsEntry(x, net[k].streams)
  {
    forall k | 0 <= k < |st.symbols|
      ensures var r := Hydrated(st, net);
        var x := st.symbols[k];
        && x in r.sentiment && r.sentiment[x] == SentimentEntry(x, net[k].sentiment)
        && x in r.volume && r.volume[x] == VolumeEntry(x, net[k].sentiment)
        && x in r.twits && r.twits[x] == TwitsEntry(x, net[k].streams)
    {
      RunEntry(st, net, |st.symbols|, k);
    }
  }

  /**
   * On a list without duplicates, hydrate removes a symbol exactly when both
   * of its facets failed.
   */
  lemma HydrateKeeps(st: Store, net: seq<SymbolReplies>)
    requires Answers(net, |st.symbols|) && NoDuplicates(st.symbols)
    ensures var r := Hydrated(st, net);
      forall k :: 0 <= k < |st.symbols| ==> (st.symbols[k] in r.symbols <==> Kept(st.symbols[k], net[k]))
  {
    var inv := Run(st, net, |st.symbols|).invalid;
    assert st.symbols[..|st.symbols|] == st.symbols;
    InvalidExactlyUnkept(st, net);
    RemoveEachIsFilter(st.symbols, inv);
  }

  /**
   * On a list without duplicates, hydrate keeps the survivors in their
   * original order and leaves a list without duplicates.
   */
  lemma HydratePrunes(st: Store, net: seq<SymbolReplies>)
    requires Answers(net, |st.symbols|) && NoDuplicates(st.symbols)
    ensures Hydrated(st, net).symbols == Survivors(st.symbols, net)
    ensures NoDuplicates(Hydrated(st, net).symbols)
  {
    var inv := Run(st, net, |st.symbols|).invalid;
    assert st.symbols[..|st.symbols|] == st.symbols;
    InvalidExactlyUnkept(st, net);
    RemoveEachIsFilter(st.symbols, inv);
    FilterOutNoDuplicates(st.symbols, Elements(inv));
    FilterOutIsSurvivors(st.symbols, net, Elements(inv));
  }

  /** After the whole pass, the invalid list holds exactly the symbols that kept nothing. */
  lemma InvalidExactlyUnkept(st: Store, net: seq<SymbolReplies>)
    requires Answers(net, |st.symbols|) && NoDuplicates(st.symbols)
    ensures var inv := Run(st, net, |st.symbols|).invalid;
      forall k :: 0 <= k < |st.symbols| ==> (st.symbols[k] in inv <==> !Kept(st.symbols[k], net[k]))
  {
    var n := |st.symbols|;
    forall k | 0 <= k < n ensures st.symbols[k] in Run(st, net, n).invalid <==> !Kept(st.symbols[k], net[k]) {
      RunInvalidAt(st, net, n, k);
    }
  }

  /** Filtering out a set that holds exactly the symbols that kept nothing gives the survivors. */
  lemma {:induction false} FilterOutIsSurvivors(symbols: seq<Symbol>, net: seq<SymbolReplies>, d: set<Symbol>)
    requires Answers(net, |symbols|)
    requires forall k :: 0 <= k < |symbols| ==> (symbols[k] in d <==> !Kept(symbols[k], net[k]))
    ensures FilterOut(symbols, d) == Survivors(symbols, net)
  {
    if symbols != [] {
      forall k | 0 <= k < |symbols| - 1
        ensures symbols[1..][k] in d <==> !Kept(symbols[1..][k], net[1..][k])
      {
        assert symbols[1..][k] == symbols[k + 1] && net[1..][k] == net[k + 1];
      }
      FilterOutIsSurvivors(symbols[1..], net[1..], d);
    }
  }

  /**
   * On a list without duplicates, every symbol left after hydrate has some
   * data: a sentiment/volume pair, or a twits list (possibly empty).
   */
  lemma HydrateSurvivorsHaveData(st: Store, net: seq<SymbolReplies>)
    requires Answers(net, |st.symbols|) && NoDuplicates(st.symbols)
    ensures var r := Hydrated(st, net);
      forall x :: x in r.symbols ==>
        && x in r.sentiment && x in r.volume && x in r.twits
        && ((r.sentiment[x].Some? && r.volume[x].Some?) || r.twits[x].Some?)
  {
    var r := Hydrated(st, net);
    HydrateKeeps(st, net);
    HydrateEntries(st, net);
    forall x | x in r.symbols
      ensures && x in r.sentiment && x in r.volume && x in r.twits
              && ((r.sentiment[x].Some? && r.volume[x].Some?) || r.twits[x].Some?)
    {
      if x !in st.symbols {
        NotInSubMultiset(x, r.symbols, st.symbols);
      }
      var k := IndexOf(st.symbols, x);
    }
  }

  /**
   * hydrate attempts every symbol of the list once per facet, in list order:
   * one request to the sentiment page and one to the primary stream endpoint
   * per symbol, at most one fallback request per symbol, and no other request.
   */
  lemma HydrateAttemptsEachOnce(symbols: seq<Symbol>, net: seq<SymbolReplies>)
    requires Answers(net, |symbols|)
    ensures Targets(HydrateRequests(symbols, net), SentimentPage) == symbols
    ensures Targets(HydrateRequests(symbols, net), Stream(0)) == symbols
    ensures |Targets(HydrateRequests(symbols, net), Stream(1))| <= |symbols|
    ensures |HydrateRequests(symbols, net)| <= (1 + StreamEndpoints) * |symbols|
  {
    RequestsUpToTargets(symbols, net, |symbols|, SentimentPage);
    RequestsUpToTargets(symbols, net, |symbols|, Stream(0));
    RequestsUpToBounds(symbols, net, |symbols|);
    assert symbols[..|symbols|] == symbols;
  }
}
