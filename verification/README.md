# TwitScraper in Dafny

A model of the `TwitScraper` class of the TwitScraper package, a scraper of
StockTwits data. A scraper object holds a list of ticker symbols and three
dictionaries keyed by symbol:

- the sentiment change, scraped from the symbol's web page with a regular expression;
- the volume change, from the same page and the same regular expression;
- the raw messages ("twits"), from the JSON stream API. That API has a primary
  endpoint and one fallback.

`hydrate` visits every symbol in list order. For each symbol it tries both
facets and stores `None` in place of any facet that failed. A symbol that got
nothing at all is collected as invalid, and after the loop every invalid symbol
is taken out of the list with `list.remove`. `parse_twit` extracts
`(body, likes, username)` from one message.

The model has six modules:

- `Wrappers`: `Option`, `Result` and `Outcome`. The last one is a result without a value.
- `Twits`: the message dictionary as parse_twit sees it, and `ParseTwit`.
- `Fetch`: the two remote fetches and the GET requests they make.
  - The network is a parameter. For each position of the list, a `SymbolReplies`
    value gives the reply of the sentiment page and one reply per stream endpoint.
  - A reply is either "the GET raised" or a status code with a body.
  - The body is given as the regular expression or `json.loads(...)['messages']`
    sees it.
  - `SentimentFetch` and `TwitFetch` say what each fetch stores or which
    exception it raises.
  - `Request` values record which GETs were made, in order.
- `Lists`: Python's `list.remove`, as `RemoveFirst`, and a run of removals, as
  `RemoveEach`. They are proved equal to a reference filter `FilterOut` on
  lists without duplicates.
- `Hydration`: the scraper's state as a value (`Store`) and the hydration pass
  as functions of that state and of the network.
  - `Visit` is one iteration of the loop.
  - `Run` is the first `n` iterations.
  - `Hydrated` is the whole pass, pruning included.
  - `Survivors` is an independent reference for the surviving list.
  - The lemmas relate these functions to one another.
- `Scraper`: the class `TwitScraper` itself.
  - Its fields are `symbols`, `sentiment`, `volume` and `twits`.
  - The constructor and the methods update those fields in place.
  - Each method is proved against the functions of `Fetch` and `Hydration`:
    the new state and the requests it made are stated in terms of them.

The Python exceptions that these members catch or raise are values. They are
`ScrapeError`, `KeyError` and `PyError`.

## Model

| member | source | states |
|---|---|---|
| Twits.ParseTwit | twitscraper/TwitScraper.py:120-126 | Success exactly when 'body' is present, 'likes' (if present) has 'total', and 'user' has 'username'. It then returns the body, the username and the total likes, or 0 likes when 'likes' is absent. A missing 'body' raises KeyError('body'). 'likes' without 'total' raises KeyError('total'). Every failure names one of the four keys. |
| Twits.ParseUnparse | twitscraper/TwitScraper.py:120-126 | Round trip: parsing the message that carries a triple gives back that triple. |
| Twits.ParseWithoutLikes | twitscraper/TwitScraper.py:124 | A message without a 'likes' key parses with 0 likes. |
| Fetch.SentimentFetch | twitscraper/TwitScraper.py:99-106 | Succeeds exactly when the page answered 200 and the pattern matched. The success value is the two captured groups. A status other than 200 raises SVScrapeException for the symbol. A 200 page that fails raises AttributeError, because the pattern did not match. |
| Fetch.AttemptsFrom | twitscraper/TwitScraper.py:110-113 | The endpoint loop from endpoint `i` asks at least one and at most all remaining endpoints. It passes only over answers other than 200. It stops early only at a reply that raised or answered 200. |
| Fetch.StreamAttempts | twitscraper/TwitScraper.py:110-113 | pull_twits makes one or two GETs. It makes two exactly when the primary endpoint answered with a status other than 200. |
| Fetch.StreamRequests | twitscraper/TwitScraper.py:110-111 | The n stream GETs address endpoints 0, 1, …, n-1 in order, all for the symbol. |
| Fetch.TwitFetch | twitscraper/TwitScraper.py:108-118 | TwitScrapeException exactly when every endpoint answered with a status other than 200. A primary 200 reply gives its 'messages' value, including JSON null. After a primary reply other than 200, a fallback 200 reply gives its value. A primary GET that raises ends in a connection error, and a primary 200 reply that is not JSON with 'messages' ends in a JSON error; the fallback is not used in either case. A fallback 200 reply that is not decodable ends in a JSON error. Any success value is the 'messages' value of the last reply asked, which answered 200. |
| Fetch.SymbolRequestsTargets | twitscraper/TwitScraper.py:99-118 | One symbol's visit asks the sentiment page once and the primary stream once, both for that symbol. It asks the fallback once exactly when the primary answered with a status other than 200. It makes at most three requests in all. |
| Lists.IndexOf | twitscraper/TwitScraper.py:97 | The position `list.remove` works on: it holds the value, and no earlier position does. |
| Lists.RemoveFirst | twitscraper/TwitScraper.py:97 | `list.remove(x)` is the list with exactly the first occurrence of `x` cut out. |
| Lists.RemoveFirstMultiset | twitscraper/TwitScraper.py:97 | `list.remove(x)` takes away one copy of `x` and nothing else. |
| Lists.RemoveEach | twitscraper/TwitScraper.py:97 | Removing the invalid list one value at a time takes away exactly the values of the invalid list, counted with repetition. |
| Lists.RemoveFirstIsFilter | twitscraper/TwitScraper.py:97 | On a list without duplicates, `list.remove(x)` equals filtering `x` out. |
| Lists.RemoveEachIsFilter | twitscraper/TwitScraper.py:97 | On a list without duplicates, removing the values of `drop` one by one equals filtering out the set of those values, with order kept. |
| Hydration.Run | twitscraper/TwitScraper.py:62-94 | hydrate's loop never changes the list. Its invalid list is a sub-multiset of the symbols visited so far. |
| Hydration.Hydrated | twitscraper/TwitScraper.py:58-97 | hydrate never adds a symbol to the list. |
| Hydration.VisitWrites | twitscraper/TwitScraper.py:66-86 | One visit writes the symbol's entry in each of the three maps: the fetched value, or `None` after a failure. It changes no other key and leaves the list alone. |
| Hydration.VisitInvalidIffNothingKept | twitscraper/TwitScraper.py:88-94 | After a visit, the symbol's three entries are all `None` exactly when the sentiment fetch failed and the twits entry is `None`. |
| Hydration.RunFillsEntry | twitscraper/TwitScraper.py:64-86 | After n iterations, every symbol among the first n has a key in all three maps. |
| Hydration.RunLeavesOthers | twitscraper/TwitScraper.py:64-86 | The loop leaves every map entry of a symbol outside the list unchanged, present or absent. |
| Hydration.RunEntry | twitscraper/TwitScraper.py:64-86 | On a list without duplicates, after n iterations each of the first n symbols holds what its own visit stored. |
| Hydration.RunInvalidAt | twitscraper/TwitScraper.py:88-94 | On a list without duplicates, after n iterations each of the first n symbols is in the invalid list exactly when neither of its facets succeeded. |
| Hydration.InvalidExactlyUnkept | twitscraper/TwitScraper.py:88-94 | After the whole loop, on a list without duplicates, the invalid list holds exactly the symbols that kept nothing. |
| Hydration.RequestsUpToTargets | twitscraper/TwitScraper.py:64-86 | After n iterations, the sentiment page was asked for the first n symbols, once each and in list order. The same holds for the primary stream endpoint. |
| Hydration.RequestsUpToBounds | twitscraper/TwitScraper.py:64-86 | After n iterations, the fallback endpoint was asked at most n times, and at most 3n GETs were made. |
| Hydration.HydrateFillsEntries | twitscraper/TwitScraper.py:58-97 | After hydrate, every symbol that was in the list has a key in all three maps, pruned or not. Entries of symbols that were never in the list are as before. |
| Hydration.HydrateEntries | twitscraper/TwitScraper.py:58-97 | On a list without duplicates, after hydrate each symbol's entries are its fetched values, or `None` for a failed facet. |
| Hydration.HydrateKeeps | twitscraper/TwitScraper.py:88-97 | On a list without duplicates, a symbol stays in the list exactly when at least one facet stored something. |
| Hydration.HydratePrunes | twitscraper/TwitScraper.py:88-97 | On a list without duplicates, the list after hydrate is the reference `Survivors`: the symbols with some data, in their original order. It is again without duplicates. |
| Hydration.FilterOutIsSurvivors | twitscraper/TwitScraper.py:97 | Filtering out a set that holds exactly the symbols that kept nothing gives `Survivors`. |
| Hydration.HydrateSurvivorsHaveData | twitscraper/TwitScraper.py:88-97 | On a list without duplicates, every symbol left after hydrate has keys in all three maps. It also has a sentiment/volume pair or a twits list. |
| Hydration.HydrateAttemptsEachOnce | twitscraper/TwitScraper.py:64-86 | hydrate asks the sentiment page and the primary stream endpoint exactly once per list entry, in list order. It asks the fallback at most once per entry and makes at most three GETs per entry. |
| Scraper.WithSymbol | twitscraper/TwitScraper.py:53-56 | Adding a symbol leaves it in the list and keeps the old list as a prefix, growing the list by at most one. The list is unchanged exactly when the symbol was already there. A list without duplicates stays so. |
| Scraper.TwitScraper.constructor | twitscraper/TwitScraper.py:19-33 | The new object has the given list and empty maps. With `hydrate` set, it is in the state `Hydrated` gives for that list and the network. |
| Scraper.TwitScraper.GetSentimentVolume | twitscraper/TwitScraper.py:46-51 | Each component is the stored value when the symbol is active and has an entry in that map, and "" otherwise. It never raises. |
| Scraper.TwitScraper.GetTwits | twitscraper/TwitScraper.py:39-44 | get_twits with its guard as intended: the stored entry when the symbol is active and has one, and the empty list otherwise. |
| Scraper.TwitScraper.GetTwitsAsWritten | twitscraper/TwitScraper.py:39-44 | get_twits as written: it raises NameError for the name `symbols` on every call. |
| Scraper.GetTwitsAsWrittenLosesTwits | twitscraper/TwitScraper.py:39-44 | For an active symbol with fetched twits, get_twits as written fails, while the intended get_twits returns those twits. |
| Scraper.TwitScraper.AddSymbol | twitscraper/TwitScraper.py:53-56 | add_symbol with its guard as intended: the new list is `WithSymbol(old list, symbol)`, and no map changes. |
| Scraper.TwitScraper.AddSymbolAsWritten | twitscraper/TwitScraper.py:53-56 | add_symbol as written: it raises TypeError on every call, because `check` gets one argument of two. |
| Scraper.AddSymbolAsWrittenNeverAdds | twitscraper/TwitScraper.py:53-56 | For a symbol that is not active, add_symbol as written fails, while the intended add_symbol appends it. |
| Scraper.TwitScraper.PullSentimentVolume | twitscraper/TwitScraper.py:99-106 | It makes exactly one GET, of the symbol's sentiment page. On success it stores the two captures under the symbol. On failure it returns the exception of `SentimentFetch` and writes nothing. |
| Scraper.TwitScraper.PullTwits | twitscraper/TwitScraper.py:108-118 | It asks the stream endpoints in order and stops at the first 200 reply or raising GET, so it makes `StreamAttempts` GETs. On success it stores `TwitFetch`'s value under the symbol. On failure it returns `TwitFetch`'s exception and writes nothing. |
| Scraper.AttemptsAt | twitscraper/TwitScraper.py:110-113 | A stop of the endpoint loop after n GETs agrees with `StreamAttempts`. |
| Scraper.TwitScraper.VisitSymbol | twitscraper/TwitScraper.py:66-94 | One iteration of hydrate's loop. The new state is `Visit` of the old one, the symbol has all three keys, the flag is the invalidity test, and the GETs are the symbol's requests. |
| Scraper.TwitScraper.VisitAll | twitscraper/TwitScraper.py:62-94 | hydrate's loop: the maps and the invalid list are those of `Run` over the whole list, and the GETs are `HydrateRequests`. |
| Scraper.RemoveStep | twitscraper/TwitScraper.py:97 | Each `list.remove` of the pruning step finds its value still present. This is why the ValueError of `list.remove` cannot occur. |
| Scraper.TwitScraper.Prune | twitscraper/TwitScraper.py:97 | The pruning step: the list becomes `RemoveEach(old list, invalid)`, and no map changes. |
| Scraper.TwitScraper.Hydrate | twitscraper/TwitScraper.py:58-97 | The state becomes `Hydrated(old state, net)`, and the GETs are `HydrateRequests`. Every old symbol has keys in all three maps. The list never gains a symbol. A list without duplicates becomes `Survivors` and stays without duplicates. |

## Left out

- HTTP, the regular expression and JSON decoding are not modelled. Each reply is
  a parameter that gives its status code and what the regular expression or
  `json.loads(...)['messages']` yields. A GET that raises is `ConnectionFailed`.
- The URL strings are not modelled. A request records its endpoint and its
  symbol.
- `print_twits`, `print_sentiment_volume` and the `print` calls inside hydrate
  are left out. They only write to standard output.
- The `symbols()` accessor is the field `symbols` itself. `check_sent`,
  `check_vol` and `check_twit` are the predicates `HasSentiment`, `HasVolume`
  and `HasTwits`.
- The constructor stores the caller's list object itself, and its default `[]`
  is one list shared by every call. The model copies the list as a value, so
  this aliasing is not captured.
- The model covers only the exceptions the core raises: SVScrapeException,
  TwitScrapeException, AttributeError, a JSON error and a failed GET. Other
  failures are outside the model, such as non-dictionary JSON values or a
  `'messages'` value that is not a list.
- hydrate's properties about the exact content of each entry and about the
  survivors hold for symbol lists without duplicates.
  - With duplicates, a later visit overwrites an earlier one.
  - With duplicates, `list.remove` drops the first occurrence, not the occurrence
    that was invalid.
  - The general case states only that every symbol gets keys and that the list
    never gains a symbol.
- Twits.ParseTwit: a caller might expect 0 likes for a message whose 'likes'
  object has no 'total'. The code reads `twit['likes']['total']` whenever
  'likes' is present, so the model raises KeyError('total') there.
- Scraper.TwitScraper.GetTwits: a caller might expect the empty list for a
  symbol whose twits fetch failed. The code, once its guard is fixed, returns
  the stored entry, which is `None` after a failed fetch, and the model does the same.
- `setup.py` and `demo.py` are not part of this model. They only package and
  call the class.

## Findings

| source | as written | input that shows it | evidently intended | confidence | as-written member | corrected member |
|---|---|---|---|---|---|---|
| twitscraper/TwitScraper.py:41 | `check(self, symbols)` evaluates the name `symbols`. No such name exists there: the parameter is `symbol`, and there is no global. | Any call, such as `get_twits("AAPL")` after a hydrate that fetched twits for AAPL: it raises NameError. | `check(self, symbol)`, which returns the stored twits of an active symbol. | not executed | Scraper.TwitScraper.GetTwitsAsWritten (see Scraper.GetTwitsAsWrittenLosesTwits) | Scraper.TwitScraper.GetTwits |
| twitscraper/TwitScraper.py:55 | `check(symbol)` calls the two-parameter `check` with one argument. | Any call, such as `add_symbol("TSLA")` on a scraper without TSLA: it raises TypeError, and TSLA is never appended. | `check(self, symbol)`, which appends the symbol when it is not active. | not executed | Scraper.TwitScraper.AddSymbolAsWritten (see Scraper.AddSymbolAsWrittenNeverAdds) | Scraper.TwitScraper.AddSymbol |
