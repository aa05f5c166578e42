# Price comparison extension: the price-discovery engine

This project models the background service worker of a browser extension, `background.js`. It proves properties of that model in Dafny.

When the popup asks to compare prices for a product query, the worker works as follows.

1. It builds the list of stores to search, in the fixed order Kroger, Walmart, Target. It leaves out the store whose domain the current tab's host contains.
2. It opens each store's search page in a background tab and runs a fallback chain in it, `openAndScrape`:
   - it polls the page for a price with `scrapeFirstPrice`;
   - it collects the listed products with `scrapeCandidatesFromSearch` and ranks them against the query with `pickBestCandidate`, then uses the winner's price or follows its link;
   - it follows the first product link found by `findFirstProductLink`;
   - otherwise it gives up with "Price not found".
   The tab is always closed afterwards.
3. It answers with an object mapping each store searched to its price, "Price not found", or "Error" when that store's chain threw.

The modules follow the code's structure:

| module | file | what it holds |
|---|---|---|
| `Wrappers` | wrappers.dfy | `Option` |
| `Chars` | chars.dfy | JavaScript's `\s`, `trim`, ASCII `toLowerCase`, `includes`, and `replace(/\s+/g, '')` |
| `PriceParser` | price_parser.dfy | The price regex of `scrapeFirstPrice` with leftmost-match semantics, and its properties |
| `TextNormalizer` | text_normalizer.dfy | `tokenize`, `extractNumericTokens` (including the unit regex with backtracking) and `guessBrandToken` |
| `CandidateMatcher` | candidate_matcher.dfy | `jaccard`, the candidate score and `pickBestCandidate` |
| `PageModel` | page_model.dfy | An abstract page (elements, selector results, parents, attributes, URL resolution) and the three injected scripts |
| `StrategyChain` | strategy_chain.dfy | `openAndScrape` as a method over a browser oracle, the function that specifies it, and what the chain guarantees |
| `Orchestrator` | orchestrator.dfy | The store catalogue, the target list, the results object and the message listener |

Functions that are loops in the source are written twice:
- as a method with a `while` loop and its invariants, proved equal to a specification function;
- as that function, about which lemmas prove what the source promises.

The browser is an oracle, `StrategyChain.Service`. For each position `k` in a tab's log of browser calls it gives three things:
- whether the call at `k` succeeds;
- the page that call sees;
- how many polling attempts a loop starting at `k` makes before its deadline passes.

Where the code and its stated intent differ, the model follows the code:
- **The digit-only fallback of line 228 (and 253) is dead.** The first alternative of the price regex matches any single digit, so text with a digit always matches (`PriceParser.DigitFallbackUnreachable`).
- **The first alternative shadows the second.** An amount of four or more digits without a thousands separator is cut after three digits: `$1234.56` becomes `$123` (`PriceParser.UngroupedAmountTruncated`).
- **`extractNumericTokens` keeps a bare number** whose digits also occur in a unit token. For example, `12` is listed after `12oz`, because only equal strings are suppressed (`TextNormalizer.NumericTokensShape`).

## Model

| member | source | states |
|---|---|---|
| Chars.Lower | background.js:300 | The lower-cased text has the same length, and each character is the ASCII lower-case form of the original. |
| Chars.Trim | background.js:223 | The trimmed text neither starts nor ends with whitespace. |
| Chars.TrimStart | background.js:223 | Leading whitespace is removed: the result is a suffix, everything dropped is whitespace, and the result does not start with whitespace. |
| Chars.TrimEnd | background.js:223 | Trailing whitespace is removed: the result is a prefix, everything dropped is whitespace, and the result does not end with whitespace. |
| Chars.RemoveSpaces | background.js:225 | `replace(/\s+/g, '')` leaves no whitespace and never lengthens the text. |
| Chars.RemoveSpacesAppend | background.js:225 | Deleting whitespace distributes over concatenation. |
| Chars.RemoveSpacesNoSpace | background.js:225 | Text without whitespace is left unchanged. |
| Chars.RemoveSpacesKeepsDigits | background.js:225 | The condensed text has a digit exactly when the raw text has one. |
| Chars.RemoveSpacesAllSpace | background.js:224-225 | All-whitespace text condenses to the empty string. |
| Chars.TrimThenRemoveSpaces | background.js:223-225 | Trimming before condensing changes nothing, and the trimmed text is empty exactly when nothing is left after condensing. |
| PriceParser.LeadingDigits | background.js:226 | Greedy `\d{1,max}` takes at most `max` digits and stops only at a non-digit or the end. |
| PriceParser.GroupsLen | background.js:226 | Greedy `(?:,\d{3})*` stops where no further thousands group follows. |
| PriceParser.DecimalLen | background.js:226 | `(?:\.\d{1,2})?` takes at most three characters, starting with a point. |
| PriceParser.AmountLen | background.js:226 | The grouped amount matches at `i` exactly when there is a digit at `i`. |
| PriceParser.LeftmostStart | background.js:226 | The position `match` reports has a match. |
| PriceParser.FirstDigit | background.js:226 | It is the index of the first digit; no earlier character is a digit. |
| PriceParser.SecondAlternativeShadowed | background.js:226 | The second alternative matches only where the first does, so the alternation always equals the first alternative. |
| PriceParser.NoMatchBeforeDigit | background.js:226 | Nothing matches at a non-digit that is not a `$` right before a digit. |
| PriceParser.NoDigitNoMatch | background.js:226 | Text without digits has no match. |
| PriceParser.MatchAtDigit | background.js:226 | At a digit the first alternative matches the grouped amount, without a `$`. |
| PriceParser.MatchAtDollar | background.js:226 | At a `$` before a digit the match includes the `$`. |
| PriceParser.MatchPriceIsPriceAtFirstDigit | background.js:226-228 | The leftmost-match parser equals the reference definition: `$` followed by the amount at the first digit, or nothing when there is no digit. |
| PriceParser.DigitFallbackUnreachable | background.js:228 | Condensed text with a digit always has a regex match, so the fallback is never reached. |
| PriceParser.ParsePrice | background.js:223-228 | No price exactly when the raw text has no digit. Otherwise the price is canonical (`$`, then a grouped amount) and equals the reference definition on the condensed text. |
| PriceParser.AmountIsCanonical | background.js:227 | `$` followed by the amount matched at a digit is a canonical price. |
| PriceParser.AmountChars | background.js:226 | The amount pattern consumes only digits, commas and points. |
| PriceParser.CanonicalPriceFixed | background.js:223-227 | A canonical price parses back to itself. |
| PriceParser.ParsePriceIdempotent | background.js:223-227 | Parsing a parsed price again gives the same price. |
| PriceParser.PriceRoundTrip | background.js:223-227 | A well-formed grouped amount, with or without `$`, between digit-free text, is read back verbatim with one `$` in front. |
| PriceParser.FormatAmountLen | background.js:226 | A formatted amount followed by digit-free text is matched exactly, no more and no less. |
| PriceParser.UngroupedAmountTruncated | background.js:226-227 | `$` followed by four or more digits yields `$` and the first three digits only. |
| TextNormalizer.Clean | background.js:325-326 | The cleaned text has the same length and holds only `a-z`, `0-9` and whitespace. |
| TextNormalizer.Tokenize | background.js:323-329 | Every token is non-empty and made of `a-z` and `0-9` only, so it has no whitespace. |
| TextNormalizer.TokenizeJoin | background.js:323-329 | Tokens written out with single spaces tokenize back to the same list. |
| TextNormalizer.TokenizeIdempotent | background.js:323-329 | Tokenizing the space-joined tokens of a text gives the same tokens. |
| TextNormalizer.UnitEnd | background.js:302 | A unit word that matches ends on a letter at a word boundary. |
| TextNormalizer.UnitMatchAt | background.js:302 | A unit-pattern match that starts at `p` ends after `p`, on a letter. |
| TextNormalizer.UnitMatchAtLongest | background.js:302 | With backtracking, the unit pattern matches at `p` exactly when a unit follows the whole run of numeric characters there. |
| TextNormalizer.InsideNumberNoUnit | background.js:302 | No unit can start at a numeric character. |
| TextNormalizer.NextUnitMatch | background.js:302-304 | `exec` from `lastIndex` finds a match at or after it, and that match is a unit-pattern match. |
| TextNormalizer.BareNumberAtLongest | background.js:306 | `\b\d{1,3}\b` matches at `p` exactly when the greedy run of at most three digits starts and ends a word. |
| TextNormalizer.NextBareNumber | background.js:306 | The next bare-number match starts at or after the search position. |
| TextNormalizer.UnitTokensStep | background.js:304 | Each `exec` match, with its whitespace deleted, is the next unit token. |
| TextNormalizer.CollectUnitTokens | background.js:303-304 | The `while (exec)` loop pushes exactly the unit tokens of the text, in order. |
| TextNormalizer.PushAbsent | background.js:307 | The `for` loop pushes exactly the numbers not yet listed. |
| TextNormalizer.ExtractNumericTokens | background.js:299-309 | The method returns the numeric tokens of the text. |
| TextNormalizer.UnitTokenIsNotBareNumber | background.js:302-307 | A unit token ends with a letter, so it is never a bare number. |
| TextNormalizer.UnitTokensShape | background.js:302-304 | Every unit token starts with a digit, ends with a unit letter and has no whitespace. |
| TextNormalizer.BareNumbersShape | background.js:306 | Every bare number has one to three digits. |
| TextNormalizer.AppendAbsentSpec | background.js:307 | The starting list is kept as a prefix. Each number appended was absent before, and none is appended twice. Every number ends up listed. |
| TextNormalizer.NumericTokensShape | background.js:299-309 | The unit tokens come first, in text order, with duplicates kept. Bare numbers follow, each once and never one already listed, and every bare number of the text is listed. |
| TextNormalizer.GuessBrandToken | background.js:312-321 | A guessed brand is one of the tokens and qualifies: not a stop word, not starting with a digit, at least three characters. |
| TextNormalizer.GuessBrandTokenIsFirst | background.js:312-321 | No guess exactly when no token qualifies; otherwise the first token that qualifies. |
| TextNormalizer.GuessBrandTokenExample | background.js:313-318 | An illustration on one input: for `the 12oz kroger milk` the stop word and the digit-led token are skipped and `kroger` is the guess. |
| CandidateMatcher.JaccardRange | background.js:331-337 | The similarity lies between 0 and 1. |
| CandidateMatcher.JaccardSymmetric | background.js:331-337 | The similarity is symmetric. |
| CandidateMatcher.JaccardOne | background.js:331-337 | The similarity is 1 exactly when both lists have the same non-empty token set. |
| CandidateMatcher.JaccardZero | background.js:331-337 | The similarity is 0 exactly when no token is shared, including when both lists are empty (the union-size guard). |
| CandidateMatcher.SharedNumbers | background.js:287 | `filter` keeps each query number the title has, with repeats, and drops the rest. |
| CandidateMatcher.NumericBoostCap | background.js:288 | The numeric boost is 0.12 per shared number up to three, and 0.4 from four on. |
| CandidateMatcher.ScoreRange | background.js:284-290 | The numeric boost lies in [0, 0.4], and the whole score in [0, 1.55]. |
| CandidateMatcher.NoSharedTokenScore | background.js:284-290 | A title that shares no token with the query scores only its numeric boost. |
| CandidateMatcher.Leader | background.js:280-292 | The `score > bestScore` scan from 0 keeps the first position of the highest positive score, or none when no score is positive. |
| CandidateMatcher.LeaderStep | background.js:291 | Each loop step replaces the leader only on a strictly greater score. |
| CandidateMatcher.BestIndexSpec | background.js:291-295 | No choice exactly when every score is below 0.22. Otherwise the choice reaches 0.22, nothing scores higher, and nothing earlier scores the same. |
| CandidateMatcher.BestCandidate | background.js:276-296 | The chosen candidate is one of the candidates. |
| CandidateMatcher.BestCandidateSpec | background.js:276-296 | The chosen candidate's score reaches the threshold and no candidate scores higher. There is no choice exactly when every candidate is below the threshold. |
| CandidateMatcher.NoCandidates | background.js:294-295 | An empty list yields no choice. |
| CandidateMatcher.ScoreCandidate | background.js:283-290 | The loop body computes the candidate's score: Jaccard plus the numeric boost plus the brand boost. |
| CandidateMatcher.ScanCandidates | background.js:280-292 | The loop ends holding the leader of the scores and its score. |
| CandidateMatcher.PickBestCandidate | background.js:276-296 | The method returns the specified best candidate. |
| PageModel.FirstSome | background.js:220-230 | Nothing is found exactly when every try yields nothing. |
| PageModel.FirstSomeAt | background.js:220-230 | The first try that yields something decides the result. |
| PageModel.FirstSomeSpec | background.js:220-230 | A result comes from a try that yields it, and every earlier try yields nothing. |
| PageModel.PriceIn | background.js:221-228 | A selector's price is canonical. |
| PageModel.PriceInSpec | background.js:221-228 | A selector yields no price exactly when it matches nothing or the matched element's text has no digit. |
| PageModel.FirstPriceSpec | background.js:219-231 | A price is found exactly when some selector yields one. It is canonical and comes from the first such selector. |
| PageModel.ParseTrimmed | background.js:223-224 | Trimming before parsing changes nothing, and blank text has no price. |
| PageModel.TrySelector | background.js:221-228 | One loop round yields the selector's price. |
| PageModel.PriceBySelectors | background.js:220-230 | The selector loop returns the first price in the given scope. |
| PageModel.ScrapeFirstPrice | background.js:219-231 | `scrapeFirstPrice` returns the first selector's price on the document, which is canonical. |
| PageModel.LinkOf | background.js:264 | A link exists exactly when `href` is present and not empty. It is the resolved URL, or the raw `href` when resolution fails. |
| PageModel.Ancestors | background.js:243-259 | The climb visits the node and then its parents: at most `n` nodes, stopping early only at the root. |
| PageModel.PricesUpAt | background.js:244-258 | The price tried at each step of the climb is the first price inside that node. |
| PageModel.ClimbFirstAncestor | background.js:242-260 | The climb yields the price of the first node on the way up that has one. |
| PageModel.ClimbSpec | background.js:242-260 | The climb finds nothing exactly when none of the (at most six) nodes on the way up holds a price; what it finds is canonical. |
| PageModel.ClimbForPrice | background.js:242-260 | The nested loops return the price of the specified climb. |
| PageModel.CandidatesOf | background.js:237-270 | Title links give at most one candidate each. |
| PageModel.CandidatesOfStep | background.js:237-270 | Each title link adds its candidate, or nothing when its text is blank. |
| PageModel.SearchCandidatesWellFormed | background.js:234-273 | Every candidate has a non-empty trimmed title and a canonical price or none. |
| PageModel.EmptySelectorAddsNothing | background.js:236-237 | A title selector that matches nothing contributes no candidate. |
| PageModel.CollectCandidates | background.js:237-270 | The `forEach` loop pushes the specified candidates in order. |
| PageModel.ScrapeCandidatesFromSearch | background.js:234-273 | The method returns the candidates of every title selector in order, each well formed. |
| PageModel.LinksIn | background.js:341-347 | Each selector yields the resolved `href` of its first match. |
| PageModel.FirstLinkSpec | background.js:340-350 | No link exactly when no selector's first match has a non-empty `href`; otherwise the link of the first selector whose match has one. |
| PageModel.FindFirstProductLink | background.js:340-350 | The loop returns the first link. |
| StrategyChain.ChosenOn | background.js:128-136 | The chosen candidate is one of the page's collected candidates, and is well formed. |
| StrategyChain.ObservedSound | background.js:115-175 | The script results on real pages behave as the chain needs: prices are canonical, and the chosen candidate's price is canonical. |
| StrategyChain.PollSound | background.js:114-123 | A polling loop makes at most its attempt budget of calls. It throws exactly when its last call failed, returns only a canonical price, and passes on only when every attempt found nothing. |
| StrategyChain.LoadedSound | background.js:140-151 | Waiting for the load and then polling keeps the same guarantees. |
| StrategyChain.VisitSound | background.js:139-151 | Navigating, waiting and polling keep the same guarantees. |
| StrategyChain.CandidateStageSound | background.js:127-155 | The candidate stage keeps the same guarantees. |
| StrategyChain.LinkStageSound | background.js:158-180 | The product-link stage keeps the same guarantees. |
| StrategyChain.LaterStagesSound | background.js:126-180 | The candidate stage followed by the link stage keeps the same guarantees. |
| StrategyChain.BodySound | background.js:111-181 | The whole `try` block keeps the same guarantees. |
| StrategyChain.BodyShape | background.js:111-126 | After a successful load, the `try` block is the wait, the first polling loop and the later stages. |
| StrategyChain.ClosedRunSound | background.js:109-185 | Opening the tab, running a sound `try` block and closing the tab gives a run with every promise of `ChainSound`. |
| StrategyChain.RunSound | background.js:108-186 | Over sound script results, the whole chain keeps every promise of `ChainSound`. |
| StrategyChain.NotFoundIsNoPrice | background.js:181 | "Price not found" is not a canonical price. |
| StrategyChain.TabClosedOnce | background.js:109-185 | The log starts with the tab's creation. An opened tab is closed exactly once, by the last call. If opening fails, nothing else happens and the call throws. |
| StrategyChain.ResultIsPriceOrNotFound | background.js:121-181 | `openAndScrape` resolves to a canonical price or "Price not found". |
| StrategyChain.ThrowsIffCallFailed | background.js:108-186 | It throws exactly when some browser call other than the final removal failed; a failed removal is swallowed. |
| StrategyChain.NotFoundAfterEveryScrapeFailed | background.js:118-181 | "Price not found" comes only after every stage came up empty: every `scrapeFirstPrice` attempt on the tab's pages (direct poll, and the polls after following a candidate's or a product link) found nothing, and every candidate chosen on a page carried no price. |
| StrategyChain.FirstPollWins | background.js:109-124 | A price found at the first attempt is returned at once; the log is create, wait, scrape, remove. |
| StrategyChain.CandidatePriceNeedsNoNavigation | background.js:137 | A chosen candidate that carries a price is returned without navigating. |
| StrategyChain.ScrapeAt | background.js:115-120 | One `scrapeFirstPrice` injection yields the page's first price. |
| StrategyChain.FindLinkAt | background.js:159-164 | One `findFirstProductLink` injection yields the page's first link. |
| StrategyChain.PollLoop | background.js:114-123 | The `while` loop makes the calls of the specified polling loop and ends the same way. |
| StrategyChain.LoadSteps | background.js:111-123 | Waiting and then polling as specified. |
| StrategyChain.VisitSteps | background.js:139-151 | `tabs.update`, waiting, and polling as specified. |
| StrategyChain.ChooseCandidate | background.js:128-136 | Collecting candidates and, when there are any, picking the best one yields the specified choice. |
| StrategyChain.CandidateSteps | background.js:127-155 | The candidate stage runs as specified. |
| StrategyChain.LinkSteps | background.js:158-180 | The product-link stage runs as specified. |
| StrategyChain.LaterSteps | background.js:126-180 | The two later stages run as specified. |
| StrategyChain.BodySteps | background.js:110-181 | The `try` block runs as specified. |
| StrategyChain.OpenAndScrape | background.js:108-186 | `openAndScrape` gives the outcome and call log of the specified chain. |
| Orchestrator.TargetOf | background.js:14-16 | A store's target carries its name, and its URL is the search page followed by the encoded query. |
| Orchestrator.DispatchSound | background.js:10-85 | Every target built is that of a store whose domain the host does not contain. |
| Orchestrator.DispatchComplete | background.js:10-85 | Every store whose domain the host does not contain gets a target. |
| Orchestrator.DispatchInOrder | background.js:10-85 | The targets keep the stores' order and are at most as many. |
| Orchestrator.DispatchDistinct | background.js:10-85 | Stores with distinct names give targets with distinct names. |
| Orchestrator.TargetsChosen | background.js:13-85 | At most three targets, in the order Kroger, Walmart, Target, each once. Each store is present exactly when the host does not contain its domain. |
| Orchestrator.TargetsUnfold | background.js:13-85 | The list is the three conditional pushes in order. |
| Orchestrator.OnWalmart | background.js:38-62 | A shopper on www.walmart.com gets Kroger and Target compared, in that order. |
| Orchestrator.NoHostSearchesAll | background.js:7-85 | With no current host, every store is searched. |
| Orchestrator.BuildTargets | background.js:10-85 | The pushes build the specified target list. |
| Orchestrator.ResultText | background.js:89-94 | An entry is "Error" exactly when the chain threw, or when it returned the text "Error". |
| Orchestrator.Entries | background.js:87-96 | One entry per target. |
| Orchestrator.EntriesAt | background.js:87-96 | The entry at each position is that target's name and its own outcome's text. |
| Orchestrator.FromEntriesKeys | background.js:98 | The object's keys are exactly the keys of the pairs. |
| Orchestrator.FromEntriesValue | background.js:98 | With distinct keys, each pair can be read back from the object. |
| Orchestrator.ObjectOfEntries | background.js:87-98 | For targets with distinct names, the object has exactly their names as keys, each mapped to the text of its own outcome. |
| Orchestrator.CollectResults | background.js:87-96 | The loop over the targets produces the specified entries. |
| Orchestrator.ComparePrices | background.js:10-98 | The handler body produces the specified results object. |
| Orchestrator.ErrorIsNoPrice | background.js:93 | "Error" is neither a canonical price nor "Price not found". |
| Orchestrator.StoreEntry | background.js:89-94 | A store's entry is "Error" exactly when its `openAndScrape` threw. Otherwise it is a canonical price or "Price not found". |
| Orchestrator.ResultsPerStore | background.js:87-99 | The object has one key per store searched. The value under each is that store's own result, "Error" exactly when its chain threw. |
| Orchestrator.FailureStaysWithItsStore | background.js:89-94 | A store's entry depends only on its own tab: a failure elsewhere does not change it. |
| Orchestrator.HostOf | background.js:7 | The host the message carries, or the empty string when it carries none; an empty host stays empty. |
| Orchestrator.HandleMessage | background.js:3-103 | The listener keeps the channel open exactly for a `comparePrices` message with a non-empty query, and then answers with the results object; any other message gets no answer. |

## Left out
- content.js (the popup's interface and message glue) is not part of this model.
- `waitForComplete` (background.js:188-216) is event-listener and timer code. A load's success or failure is an oracle answer.
- `chrome.tabs.create/update/remove` and `chrome.scripting.executeScript` are abstract calls answered by the `Service` oracle.
- `Date.now()` deadlines and the 350 ms sleeps are replaced by the number of polling attempts that fit before the deadline, given by the oracle.
- CSS selector matching, the DOM and `new URL(href, location.href)` are foreign code. The page model takes their results as given.
- `encodeURIComponent` is an uninterpreted parameter.
- IEEE-754 doubles: scores are exact reals, so the model does not capture rounding in the last place.
- Strings are sequences of characters. UTF-16 surrogate pairs and Unicode case mapping are not modelled.
- Chars.Lower: only ASCII letters are lower-cased; the source's `toLowerCase` also maps non-ASCII letters.
- Orchestrator.CollectResults: runs the stores one after another. The source starts them together with `Promise.all`, but the stores share no state, so the results object is the same.
- Orchestrator.HandleMessage: a query that is present but not a string is not modelled; the query is a string or absent.
- StrategyChain.RunSound: the chain's guarantees are stated over the views the scripts return. They reach the real pages through `StrategyChain.ObservedSound` and the per-page lemmas.
- StrategyChain.FirstPollWins: states the early exit for any views. On real pages the first attempt's result is `FirstPrice` of the page at that position.
