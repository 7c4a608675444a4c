# Verification model of the funding-arbitrage engine

The engine keeps an order book per symbol and exchange, derives a synthetic funding
snapshot from each book, and on every book update looks for the pair of exchanges on
which a long/short position would earn the most funding after costs. At most one
position per pair passes a risk gate and is opened on paper; the update also marks,
holds or closes the open positions of its symbol.

## How the model is built

| module | what it holds |
|---|---|
| `Clock`, `Text`, `Wrappers` | Go's time arithmetic (saturating `Sub`, wrapping `UnixNano`), ASCII string operations |
| `Symbols`, `Feed`, `Identifier` | the four exchanges' symbol spellings, row parsing, opportunity identifiers |
| `Depth`, `Estimator`, `Risk`, `Execution` | walking a book, estimating a pair, the nine-condition gate, paper and live execution |
| `Market`, `Funding`, `Positions` | the three stores, as classes updated in place, and their arithmetic |
| `Scan` | one engine step as a transition of values; a run is a sequence of steps |
| `Runtime` | the scanner and the update loop as classes, proved to perform exactly the runs of `Scan` |
| `Boards`, `Lifecycle`, `Refresh`, `Runs`, `Accounts`, `Exposure` | invariants of every step and theorems about every run |
| `Outcomes` | what a run stores, opens, keeps and closes, told in its updates and the stored books alone |
| `Profitability`, `Clashes` | conditions on the configuration alone that every opening and every overwriting meets |
| `Staging`, `Stages`, `Openings` | constructed runs: books, their numbers, and the steps that open and leave a position |
| `Sharpness` | the if-and-only-if results that follow |

Go iterates maps in an arbitrary order. The methods pick keys with `:|`; in `Scan` the two
visible effects (which of several equally profitable pairs is picked, in which order positions
are refreshed) are the `Choice` of a step, and the theorems hold for every legal choice.

Assumptions on the environment are predicates of a theorem's hypotheses, never built in:

* `Boards.GoodFeed`: parsed books, each stamped before the wall readings of its step; wall readings never go
  backwards, book times may. The theorems about every run assume no more, unless their row says so.
* `Boards.Every` with `AsksOrdered`, `BidsOrdered`, `Uncrossed` or `FromConnectors`, each only where it is used.
* `Profitability.EngineRun`, for the if-and-only-if results: books come only from enabled exchanges, are of
  the symbols subscribed to, arrive in order from each exchange, and are stamped after any given time. That a
  parser files a message with the spelling subscribed to under such a key is a theorem
  (`Feed.SubscriptionsDeliverBooks`).

A step takes four wall readings: at its start, at the risk check, and at the start and end of execution.
Prices, quantities and rates are real numbers; configured symbols are ASCII.

## What comes out

* In every run the stores hold, for every symbol and exchange, exactly its latest update and what follows from
  it. A step opens a position on the stored books at the carry their prices give, and closes one at their best
  bid and ask; what is credited on closing is the carry at opening (module `Outcomes`).
* In every run the stores agree and at most one position is open per route. Whatever was opened is, exactly
  once, open, closed or lost to an opening that overwrote it, and so is the carry it expected. With a positive
  cap and sorted bids, both legs stay within the trade cap.
* A position is lost only to one of another symbol on the same exchanges that is spelled alike without
  separators, as A/BC and AB/C are: the identifier is keyed without them. Some run loses one if and only if the
  configuration lets two such symbols be opened on the same exchanges (`Sharpness.NothingIsLostIff`). Canonical
  BASE/USDT symbols never clash.
* A configuration can open a position in some run if and only if its lead time to funding fits into the
  funding interval and two enabled exchanges file a configured symbol under the same key; with a negative book
  age it takes a third (`Sharpness.OpensIff`). For every configuration, funding is never credited before its
  time if and only if positions may be held for a whole funding interval or none can be opened
  (`Sharpness.NeverEarlyIff`).
* A position is never closed by the step that opens it if and only if both the lead and the hold are safe, or
  none can be opened (`Sharpness.SurvivesIff`). The lead is safe when it is positive or the book age is not;
  the hold when it is positive or longer than the (then negative) book age.
* With sorted asks and uncrossed books, and fees and buffer not negative, a configuration can open a
  position if and only if the lead fits and some executable route pays
  (`Sharpness.OpensUncrossedIff`). With n the route's rate and m = n - 2 * long fee - buffer, a route
  pays when m is positive and above both relative thresholds and, under a cap T, T * n / 100 reaches
  the carry threshold and T * m / 100 is above the profit threshold; "above" may be "equal" when the
  short exchange charges nothing (`Profitability.Pays`). `Sharpness.NeverEarlyUncrossedIff` follows.
* No route pays under the shipped configs/local.yaml, so on such books it never opens a position; on crossed
  books it can (`Sharpness.LocalConfigOpensOnlyOnSuchBooks`).
* A route's net rate never changes, so the "carry_deteriorated" close is dead code in a run.
* Of the gate's nine conditions only four can fail on an opportunity the scanner offers.
* An ASCII symbol survives the round trip through all four exchanges exactly when it is a canonical
  BASE/USDT pair or an unseparated upper-case name that no feed splits.
* The repository's README calls live trading not implemented, and the connectors refuse every order. The code
  still opens positions in live mode: every approved offer on a free route is opened, live or on paper,
  whichever orders are placed (`Exposure.ApprovedOffersOpen`). The model follows the code.

## Model

| member | source | states |
|---|---|---|
| Clock.SubCompares | internal/app/scanner.go:210 | a saturating time difference compares with any bound but the least duration as the exact difference does |
| Clock.MinTime | internal/strategy/funding.go:197-205 | the earlier of two set times; when one is not set, the other |
| Depth.VwapForQuantity | internal/strategy/funding.go:138-162 | the loop succeeds exactly when the usable depth within the level limit covers a positive target, and then returns the average cost of the first target units |
| Depth.SumQuantity | internal/strategy/funding.go:164-175 | the loop computes the counted depth QuantitySum |
| Depth.MinPositive | internal/strategy/funding.go:177-188 | the least positive value; zero exactly when there is none |
| Depth.QuantitySumIsFillable | internal/strategy/funding.go:72-76 | on positive levels the depth counted for sizing is exactly what a walk can fill |
| Depth.QuantitySumCoversFillable | internal/strategy/funding.go:164-175 | on any levels the counted depth is never less than what a walk can fill |
| Depth.WalkIsOptimal | internal/strategy/funding.go:138-162 | exchange argument: on sorted levels no allocation of the same quantity costs less (asks) or earns more (bids) than the greedy walk |
| Depth.WalkIsAllocation | internal/strategy/funding.go:138-162 | the walk itself is an allocation of the quantity with the walk's cost, so the optimum is attained |
| Depth.WalkFillsInOrder | internal/strategy/funding.go:138-162 | the walk touches a level only when all before it are used up |
| Depth.OneMoreUsable | internal/strategy/funding.go:144-150 | a level appended to a side is walked exactly when it is within the level limit and its price and quantity are positive |
| Depth.OneMoreCounted | internal/strategy/funding.go:164-175 | a level appended to a side is counted as depth exactly when it is within the level limit and its quantity is positive |
| Depth.VwapIsBestAttainable | internal/strategy/funding.go:138-162 | a quote exists exactly when some allocation fills the quantity, and is then the best price of any allocation |
| Depth.SlippageIsMonotone | internal/strategy/funding.go:138-162 | a larger order never gets a better average price; the price lies between the first and the last level touched |
| Estimator.EstimateFunding | internal/strategy/funding.go:52-136 | the method, with its loops, returns the estimate the theorems below are about |
| Estimator.EstimateAccounts | internal/strategy/funding.go:90-135 | every field of an accepted estimate for all prices and fees: carry at the mark, costs of both legs twice, buffer on the larger notional, profit as their difference, identifier and times |
| Estimator.ProfitPctReaches | internal/strategy/funding.go:97-100 | the relative profit reaches any threshold exactly when the profit does on the larger of the two notionals |
| Estimator.ThresholdsDecide | internal/strategy/funding.go:102-110 | once both walks are priced, carry, profit and relative profit decide in this order, with these reasons |
| Estimator.RejectedBeforeSizing | internal/strategy/funding.go:52-64 | the empty side, the missing funding time and the level that is not positive, each rejected exactly then and under its own reason |
| Estimator.RejectedForDepth | internal/strategy/funding.go:71-88 | the three depth rejections, each exactly when the target is not positive or exceeds that side of the usable depth |
| Estimator.SizingIsMaximal | internal/strategy/funding.go:66-88 | on parsed books a quantity can be filled on both sides within the notional cap (when there is one) exactly up to the target, which is positive and is filled by both walks |
| Estimator.DepthNeverRejects | internal/strategy/funding.go:62-88 | for parsed books the invalid-level, zero-quantity and insufficient-depth rejections never happen |
| Estimator.ShortLegWithinCap | internal/strategy/funding.go:71-90 | with the short book's bids sorted the short leg's notional is positive and within the cap |
| Estimator.BreakEvenAtTheMark | internal/strategy/funding.go:90-107 | on any books an accepted pair's carry at the mark exceeds twice the long fee plus the basis buffer at the long entry price |
| Estimator.BreakEven | internal/strategy/funding.go:90-107 | with sorted asks on an uncrossed long book an accepted net rate exceeds twice the long fee plus the basis buffer |
| Execution.Execute | internal/execution/engine.go:54-123 | paper execution succeeds; live fails exactly for a missing connector, long first and by name, and otherwise reports whether both orders were placed, whichever answers first |
| Estimator.AcceptedCarryIsPositive | internal/strategy/funding.go:91-107 | with nonnegative costs and a positive mark, acceptance implies positive net rate, carry and long notional |
| Risk.Check | internal/risk/engine.go:31-73 | approves exactly when not canceled and no reason is found; reports the reasons found |
| Risk.ApprovesIff | internal/risk/engine.go:38-66 | approval in the fields of the opportunity and the limits of the configuration, all nine |
| Risk.ReasonsInWords | internal/risk/engine.go:38-66 | which reason is reported for which condition, and in which order |
| Feed.ParseStringLevels | internal/exchange/public_ws.go:347-360 | keeps, in order, exactly the rows whose first two cells are positive numbers; the first is the price, the second the quantity |
| Feed.ParseFloatLevels | internal/exchange/public_ws.go:362-370 | the same for rows of numbers |
| Feed.ParseBybit | internal/exchange/public_ws.go:226-245 | files a book message under the decoded symbol, the first twenty levels of the bid rows and of the ask rows, each on its side, as of now; ignores any other topic; the book is a feed book |
| Feed.ParseOKX | internal/exchange/public_ws.go:247-269 | the same, from the first data element; ignores other channels and empty data; the book is a feed book |
| Feed.ParseHTX | internal/exchange/public_ws.go:271-293 | the same, with the symbol cut out of the channel; the book is a feed book |
| Feed.ParseKuCoin | internal/exchange/public_ws.go:295-315 | the same, with the symbol after the topic prefix; the book is a feed book |
| Feed.PresentKeeps | internal/exchange/public_ws.go:347-370 | dropping rows keeps exactly the present levels, all positive, best price first if the rows were |
| Feed.ParsedBooksAreFeedBooks | internal/exchange/public_ws.go:226-315 | every parsed book has a known exchange, positive levels, at most twenty a side, and either side is sorted if its rows were |
| Feed.SubscriptionsDeliverBooks | internal/exchange/public_ws.go:146-315 | for every symbol, whatever rows a message with the subscribed spelling holds, each of the four parsers delivers a feed book of its exchange under the key that symbol has there |
| Feed.FiledAsItself | internal/exchange/public_ws.go:379-397 | the four feeds agree on a symbol exactly when every exchange files it under itself |
| Symbols.DecodedSymbols | internal/exchange/public_ws.go:146-184 | what each decoder makes of the spelling subscribed to, for every symbol |
| Symbols.DecodedMessages | internal/exchange/public_ws.go:226-315 | which topics and channels are about a book: exactly those with the prefix, name or part the parser looks for |
| Symbols.DecodedChannel | internal/exchange/public_ws.go:279-288 | an HTX channel is filed under what stands between its first two dots |
| Symbols.CanonicalSpellings | internal/exchange/public_ws.go:146-184 | what is subscribed to for a canonical pair, spelled out for each exchange |
| Symbols.FeedsAgreeIff | internal/exchange/public_ws.go:379-397 | all four feeds file an ASCII symbol under itself if and only if it is canonical BASE/USDT or a plain unseparated name |
| Symbols.CanonicalRoundTrips | internal/exchange/public_ws.go:391-397 | every canonical BASE/USDT symbol round-trips through all four exchanges |
| Identifier.IdentifiersClashIff | internal/strategy/opportunity.go:11-14 | identifiers of dash-free exchange names are equal exactly when all four printed components are |
| Identifier.CanonicalIdentifier | internal/strategy/opportunity.go:11-14 | the identifier of a canonical pair, spelled out: symbol without slash, long, short, nanoseconds since 1970 |
| Identifier.IdentifiersAreInjective | internal/strategy/opportunity.go:11-14 | on canonical symbols and int64 timestamps an identifier determines symbol, both exchanges and time |
| Identifier.CanonicalIsSeparated | internal/strategy/opportunity.go:12 | canonical symbols that are equal without separators are equal |
| Funding.WithDefaults | internal/funding/store.go:33-39 | set values are kept; eight hours and 0.01 stand in for an interval that is not positive and a zero rate |
| Funding.NextWindowIsLeastMultipleAfter | internal/funding/store.go:107-117 | the next window is the least multiple of the interval strictly after now, at most one interval away |
| Funding.MissingTimeIsReplaced | internal/funding/store.go:107-111 | a missing book time counts as the wall reading |
| Funding.SnapshotOfBook | internal/funding/store.go:88-153 | mark, index, rates and names of a book's synthetic snapshot in its own prices and each exchange's multiple of the default rate |
| Funding.NextWindowIsMonotone | internal/funding/store.go:107-117 | later times have no earlier window; two times share one exactly when no multiple separates them |
| Funding.NetRateIsScaleDifference | internal/funding/store.go:137-153 | the symbol's jitter cancels: a route's net rate is the default rate times the difference of scales |
| Funding.MarkIsBelowAsk | internal/funding/store.go:88-92 | a parsed book with asks has a positive mark, not above its best ask exactly when the book is uncrossed |
| Funding.FundingStore.ApplySyntheticFromOrderBook | internal/funding/store.go:82-86 | stores the book's synthetic snapshot under its symbol and exchange; every other symbol and exchange keeps its entry |
| Market.BookStore.Apply | internal/marketdata/orderbook.go:21-29 | stores the book under its symbol and exchange; every other symbol and exchange keeps its entry |
| Market.FreshIff | internal/marketdata/orderbook.go:57-62 | a book is fresh exactly when it has a time no further back than the age |
| Market.CopyOf | internal/marketdata/orderbook.go:35-40 | copying entry by entry in any order yields the same map |
| Positions.PositionBook.Add | internal/state/positions.go:61-65 | stores the position under its identifier; the past gains one opening and, if the identifier was in use, one loss |
| Positions.PositionBook.Update | internal/state/positions.go:67-73 | replaces an open position and does nothing for an identifier that is not open |
| Positions.PositionBook.Close | internal/state/positions.go:75-83 | removes the identifier and puts the position at the front of the bounded history |
| Positions.AddChanges | internal/state/positions.go:61-65 | what adding does to each part of the book |
| Positions.UpdateChanges | internal/state/positions.go:67-73 | what updating does to each part of the book |
| Positions.CloseChanges | internal/state/positions.go:75-83 | what closing does to each part of the book: removed, in front of the history, the oldest dropped at the limit |
| Positions.PositionBook.HasOpen | internal/state/positions.go:85-96 | true exactly when some open position is on the route |
| Positions.PositionBook.OpenPositionsBySymbol | internal/state/positions.go:114-124 | lists exactly the symbol's open positions, each once |
| Positions.PositionBook.Summary | internal/state/positions.go:132-148 | entries are present exactly when there is something to sum, and are the sums over open map and history |
| Positions.SumOpenFrom | internal/state/positions.go:139-142 | the sum over the open map does not depend on the iteration order |
| Positions.SumsOverOpen | internal/state/positions.go:139-142 | what one open position adds to each sum |
| Positions.SumsOverLog | internal/state/positions.go:143-146 | what one closed position adds to each sum |
| Runtime.Scanner.BestOpportunity | internal/app/scanner.go:111-170 | finds an offer exactly when there is one, and none has a greater expected net profit |
| Exposure.SelectionIgnoresOrder | internal/app/scanner.go:119-169 | whether something is found, and its profit, do not depend on the map order |
| Runtime.Scanner.RefreshPositions | internal/app/scanner.go:172-236 | the loop over the listed positions yields the ledger that Scan.RefreshAll describes; Outcomes.StepInWords says what that is |
| Runtime.Scanner.OnOrderBookUpdate | internal/app/scanner.go:59-109 | selection, gate, opening and refresh change the position book exactly as one step of Scan does; Outcomes.OpeningInWords and StepInWords say what that is |
| Runtime.Runtime.Process | internal/app/runtime.go:169-173 | applying, deriving and scanning one update is a legal step of Scan |
| Runtime.Runtime.RunScanner | internal/app/runtime.go:164-176 | processing any sequence of updates is a run of Scan, and on a good feed keeps the ledger invariant |
| Refresh.RefreshAllIs | internal/app/scanner.go:178-235 | the refresh loop equals an order-free description of what stays open, with which marks, and what is closed |
| Refresh.RefreshOrderIsIrrelevant | internal/app/scanner.go:178 | two enumeration orders leave the same open map and close the same positions |
| Lifecycle.RefreshedIsGood | internal/app/scanner.go:190-226 | an open position is skipped, held with its exit profit as mark, or closed realizing price convergence plus the credited carry, never for a deteriorated carry |
| Lifecycle.ReplacedIsAnotherSymbol | internal/app/scanner.go:66-85 | when no open position is on a route but one has the identifier about to be used, it is on the same exchanges, of another symbol that is equal without separators |
| Lifecycle.AdmitKeepsLedger | internal/app/scanner.go:64-85 | opening keeps the ledger invariant, and overwrites at most a position of a symbol spelled alike |
| Boards.OfferFacts | internal/app/scanner.go:127-153 | every offer is for its route, positive in size, carries the route's constant rate and aims at a next funding time at most one interval ahead |
| Boards.AppliedKeepsStores | internal/app/runtime.go:170-171 | applying an update and deriving its funding keeps the two stores in agreement |
| Runs.StoresAgreeInEveryRun | internal/app/runtime.go:169-173 | in every reachable state the stores have the same keys, entries match their keys, funding is what the stored book yields, and a long leg with asks has a positive mark |
| Runs.OnePositionPerRoute | internal/app/scanner.go:66-85 | in every reachable state at most one open position per symbol and exchange pair; what an opening overwrites is of another symbol spelled alike |
| Runs.PositionsAreConserved | internal/state/positions.go:61-83 | in every reachable state the positions opened are exactly the open, the closed and the overwritten ones; history is the newest hundred closed, one by one; realized profit is price convergence plus credited funding |
| Runs.FundingIsNeverCreditedEarly | internal/app/scanner.go:210-224 | open positions have no accrued funding; with a hold of at least the interval nothing is closed before its funding time |
| Runs.CarryNeverDeteriorates | internal/app/scanner.go:197-207 | in no run is a position closed for a deteriorated carry |
| Accounts.CarryIsConserved | internal/app/scanner.go:219-220 | in every run the carry expected at openings equals what open positions expect, what closed ones were credited and what overwritten ones expected |
| Outcomes.StoresHoldTheLatestUpdates | internal/app/runtime.go:169-171 | in every run a book and its funding are stored for exactly the symbols and exchanges that sent an update, and they are those of the latest one |
| Outcomes.RouteRatesInNumbers | internal/funding/store.go:137-153 | the carry of each of the twelve routes as a multiple of the default rate |
| Outcomes.OpeningInWords | internal/app/scanner.go:64-85 | a step adds at most one position: on two recent stored books, at their walks' prices, aimed at the first funding time after the older one, expecting the carry at the long book's mark, past every threshold, with its times and empty profits |
| Outcomes.StepInWords | internal/app/scanner.go:172-236 | a step's whole effect on open and closed positions: which leave, with every field as it is closed, and which are kept, with their marks |
| Outcomes.ClosingInWords | internal/app/scanner.go:190-226 | whatever a step closes leaves at the stored long book's best bid and the short book's best ask, which with the expected carry make its realized profit |
| Outcomes.CreditedIsTheCarryAtOpening | internal/app/scanner.go:82 | every closed position was credited its quantity at the mark of the long book it was opened on, times its route's rate |
| Exposure.GateReducesToFourConditions | internal/risk/engine.go:38-72 | on an offer of a good board the gate approves exactly when the long cap, the two profit thresholds and the time to funding hold |
| Exposure.LegsWithinCap | internal/risk/engine.go:39-45 | with a positive cap and sorted bids every position ever opened has both leg notionals positive and within the cap |
| Exposure.ApprovedOffersOpen | internal/app/scanner.go:64-85 | in every run on books from connectors, a step opens exactly the approved best offer on a free route, live or on paper, whichever orders are placed |
| Exposure.PositionsOpenAtBestPrices | internal/app/scanner.go:139-153 | on sorted books a position is opened on two fresh books at the best price any allocation of its quantity could get on each |
| Profitability.OpenedMeansCanOpen | internal/risk/engine.go:61-63 | a run on delivered books that opens a position has a lead time within the funding interval and an executable pair |
| Profitability.OpenedIsExecutable | internal/app/runtime.go:120-147 | every position opened on delivered books is on two enabled exchanges that file its symbol alike; with a negative book age there is a third |
| Profitability.AgreedCanOpen | internal/app/runtime.go:178-192 | on symbols the feeds agree on, a configuration can open exactly when the lead fits, there is a symbol, and two exchanges are enabled, or three at a negative book age |
| Profitability.OpenedRoutesPay | internal/strategy/funding.go:90-110 | with sorted asks, uncrossed books and nonnegative costs every position ever opened is on a route that pays |
| Clashes.LostMeansClash | internal/state/positions.go:61-65 | behind an overwriting there are two openings on the same exchanges, of different symbols spelled alike |
| Clashes.SeparatedFeedsLoseNothing | internal/state/positions.go:61-65 | on a feed without symbols spelled alike no run overwrites a position |
| Clashes.CanonicalSymbolsNeverClash | internal/strategy/opportunity.go:11-14 | a configuration of canonical symbols has no two that can clash |
| Clashes.TwoPairsClash | internal/strategy/opportunity.go:12 | with A/BC and AB/C configured and OKX and KuCoin enabled they do |
| Profitability.NothingOpensBelowBreakEven | internal/strategy/funding.go:105-107 | if no route's carry exceeds twice the long fee plus the basis buffer, no such run opens anything |
| Profitability.LocalConfigNeverOpens | configs/local.yaml:29-64 | under the shipped configuration no run with sorted asks and uncrossed books ever opens a position |
| Exposure.StepLeavesNothingOverdue | internal/app/scanner.go:178-235 | after a step every priceable position of the symbol is marked to its exit quotes, not due and not held too long; everything closed was; everything else is untouched |
| Exposure.FateOfTheOpenedPosition | internal/app/scanner.go:85-108 | the step that opens a position closes it again exactly when it can be priced and is due or held too long |
| Exposure.OpenedPositionSurvivesItsStep | internal/app/scanner.go:85-108 | with a positive lead or no positive book age, and a hold that is positive or above the book age, the step that opens a position never closes it |
| Staging.OpeningStep | internal/app/scanner.go:59-85 | on two staged books, with nothing on any other, the staged pair is picked, admitted and opened, next to any positions of other symbols, and without an exit stays open |
| Staging.ReverseIsNoBetter | internal/app/scanner.go:119-169 | through a small enough exit the other direction earns no more than the staged pair, whatever the fees |
| Stages.CrossedIsProfitable | internal/strategy/funding.go:90-110 | with a high enough bid on a crossed long book any route with a carry passes every threshold |
| Stages.UncrossedIsProfitable | internal/strategy/funding.go:90-110 | a route that pays passes every threshold on uncrossed books with a low enough short bid |
| Sharpness.OpensIff | internal/app/scanner.go:64-85 | after any time, some run on delivered books opens a position if and only if the lead time fits into the funding interval and some pair of enabled exchanges is executable; then also with both sides of all books sorted |
| Sharpness.NeverEarlyIff | internal/app/scanner.go:210-224 | for every configuration, no run on delivered books credits funding early if and only if the maximum hold is at least the funding interval or no position can be opened |
| Openings.EarlyRun | internal/app/scanner.go:215-226 | with a shorter hold, a run on any fruitful stage in which funding is credited before its time |
| Sharpness.OpensUncrossedIff | internal/strategy/funding.go:90-110 | with sorted asks, uncrossed books and nonnegative costs some run opens a position if and only if the lead fits and some executable route pays; then also with sorted bids |
| Sharpness.NeverEarlyUncrossedIff | internal/app/scanner.go:210-224 | on such feeds no run credits funding early if and only if the maximum hold is at least the funding interval or no executable route pays |
| Sharpness.LocalConfigOpensOnlyOnSuchBooks | configs/local.yaml:1-64 | the shipped configuration opens a position in some run, but in none with sorted asks and uncrossed books |
| Sharpness.NothingIsLostIff | internal/state/positions.go:61-65 | no run on delivered books overwrites an open position if and only if no two symbols spelled alike are executable on the same exchanges |
| Sharpness.SurvivesIff | internal/app/scanner.go:85-108 | no step closes the position it opens if and only if lead and hold are safe or none can be opened |

## Left out

- Floating point: amounts are reals, so rounding, NaN and infinities are not modelled.
- Text.ToUpper, Text.ToLower: map ASCII letters only; Go's versions map all of Unicode, so symbols are ASCII where these matter.
- Clock.Time: instants are unbounded integers; Go's overflow at the ends of its time range is not modelled.
- Funding.Jitter: the FNV hash is an arbitrary function of the symbol, a parameter of the configuration.
- Execution.Execute: of an order only whether it was placed is modelled; order requests, response fields and timeouts are not.
- Estimator.EstimateFunding, Funding.NextFundingWindow: the clock read for a missing book time is the step's first wall reading, not a separate one per call; parsed books always carry a time.
- Runtime.Runtime.RunScanner: the endless select loop is modelled by the finite sequences of updates it processes before its context is done.
- Positions.PositionBook.Summary: the entries' names are constructors of a datatype instead of strings.
- Risk.Check: conditional appends are written with a helper function.
- Mutexes and the API readers' copies (SnapshotAll, OpenPositions, History): the scanner is the only writer, so steps are atomic.
- WebSocket dialing, gzip, JSON decoding and number parsing: parsing starts from decoded messages whose cells are parsed or failed numbers.
- Redis storage, the opportunity log, logging and the admin API: output only, with no effect on a step.
- Loading the configuration file: the configuration is a parameter; only the shipped local values are written out.
- Fees in realized profit: the source never deducts them on close, so no theorem claims realized profit is net of fees.
