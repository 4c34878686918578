# us_intraday_lab in Dafny

This project models the parts of us_intraday_lab that decide something: the minute backtest
engine with its portfolio and runtime, the strategy language with its static checker and compiler,
the append-only paper ledger with its recovery, the null-benchmark masks and scorer, the variant
generator and the 15-minute aggregator.  It proves what their guards and tests only check.

`dafny verify dfyconfig.toml` verifies everything.

## Reading order

- **Engine.** `Account`, `AccountLaws`, `AccountCalls`, `CashCover` and `Portfolio` are the accounting; `Phases` and
  `Runtime` the states of a symbol; `Orders` the bars, costs and fills.  `Engine` says what one step
  of the engine does to everything it owns.  `Coupling`, `Pacing`, `Books` and `Slots` are the
  invariant, one symbol at a time; `SubmitLaws`, `FillLaws`, `StepLaws`, `SignalLaws`, `MinuteLaws` and
  `SessionLaws` show that every step keeps it.  `Decisions` says what a feature row decides, by orders, positions and
  trades alone; `Rows` and `Sweeps` what the rows and the risk exits of a minute do together.  `Scenario` is the
  mutable run with its loops, up to `RunScenario`; `Stages` has the facts its loops carry from minute to minute, and
  `Dates` puts the sessions in order.
- **Strategy language.** `Conditions`, `Complexity`, `Contradictions`, `Validator`.
- **Paper ledger.** `Evidence`, `Replay`, `Resumption` and `Recovering`, then `Tables`, `TableLaws`, `Writes`, `PaperStore`.
- **Null tests.** `Counting`, `NullPlan`, `NullScoring`, `NullTests`.
- **Variants.** `Division`, `ParameterSpace`, `Distances`, `Variants`.
- **Market data.** `Bars`, `MarketData`, `Resample`.

## How the program is read

- Money and prices are `real`; the snapping of small residuals with `MONEY_EPSILON` is kept.  Times are
  whole minutes (microseconds in the null tests), symbols are the three production symbols, and string
  identities are integers of which only the order matters.
- A digest is an injective constructor.  `sorted(pending)` sorts by such a digest, so working orders are
  processed in an arbitrary order; so are dictionaries.  Random shuffles, offsets and samples are arbitrary
  within their ranges, and a shuffled sample is a sample in another order.
- What the two rules say of a feature row is an arbitrary pair of booleans in the engine.  Official minutes are
  a contiguous range that every traded symbol covers with a valid bar, and feature rows exist only at the ends of
  official 15-minute bars (`src/us_intraday_lab/strategy/features.py:194-197`).  The close of a signal bar is only
  known to be finite: any real number.
- An exception is a `Failure`.  In the portfolio, the runtime, the store and the pipeline the state after it is
  stated; a run that raises is abandoned.
- A store transaction is one step that commits or rolls back; whether the storage faults is a parameter.  The
  ledger reads of a bar only its provider id and time; the pipeline reads all of it but only of one session, so
  each has a view of `append_market_event` of its own (`Tables.AppendMarket`, `MarketData.EventStore.Append`).

## Findings

- The engine checks the close of a signal bar only for being finite.  An entry at a close of zero divides by
  zero, and an exit by a limit order at a close that is not positive makes an invalid intent; either ends the run.
  `SignalLaws.OnSignalSteady` says exactly when one row raises, `SignalLaws.ZeroCloseRaises` gives a run, and
  `Scenarios.RunScenario` shows that nothing else but a session too short for its closeout can fail.
- A checkpoint written for an order event that is already stored may hash a state that recovery cannot
  reproduce.  `TableLaws.HarmlessIff` says exactly when, `PaperStores.EveryReachableStore` that the last submission
  decides, and `PaperStores.RepeatedUpdateBreaksRecovery` gives three submissions after which recovery is refused.
- Evidence that arrives after a checkpoint but sorts before it can make recovery refuse a sound ledger.
  `Resumption.ResumingEqualsReplayingIff` says exactly when, and `PaperStores.LateBarBreaksRecovery` that one bar is
  enough; the pipeline takes bars out of order inside its reorder window.
- A bar that the store refuses, because its provider id is stored with other content, stays in the memory of the
  pipeline: sent again it passes for a known bar, though no rebuild would find it (`MarketData.MarketDataPipeline.Ingest`).

## Model

| member | source | states |
|---|---|---|
| Scenarios.RunScenario | src/us_intraday_lab/backtest/engine.py:554-833 | For every rule outcome, bar sequence and order of working orders, a run either ends reconciled (flat, cash equal to the sum of `net_pnl` within one epsilon per fill, its trades exactly the buy-sell pairs of its fills, each trade with the prices and the impact of its two fills, inside its hours, spaced by the cooldown and within the entry cap), or fails for a session too short for its closeout or at a close that is not positive; without such a close it succeeds exactly when every session is long enough. A run without a single intent had no row that asked to buy a share its cash affords |
| Scenarios.ScenarioRun.Session | src/us_intraday_lab/backtest/engine.py:604-823 | A session started flat ends flat with only finished sessions on record; it fails when it is too short for its closeout, and else only at a mispriced row: no RuntimeError, transition error or portfolio error is ever the reason; while there is no intent on record, no row of it invited an entry |
| Scenarios.ScenarioRun.Minutes | src/us_intraday_lab/backtest/engine.py:623-796 | After the last minute nothing is working and nothing held; the cash covers the reservations whenever rows arrive, so only a mispriced row can fail |
| Scenarios.ScenarioRun.Minute | src/us_intraday_lab/backtest/engine.py:623-796 | One minute in the program's order keeps the coupling, the books, the pace and the id times; it fails only at a mispriced row; no order is left working that the minute could have filled; before the closeout signal no position is left at a limit without a working sell, and no intent on record means that no row invited an entry |
| Scenarios.ScenarioRun.Signals | src/us_intraday_lab/backtest/engine.py:627-709 | The rows of a minute fail only at a mispriced one; else every row in turn does what `RowEffect` says from the state that the previous one left; they keep the cover and add only ids of this minute |
| Scenarios.ScenarioRun.Signal | src/us_intraday_lab/backtest/engine.py:631-709 | One row of a traded symbol raises exactly when it enters at a close of zero or exits by a limit order at a close that is not positive. Else: a free symbol (no order, no position, all its cooldowns over) with a free entry slot, told to enter at a positive price at which one share fits, gets exactly one new order, a buy of the largest quantity within the cash share and the risk budget, its full cost reserved; a held symbol with no order, told to exit at a positive price, gets exactly one, a sell of the whole position; in every other case no order, intent or account entry changes |
| Scenarios.ScenarioRun.OnSignal | src/us_intraday_lab/backtest/engine.py:646-709 | The mutable state after a row is that of the signal step, of which `SignalLaws.OnSignalSteady` says what it does to the working orders |
| Scenarios.ScenarioRun.EntryQuantity | src/us_intraday_lab/backtest/engine.py:943-960 | Sizing from the live portfolio, raising when available cash does and at a price of zero |
| Scenarios.ScenarioRun.SlotsUsed | src/us_intraday_lab/backtest/engine.py:836-845 | The loop over the session's symbols counts filled entries plus working buys |
| Scenarios.ScenarioRun.Submit | src/us_intraday_lab/backtest/engine.py:962-1073 | Signal, transition, reservation and bookkeeping of a submission, with both early exits |
| Scenarios.ScenarioRun.ProcessOrders | src/us_intraday_lab/backtest/engine.py:1075-1120 | In any order of the working orders none raises, and the orders left working are exactly those not yet eligible or not touched: no price between low and high of the minute was as good as their limit |
| Scenarios.ScenarioRun.ProcessOrder | src/us_intraday_lab/backtest/engine.py:1090-1120 | One order meeting its bar keeps the invariant; untouched it stays, touched it fills at its limit or at the open moved by the impact, or is dropped as too dear |
| Scenarios.ScenarioRun.ApplyFill | src/us_intraday_lab/backtest/engine.py:1122-1247 | Portfolio, runtime, open trades and trades after a fill, or the cancellation when the portfolio refuses it |
| Scenarios.ScenarioRun.Drop | src/us_intraday_lab/backtest/engine.py:1174-1188 | A refused fill releases the reservation and tells the runtime |
| Scenarios.ScenarioRun.MarkPositions | src/us_intraday_lab/backtest/engine.py:725-729 | Every position ends the minute at its close; nothing else changes |
| Scenarios.ScenarioRun.CancelWorking | src/us_intraday_lab/backtest/engine.py:1303-1336 | Exactly the working orders of the chosen side are cancelled, the others untouched, and nothing raises |
| Scenarios.ScenarioRun.RiskExits | src/us_intraday_lab/backtest/engine.py:1249-1301 | Afterwards every held symbol is being sold or has reached none of stop, target and holding time; the new orders are exactly one sell of the whole position for each resting one that reached a limit, under the reason reached first |
| Scenarios.ScenarioRun.OnRisk | src/us_intraday_lab/backtest/engine.py:1264-1301 | The check of one position and its sell: the state of the risk step, of which `MinuteLaws.OnRiskSteady` says what it does to the orders |
| Scenarios.ScenarioRun.Closeout | src/us_intraday_lab/backtest/engine.py:740-782 | Exactly one forced market sell of the whole position is left working for each position held, and no other order |
| Scenarios.ScenarioRun.ForceSells | src/us_intraday_lab/backtest/engine.py:763-782 | Every position gets its forced sell, whatever the order of the positions |
| Scenarios.ScenarioRun.Execute | src/us_intraday_lab/backtest/engine.py:711-723 | No order is left working that the minute could have filled; at the closeout minute every working order fills and nothing is left |
| Scenarios.ScenarioRun.Finish | src/us_intraday_lab/backtest/engine.py:798-823 | The three checks after the last minute find nothing, and every runtime state of the session closes |
| Scenarios.ScenarioRun.CloseStates | src/us_intraday_lab/backtest/engine.py:811-812 | Closing never meets an illegal transition when the states are flat or cooling down |
| Scenarios.IdleReconciles | src/us_intraday_lab/backtest/engine.py:825-833 | A flat state with its invariant gives the result record of a reconciled run |
| Stages.ShelteredIsCovered | src/us_intraday_lab/strategy/features.py:194-197 | Rows arrive only at 15-minute boundaries, when no market buy is working any more; so the cash covers the reservations whenever a row asks |
| Dates.SortedDates | src/us_intraday_lab/backtest/engine.py:601-604 | The dates of the sessions, each once and ascending, so that no session meets a date already on record |
| StepLaws.OnBarSteady | src/us_intraday_lab/backtest/engine.py:1075-1120 | A working order meeting any valid bar: untouched it changes nothing; touched it leaves the desk at its limit or at the open moved by the impact, as an opened or a closed position, or dropped when too dear; never an exception, and every part of the invariant survives |
| StepLaws.SubmitBuySteady | src/us_intraday_lab/backtest/engine.py:962-1073 | A due and affordable buy is accepted with its whole cost reserved, never rejected or taken for a duplicate |
| StepLaws.SubmitSellSteady | src/us_intraday_lab/backtest/engine.py:962-1073 | A due sell is always accepted for the whole position |
| SubmitLaws.SubmitAccepts | src/us_intraday_lab/backtest/engine.py:1014-1073 | Neither early exit is taken when the id is new and the reservation succeeds |
| SubmitLaws.BuyIsReserved | src/us_intraday_lab/backtest/portfolio.py:204-236 | An affordable buy of a free symbol is reserved at its full cost |
| SubmitLaws.SellIsReserved | src/us_intraday_lab/backtest/portfolio.py:219-236 | With no other sell working, the whole position can be reserved |
| SubmitLaws.AcceptedCoupled | src/us_intraday_lab/backtest/engine.py:1058-1073 | An accepted order puts its symbol into the pending phase with its order and reservation and leaves the others alone |
| SubmitLaws.CostIsImpact | src/us_intraday_lab/backtest/engine.py:1137-1146 | The recorded cost of a fill is exactly the scenario's impact on every share: on the open for a market order, on the reference price for a limit order |
| FillLaws.BuyFilledShape | src/us_intraday_lab/backtest/engine.py:1122-1219 | A touched buy is dropped exactly when the cash left would fall short of what the other orders have reserved; else position and open trade stand at the fill price and the cash pays the cost |
| FillLaws.SellFilledShape | src/us_intraday_lab/backtest/engine.py:1221-1247 | A touched sell always closes the position: it is never short, untracked or without an open trade; the recorded trade has the entry and exit of the two fills, the gain between them and the impact of both |
| FillLaws.ResolvedCoupled | src/us_intraday_lab/backtest/engine.py:1122-1247 | Phase, order, reservation, position and open trade agree again after every outcome |
| FillLaws.ResolvedPaced | src/us_intraday_lab/backtest/engine.py:1122-1247 | Entry counts and cooldowns stay in step with the recorded trades |
| FillLaws.ResolvedTradesOk | src/us_intraday_lab/backtest/engine.py:1221-1238 | A recorded trade exits after it enters, in its session's hours, a cooldown after the previous one, with the profit between its prices, the impact of its two fills, and `forced` set exactly when it exits at the closeout |
| FillLaws.ResolvedBooks | src/us_intraday_lab/backtest/engine.py:1193-1238 | Replaying the fills gives the recorded trades and the open positions, and realised profit stays the sum of the trades |
| FillLaws.FilledSlots | src/us_intraday_lab/backtest/engine.py:836-845 | A fill or a drop never uses up an entry slot |
| SignalLaws.OnSignalSteady | src/us_intraday_lab/backtest/engine.py:646-709 | A row of any price, whatever the rules say, raises exactly when it is an entry with a free slot at a price of zero or an exit by a limit order at a price that is not positive; else it buys the largest quantity that fits, sells the whole position or places nothing, exactly as the orders, positions and trades say, and keeps the whole invariant |
| Decisions.PhaseMeans | src/us_intraday_lab/backtest/engine.py:646-691 | Flat or cooled down is the same as free: no order, no position and the cooldown of every recorded trade of the symbol over; long is the same as held without an order |
| Decisions.EntriesAreSlots | src/us_intraday_lab/backtest/engine.py:836-845 | The entry slots in use are the session's recorded trades, open trades and working buys |
| Decisions.PlacesAreSlots | src/us_intraday_lab/backtest/engine.py:950-953 | The free places come from the positions and the working buys alone: what three leave, at least one |
| SignalLaws.QuantityMeans | src/us_intraday_lab/backtest/engine.py:943-960 | The sized quantity is the largest that fits the cash of one place and, when sizing by risk, the risk budget; it is zero exactly when not even one share fits |
| Rows.PristineAccount | src/us_intraday_lab/backtest/engine.py:554-833 | Without an intent on record nothing has happened to the account: no order, no position, no trade, all the cash |
| Rows.NoIntentNoInvitation | src/us_intraday_lab/backtest/engine.py:652-685 | A row that enters at a price the untouched cash affords does leave an intent |
| SignalLaws.ZeroCloseRaises | src/us_intraday_lab/backtest/engine.py:943-955 | The first row of a run that enters at a close of zero ends it |
| SignalLaws.ExitTurnedAway | src/us_intraday_lab/backtest/engine.py:991-1055 | A sell signal at a price that is not positive: a limit intent is invalid, a market order is turned away by the portfolio and the symbol stays long |
| SignalLaws.EntryQuantityAffordable | src/us_intraday_lab/backtest/engine.py:943-960 | Sizing raises exactly when the cash does not cover the reservations or the price is zero; a negative price buys nothing and a positive quantity fits the available cash |
| SignalLaws.EntryQuantityIsLargest | src/us_intraday_lab/backtest/engine.py:943-960 | The quantity is the largest one within the cash share and, when sizing by risk, within the risk budget |
| SignalLaws.RestedWorld | src/us_intraday_lab/backtest/engine.py:647-652 | Completing an elapsed cooldown never raises and changes nothing else |
| SignalLaws.FreshAfter | src/us_intraday_lab/backtest/engine.py:1003-1015 | Ids of one minute stay distinct from symbol to symbol |
| MinuteLaws.OnRiskSteady | src/us_intraday_lab/backtest/engine.py:1264-1301 | The risk check cannot raise; it places one sell of the whole position exactly when a resting position has reached a limit, and nothing else |
| Sweeps.SweptStep | src/us_intraday_lab/backtest/engine.py:1265-1301 | Checking one more held symbol changes the orders of no other, in any order of the symbols |
| MinuteLaws.RiskReasonMeans | src/us_intraday_lab/backtest/engine.py:1269-1281 | Stop and target as price levels, their priority, and the holding limit |
| MinuteLaws.OnCloseoutSteady | src/us_intraday_lab/backtest/engine.py:763-782 | The forced sell of a long position is always accepted |
| MinuteLaws.OnMarkSteady | src/us_intraday_lab/backtest/portfolio.py:344-349 | Marking keeps the invariant and changes one price |
| MinuteLaws.DroppedSteady | src/us_intraday_lab/backtest/engine.py:1317-1327 | Cancelling a working order never raises and returns its symbol to flat or long |
| SessionLaws.WoundUp | src/us_intraday_lab/backtest/engine.py:798-810 | When only sells work and all of them filled, nothing is held |
| SessionLaws.DoneIsFlat | src/us_intraday_lab/backtest/engine.py:809-823 | No order and no position means no reservation, no open trade, and only flat or cooling states |
| SessionLaws.ClosingStep | src/us_intraday_lab/backtest/engine.py:763-782 | Each forced sell moves one symbol from long to being sold |
| SessionLaws.KeyedMinute | src/us_intraday_lab/backtest/engine.py:1003-1015 | Signal times of ids grow from minute to minute, so an id never repeats |
| SessionLaws.MarketOrderFills | src/us_intraday_lab/backtest/fills.py:93-132 | A market order never outlives its first eligible minute |
| SessionLaws.NothingToBuy | src/us_intraday_lab/backtest/engine.py:1094-1113 | A minute without feature rows leaves no market buy working |
| SessionLaws.NewSession | src/us_intraday_lab/backtest/engine.py:604-622 | A flat account starts the next session with the whole invariant |
| SessionLaws.SessionEnds | src/us_intraday_lab/backtest/engine.py:798-823 | The finished session kept its entry cap: recorded trades equal counted entries |
| Books.FlatCash | src/us_intraday_lab/backtest/engine.py:825-833 | Final cash differs from initial cash plus recorded profit by at most one epsilon per fill, two fills a trade |
| Books.FullBuy | src/us_intraday_lab/backtest/portfolio.py:258-290 | A full buy fails exactly when the cash left would fall short of what the other orders have reserved, less one epsilon; else the cash pays the cost, to within one epsilon, and the position is the shares at that price |
| Books.FullSell | src/us_intraday_lab/backtest/portfolio.py:291-308 | A full sell of a full position always succeeds and books its profit |
| Accounts.Residual | src/us_intraday_lab/backtest/portfolio.py:40-43 | Refuses below minus epsilon, is never negative, moves a value by at most epsilon and none above epsilon |
| AccountLaws.RunKeepsInv | src/us_intraday_lab/backtest/portfolio.py:182-349 | After any calls in any order: cash non-negative, sells never above holdings, at most `max_positions` symbols occupied, cash books within one epsilon per fill |
| AccountLaws.StepKeepsInv | src/us_intraday_lab/backtest/portfolio.py:182-349 | One call keeps all of it, and a fill never fails for a short position or a negative residual |
| AccountLaws.FillBuyKeepsInv | src/us_intraday_lab/backtest/portfolio.py:258-335 | A buy fill, whole or partial, keeps the books and can be refused only for cash |
| AccountLaws.FillSellKeepsInv | src/us_intraday_lab/backtest/portfolio.py:291-335 | A sell fill fails exactly when its fees would take the cash below minus epsilon |
| AccountLaws.ReleasedBounds | src/us_intraday_lab/backtest/portfolio.py:259-268 | What a partial fill releases lies between nothing and the reservation |
| AccountLaws.ShrunkFacts | src/us_intraday_lab/backtest/portfolio.py:310-317 | Reserved cash and promised shares shrink by exactly what was filled |
| AccountLaws.BoughtFacts | src/us_intraday_lab/backtest/portfolio.py:278-288 | Averaging into a position adds exactly what was paid to the cost basis |
| AccountLaws.SoldFacts | src/us_intraday_lab/backtest/portfolio.py:301-306 | Selling takes exactly its share of the cost basis away |
| AccountCalls.OccupiedAre | src/us_intraday_lab/backtest/portfolio.py:206-211 | A symbol is occupied when it is held or wanted by a working buy |
| AccountCalls.EquityTake | src/us_intraday_lab/backtest/portfolio.py:170-172 | Equity is the cash and, for every position, its shares at their market price |
| AccountCalls.MarkMovesEquity | src/us_intraday_lab/backtest/portfolio.py:344-349 | Marking moves the equity by the shares times the move of the price, and nothing else |
| AccountCalls.BuyReservation | src/us_intraday_lab/backtest/portfolio.py:182-236 | A buy is granted exactly for a new id, positive quantity and price, a free place or an occupied symbol, and unpromised cash that covers it to within one epsilon; it then sets its cost aside |
| AccountCalls.SellReservation | src/us_intraday_lab/backtest/portfolio.py:219-236 | A sell is granted exactly when the shares not promised to other sells suffice; it promises them and sets no cash aside |
| AccountCalls.RefusedReservation | src/us_intraday_lab/backtest/portfolio.py:182-236 | Each refusal names its reason |
| AccountCalls.KeptInProportion | src/us_intraday_lab/backtest/portfolio.py:259-268 | After a partial fill the reservation keeps its rate per share |
| AccountCalls.BuyFill | src/us_intraday_lab/backtest/portfolio.py:258-335 | A buy fill is refused exactly when the cash left would fall short of all that stays reserved; else the cost leaves the cash, joins the position and the fill is on record |
| AccountCalls.SellFill | src/us_intraday_lab/backtest/portfolio.py:291-335 | A sell fill is refused exactly when its fees take the cash below minus epsilon; else the proceeds join the cash, the shares leave at average cost and the difference is realised |
| AccountCalls.RefusedFill | src/us_intraday_lab/backtest/portfolio.py:238-335 | Each refused fill names its reason |
| AccountCalls.CancelReleases | src/us_intraday_lab/backtest/portfolio.py:337-342 | Cancelling takes one order and its reserved cash away and nothing else |
| CashCover.FillBuyKeepsCoverIff | src/us_intraday_lab/backtest/portfolio.py:258-276 | A buy fill keeps available cash from raising exactly when it leaves more than epsilon or at most epsilon stays reserved |
| CashCover.FillSellKeepsCoverIff | src/us_intraday_lab/backtest/portfolio.py:291-300 | The same for a sell fill |
| CashCover.ReserveKeepsCover | src/us_intraday_lab/backtest/portfolio.py:214-218 | Reserving never takes the cover away |
| CashCover.FillKeepsSnug | src/us_intraday_lab/backtest/portfolio.py:258-308 | Orders that fill for exactly what they reserved keep the cover to the last cent |
| CashCover.FillKeepsSolidCover | src/us_intraday_lab/backtest/portfolio.py:258-308 | Reservations above two epsilons keep the cover whatever the fill costs |
| CashCover.HeavyRunKeepsCover | src/us_intraday_lab/backtest/portfolio.py:152-308 | After any calls in any order, with buys above three epsilons a share and whole fills free of fees, available cash does not raise |
| Portfolios.Portfolio.TotalReserved | src/us_intraday_lab/backtest/portfolio.py:147-149 | The loop adds up reserved cash in any order of the dictionary |
| Portfolios.Portfolio.Equity | src/us_intraday_lab/backtest/portfolio.py:170-172 | Cash plus market value, in any order of the positions |
| Portfolios.Portfolio.OccupiedSymbols | src/us_intraday_lab/backtest/portfolio.py:206-211 | Held symbols and symbols of working buys |
| Portfolios.Portfolio.AlreadySelling | src/us_intraday_lab/backtest/portfolio.py:222-226 | Shares promised to working sells of the symbol |
| Portfolios.Portfolio.ReserveOrder | src/us_intraday_lab/backtest/portfolio.py:182-236 | The reservation or the error of the specification; a raising call changes no field |
| Portfolios.Portfolio.ApplyFill | src/us_intraday_lab/backtest/portfolio.py:238-335 | The same for a fill |
| Portfolios.Portfolio.ApplyBuy | src/us_intraday_lab/backtest/portfolio.py:258-290 | The buy half of a fill, field by field |
| Portfolios.Portfolio.ApplySell | src/us_intraday_lab/backtest/portfolio.py:291-335 | The sell half of a fill, field by field |
| Portfolios.Portfolio.CancelOrder | src/us_intraday_lab/backtest/portfolio.py:337-339 | Removes one reservation or raises |
| Portfolios.Portfolio.MarkToMarket | src/us_intraday_lab/backtest/portfolio.py:344-349 | Changes one market price or raises |
| Orders.Costs | src/us_intraday_lab/backtest/costs.py:91-111 | The three approved cost scenarios: positive impact, no commission |
| Orders.AdverseIs | src/us_intraday_lab/backtest/costs.py:58-61 | One, three or seven basis points, added to the price of a buy and taken from that of a sell |
| Orders.ImpactOfAdverse | src/us_intraday_lab/backtest/engine.py:1137-1146 | The impact can be worked out from the fill price alone |
| Orders.FillPriceMeans | src/us_intraday_lab/backtest/fills.py:102-121 | An eligible order fills exactly when some price between low and high of the minute is as good as its limit: a limit order at its limit, a market order always, at the open moved by the impact |
| Orders.AdversePositive | src/us_intraday_lab/backtest/fills.py:110-114 | Impact moves a positive price against the trader and keeps it positive |
| Orders.FillPricePositive | src/us_intraday_lab/backtest/fills.py:93-132 | A fill price is positive |
| Phases.CallLaws | src/us_intraday_lab/strategy/runtime.py:239-466 | On a valid state no call fails for the state invariant; only an accepted opening fill adds an entry; a closed session accepts nothing |
| Phases.RunLaws | src/us_intraday_lab/strategy/runtime.py:148-466 | Whatever is called on a fresh key: the state stays valid, `entries` counts the accepted opening fills, closed stays closed |
| Phases.CallEffect | src/us_intraday_lab/strategy/runtime.py:239-466 | When each call on a valid state is accepted, and the state it leads to |
| Phases.FillsAlternate | src/us_intraday_lab/strategy/runtime.py:333-397 | Opening and closing fills alternate over any calls, and a position is open exactly between them |
| Phases.HoldingMeans | src/us_intraday_lab/strategy/runtime.py:399-427 | The holding time counts from the opening fill while the position is open; a cooldown is active up to its end |
| Runtimes.StrategyRuntime.RecordSignal | src/us_intraday_lab/strategy/runtime.py:272-314 | Saves signal and time of one key or raises; a raising call saves nothing and no other key changes |
| Runtimes.StrategyRuntime.Transition | src/us_intraday_lab/strategy/runtime.py:239-270 | Moves along the public table or raises; a raising call saves nothing and no other key changes |
| Runtimes.StrategyRuntime.OrderRejected | src/us_intraday_lab/strategy/runtime.py:316-331 | Back to flat or long, or raises; a raising call saves nothing and no other key changes |
| Runtimes.StrategyRuntime.EntryFilled | src/us_intraday_lab/strategy/runtime.py:333-363 | Opens along the fill table, counting the entry; a raising call saves nothing and no other key changes |
| Runtimes.StrategyRuntime.ExitFilled | src/us_intraday_lab/strategy/runtime.py:365-397 | Starts the cooldown along the fill table; a raising call saves nothing and no other key changes |
| Runtimes.StrategyRuntime.CompleteCooldown | src/us_intraday_lab/strategy/runtime.py:429-458 | Ends an elapsed cooldown or raises; a raising call saves nothing and no other key changes |
| Runtimes.StrategyRuntime.CloseSession | src/us_intraday_lab/strategy/runtime.py:460-466 | Closes the key; a raising call saves nothing and no other key changes |
| Conditions.CompilePreservesMeaning | src/us_intraday_lab/strategy/compiler.py:87-103 | A compiled rule is true on a row exactly when the condition tree is |
| Conditions.BranchesPreserveMeaning | src/us_intraday_lab/strategy/validator.py:608-632 | A tree is true exactly when all comparisons of some branch are |
| Conditions.RuleMatchesSomeBranch | src/us_intraday_lab/backtest/engine.py:487-500 | The engine's rule matches a row, absent and non-finite features included, exactly when some branch of the validator's expansion holds on it |
| Conditions.ComparisonLaws | src/us_intraday_lab/strategy/operators.py:52-65 | The four comparisons by their laws: gt against lte, lt against gte, gt as lt turned around, and which of them hold on equal values |
| Conditions.GroupLaws | src/us_intraday_lab/strategy/compiler.py:87-103 | One condition more: a group of all asks for it too, a group of any is content with it; an empty group of all holds, one of any does not |
| Complexity.ConditionComplexity | src/us_intraday_lab/strategy/validator.py:584-605 | The capped branch count is exact up to its cap, and the capped work is exact whenever the branches are within budget, on all trees |
| Complexity.FlatBudget | src/us_intraday_lab/strategy/validator.py:671-685 | The budget admits sixteen comparisons of which any may hold and 96 that must all hold, and no more |
| Complexity.AllBranchesCount | src/us_intraday_lab/strategy/validator.py:608-632 | Branches and comparisons of an all-group by multiplication |
| Complexity.SaturatesProduct | src/us_intraday_lab/strategy/validator.py:596-605 | Capping before multiplying loses nothing that matters |
| Contradictions.LimitsClash | src/us_intraday_lab/strategy/validator.py:646-667 | The interval test rejects exactly the limits no real number meets |
| Contradictions.BranchHasContradiction | src/us_intraday_lab/strategy/validator.py:635-668 | A branch is flagged exactly when no feature row satisfies it |
| Contradictions.GroupByIndicator | src/us_intraday_lab/strategy/validator.py:636-642 | The grouping keeps, for each indicator, the same limits |
| Contradictions.CheckContradictions | src/us_intraday_lab/strategy/validator.py:671-693 | Over budget, contradictory or clean, each exactly when the expansion is |
| Validator.Preflight | src/us_intraday_lab/strategy/validator.py:377-487 | The stack walk ends, finds the trees valid exactly when depth, group sizes and the joint node count are within bounds, and then counts the leaves of the recursion; its issues are exactly the defects of the trees, unless it is stopped, which only too many nodes do |
| Validator.ShapedIff | src/us_intraday_lab/strategy/validator.py:390-470 | A tree is well shaped exactly when no defect is found in it |
| Validator.TooDeepMeans | src/us_intraday_lab/strategy/validator.py:407-416 | The depth issue is found only in a tree that is too deep, and in each such tree without a wide group |
| Validator.EmptyGroupMeans | src/us_intraday_lab/strategy/validator.py:443-452 | The empty-group issue is found only in a tree with an empty group, and in each such tree whose depth and widths are in order |
| Validator.WideGroupMeans | src/us_intraday_lab/strategy/validator.py:453-465 | The width issue is found only in a tree with a group of more than 64 children, and in each such tree that is not too deep |
| Validator.ShapeBounds | src/us_intraday_lab/strategy/validator.py:386-470 | A flat group may have 1 to 64 comparisons, a comparison may stand below at most two groups, and nodes and leaves are counted as such |
| Validator.VisitCondition | src/us_intraday_lab/strategy/validator.py:490-581 | The recursion accepts exactly the shallow trees and counts their leaves |
| Validator.ValidateRules | src/us_intraday_lab/strategy/validator.py:896-915 | No issue exactly when shape, leaves, budget and consistency of both trees are in order; otherwise each issue names what is wrong with the trees |
| Validator.ConsistentRuleCanMatch | src/us_intraday_lab/strategy/validator.py:671-693 | A tree that passes has a feature row on which its compiled rule is true |
| Validator.PassingStrategyCanTrade | src/us_intraday_lab/strategy/validator.py:896-915 | A strategy that passes can both enter and exit |
| Evidence.StableSortIsUnique | src/us_intraday_lab/paper/recovery.py:66-86 | There is one list in key order that keeps the order of equal keys |
| Evidence.SortedIsTheStableSort | src/us_intraday_lab/paper/recovery.py:84-86 | The sorted evidence is that list, whatever the algorithm |
| Evidence.LeqMeans | src/us_intraday_lab/paper/recovery.py:83-86 | By time; at the same time bars, orders, positions; within those by identity |
| Evidence.EventsOfJoined | src/us_intraday_lab/paper/recovery.py:66-86 | When nothing later sorts before anything earlier, sorting all is sorting both parts |
| Replay.ApplyEvents | src/us_intraday_lab/paper/recovery.py:89-125 | The replay loop computes the fold of its events from the given state |
| Replay.ResumingEqualsReplaying | src/us_intraday_lab/paper/recovery.py:89-125 | If later evidence sorts at or after earlier evidence, resuming equals a clean replay |
| Replay.LastOfMerged | src/us_intraday_lab/paper/recovery.py:89-125 | Of two merged ledgers the later of the two last events of a class wins, the second on ties |
| Recovering.RecoveredBars | src/us_intraday_lab/paper/recovery.py:101-107 | Every stored bar is recovered, each once, and no other |
| Recovering.RecoveredInOrder | src/us_intraday_lab/paper/recovery.py:84-107 | Of two bars the earlier, by time and then provider id, is recovered first |
| Recovering.RecoveredOrder | src/us_intraday_lab/paper/recovery.py:108-112 | The recovered status of a client order is that of its newest update, the last stored one of the same time |
| Recovering.NoRecoveredOrder | src/us_intraday_lab/paper/recovery.py:108-112 | A client order without an update is not recovered |
| Recovering.RecoveredPositions | src/us_intraday_lab/paper/recovery.py:113-117 | The recovered positions are those of the newest snapshot by time and id, and none without a snapshot |
| Recovering.RecoveredClock | src/us_intraday_lab/paper/recovery.py:99-118 | The recovered clock stands at the newest piece of evidence |
| Resumption.ResumingEqualsReplayingIff | src/us_intraday_lab/paper/recovery.py:185-208 | Resuming equals a clean replay exactly when bars come in order, the newest event is among the later ones and no later update or snapshot is overtaken by a different earlier one |
| Resumption.SameIdsIff | src/us_intraday_lab/paper/recovery.py:97-108 | The processed provider ids agree exactly when every later bar sorts at or after every earlier one |
| TableLaws.FiltersAreExact | src/us_intraday_lab/paper/recovery.py:165-201 | The two generation filters of a checkpoint cut the stored evidence in two, nothing lost or repeated |
| TableLaws.SubmissionShape | src/us_intraday_lab/paper/session.py:392-420 | A submission fails only for its own content: its checkpoint never conflicts and never leaves a gap |
| TableLaws.SubmissionSound | src/us_intraday_lab/paper/store.py:473-561 | Sequences stay 1 to n and generations stay in store order |
| TableLaws.SubmissionReproducible | src/us_intraday_lab/paper/session.py:392-420 | All checkpoint hashes stay reproducible from their filters exactly when the order event is new or changes nothing a second time |
| TableLaws.SubmissionNewest | src/us_intraday_lab/paper/recovery.py:165-184 | After a submission the newest checkpoint can be reproduced from its filters exactly when the order event is new or changes nothing a second time, whatever was the case before |
| TableLaws.AppendMarketSound | src/us_intraday_lab/paper/store.py:225-272 | Appending a bar keeps sequences, generations and unique ids |
| TableLaws.AppendMarketReproducible | src/us_intraday_lab/paper/store.py:225-272 | Appending a bar is invisible to every checkpoint there is |
| TableLaws.AppendSnapshotSound | src/us_intraday_lab/paper/store.py:563-601 | Appending a snapshot keeps sequences and generations |
| TableLaws.AppendSnapshotReproducible | src/us_intraday_lab/paper/store.py:563-601 | Appending a snapshot is invisible to every checkpoint there is |
| TableLaws.HarmlessIff | src/us_intraday_lab/paper/store.py:473-510 | A repeated order event changes nothing exactly when a later event of the order is stored or the last one says the same |
| PaperStores.PaperStore.AppendMarketEvent | src/us_intraday_lab/paper/store.py:225-272 | Accepted exactly for a known session, unless the id is stored with other content or for another session; then the bar is stored exactly once, at the end of its session's evidence, and nothing else changes; a fault rolls back and closes the write circuit |
| PaperStores.PaperStore.AppendPositionSnapshot | src/us_intraday_lab/paper/store.py:563-601 | Accepted exactly for a known session, unless the id is stored with other content; then the snapshot is stored exactly once, at the end of its session's evidence, and nothing else changes; a fault rolls back and closes the write circuit |
| PaperStores.NewSnapshotIsRecovered | src/us_intraday_lab/paper/recovery.py:113-117 | An accepted snapshot that is the newest by time and id is what a replay then recovers as the positions |
| Writes.SnapshotWritten | src/us_intraday_lab/paper/store.py:563-601 | The append fails exactly for an unknown session or an id stored with other content; otherwise the snapshot is in its session's evidence once, what was stored is a prefix of what is stored, and all other tables and sessions are as they were |
| Writes.MarketWritten | src/us_intraday_lab/paper/store.py:225-272 | The same for a bar |
| Writes.SubmissionWritten | src/us_intraday_lab/paper/session.py:392-420 | A submission is accepted exactly when its parts fit and agree with what is stored, and then all four of them are stored |
| Writes.CheckpointTime | src/us_intraday_lab/paper/session.py:408-414 | The checkpoint is as old as the later of the observation and the order event |
| Writes.CheckpointWritten | src/us_intraday_lab/paper/store.py:512-561 | A checkpoint that is stored is left alone, one that rivals a stored one is a conflict, one out of sequence a gap; any other is added |
| PaperStores.PaperStore.RecordOrderBundle | src/us_intraday_lab/paper/store.py:274-348 | Four inserts that commit together or not at all |
| PaperStores.PaperStore.InsertOrVerifyIntent | src/us_intraday_lab/paper/store.py:403-435 | A stored intent is never replaced by another |
| PaperStores.PaperStore.InsertOrVerifyDecision | src/us_intraday_lab/paper/store.py:437-471 | A stored risk decision is never replaced by another |
| PaperStores.PaperStore.InsertOrVerifyOrderEvent | src/us_intraday_lab/paper/store.py:473-510 | An order event is stored once, under its first generation |
| PaperStores.PaperStore.InsertOrVerifyCheckpoint | src/us_intraday_lab/paper/store.py:512-561 | Same content, conflict, gap or insert |
| PaperStores.PaperStore.Commit | src/us_intraday_lab/paper/store.py:140-164 | Commit all or roll back all |
| PaperStores.PaperSession.RecordSubmission | src/us_intraday_lab/paper/session.py:392-420 | Accepted exactly when intent, decision, order event and session fit each other and contradict nothing stored; then intent and decision are stored, the order event exactly once and one checkpoint more, and whether that checkpoint can be reproduced |
| PaperStores.RecoverSession | src/us_intraday_lab/paper/recovery.py:147-214 | The hash is refused exactly when the newest checkpoint cannot be reproduced from its filters; in a coherent store recovery succeeds exactly when it can and no evidence came too late; it resumes from the newest checkpoint, counts the evidence behind it and its state is that of a clean replay |
| PaperStores.EveryReachableStore | src/us_intraday_lab/paper/recovery.py:165-184 | In every store reachable by appends and submissions, the newest checkpoint can be reproduced exactly when the last accepted submission of the session was harmless, and every checkpoint exactly when all of them were |
| PaperStores.RepeatedUpdateBreaksRecovery | src/us_intraday_lab/paper/session.py:400-415 | Two updates of one order at one time, then the first again: all three are accepted, the last stored event is not the repeated one, and the newest checkpoint cannot be reproduced, so recovery is refused |
| PaperStores.LateBarBreaksRecovery | src/us_intraday_lab/paper/recovery.py:185-203 | In any coherent store with a checkpoint, a new bar that sorts before one behind the checkpoint is stored and leaves the store coherent, but recovery from that checkpoint fails |
| NullPlan.GroupIndexes | src/us_intraday_lab/validation/null_tests.py:285-289 | One pass puts every index into the group of its symbol and session |
| NullPlan.EveryIndexOnce | src/us_intraday_lab/validation/null_tests.py:285-289 | Each index lies in one group at one place |
| NullPlan.BuildPlan | src/us_intraday_lab/validation/null_tests.py:285-315 | A plan exists exactly when something was entered and every group with entries can shift |
| NullPlan.PlannableMeans | src/us_intraday_lab/validation/null_tests.py:290-300 | Something was entered, and nothing without an opportunity of its symbol and session that was not |
| NullPlan.EntriesAreCounted | src/us_intraday_lab/validation/null_tests.py:290-294 | The entry count of a symbol and session is the number of its set bits |
| NullPlan.PermutedMask | src/us_intraday_lab/validation/null_tests.py:318-325 | Any shuffle keeps the entry count of every symbol and session |
| NullPlan.ShiftedMask | src/us_intraday_lab/validation/null_tests.py:328-338 | Every symbol and session with more than one opportunity is rotated by an offset that is not zero, and keeps its entry count |
| NullPlan.PlaceShifted | src/us_intraday_lab/validation/null_tests.py:334-337 | Writing bits an offset further on is a rotation of the group |
| NullScoring.ScoreSequence | src/us_intraday_lab/validation/null_tests.py:361-408 | The loop with its pruned list accepts exactly what the rule over all accepted entries accepts; accepted plus rejected are the set bits |
| NullScoring.ArrangedInOrder | src/us_intraday_lab/validation/null_tests.py:301-313 | The evaluation order is in order of entry time, session, symbol, signal time and id |
| NullScoring.NotAfterMeans | src/us_intraday_lab/validation/null_tests.py:304-311 | The first of entry time, session, symbol, signal time and id that differs decides; symbols go by name |
| NullScoring.AcceptedAreCounted | src/us_intraday_lab/validation/null_tests.py:376-389 | Entries of a session, positions still to exit and positions open are counted as what they are |
| NullScoring.ProfitAddsUp | src/us_intraday_lab/validation/null_tests.py:394-395 | The profit is the sum of the accepted profits |
| NullScoring.SetAlongOrder | src/us_intraday_lab/validation/null_tests.py:301-313 | Going through it meets every set bit once |
| NullScoring.GreedySpaced | src/us_intraday_lab/validation/null_tests.py:379-385 | Accepted entries of a symbol and session are apart by exit plus cooldown |
| NullScoring.GreedyConcurrency | src/us_intraday_lab/validation/null_tests.py:376-389 | At no instant are more positions open than allowed |
| NullScoring.GreedySessionCap | src/us_intraday_lab/validation/null_tests.py:386-388 | No session exceeds its entry cap |
| NullScoring.EveryRejectionHasAWitness | src/us_intraday_lab/validation/null_tests.py:379-392 | Each set bit is accepted or refused because of entries accepted before it |
| NullTests.NearestRankCounts | src/us_intraday_lab/validation/null_tests.py:411-414 | At least p times n statistics at or below the threshold, fewer than p times n strictly below |
| NullTests.BeatsThresholdIff | src/us_intraday_lab/validation/null_tests.py:585-588 | Beating the threshold means strictly beating at least p times n repetitions |
| NullTests.BelowAreCounted | src/us_intraday_lab/validation/null_tests.py:411-414 | Strictly below and at or below are the numbers of such statistics |
| NullTests.ScoreDistribution | src/us_intraday_lab/validation/null_tests.py:505-524 | Every statistic is the score of a mask of its method: count-keeping for the permutation, rotated in every symbol and session for the shift |
| NullTests.RunNullTests | src/us_intraday_lab/validation/null_tests.py:527-622 | A verdict exactly when a plan exists; passed exactly when the observed profit strictly beats the required share of both methods, whose statistics are scores of count-keeping masks and of rotated ones |
| ParameterSpace.TupleFromRank | src/us_intraday_lab/factory/variants.py:63-74 | The loop takes a rank apart from the last parameter to the first |
| ParameterSpace.TupleThenRank | src/us_intraday_lab/factory/variants.py:63-74 | Every rank below the total gives a tuple of the product and gives it back |
| ParameterSpace.RankThenTuple | src/us_intraday_lab/factory/variants.py:63-74 | Every tuple of the product comes from one rank below the total |
| ParameterSpace.RankIsLexicographic | src/us_intraday_lab/factory/variants.py:115-124 | Rank order is the order by sorted values, which the full listing uses |
| ParameterSpace.MeasureDistance | src/us_intraday_lab/factory/variants.py:77-92 | The loop computes the distance that `Distances` pins: the sum over the parameters of position difference by range length, by the number of parameters |
| ParameterSpace.DistanceIsMetric | src/us_intraday_lab/factory/variants.py:77-92 | The distance is symmetric, zero only on equal tuples, and satisfies the triangle inequality |
| Distances.SingleChange | src/us_intraday_lab/factory/variants.py:77-92 | Two tuples that differ in one parameter, at positions i and j of n values, are the difference of i and j divided by n - 1 and by the number of parameters apart |
| Distances.DistanceIsSumOfChanges | src/us_intraday_lab/factory/variants.py:77-92 | The distance of any two tuples is the sum of their single changes |
| Distances.DistanceAtMostOne | src/us_intraday_lab/factory/variants.py:77-92 | No two tuples are farther apart than one |
| Distances.CornersAreFarthest | src/us_intraday_lab/factory/variants.py:101-103 | All-low and all-high are exactly one apart when every range has two values or more |
| Variants.TakeFarthest | src/us_intraday_lab/factory/variants.py:139-156 | The cached minimum distances stay the true ones and every pick is a farthest one |
| Variants.UpdateDistances | src/us_intraday_lab/factory/variants.py:151-155 | Updating the cache with one pick gives the true distances again |
| Variants.IndexOfGreatest | src/us_intraday_lab/factory/variants.py:146 | The first index of a greatest distance |
| Variants.RadiiShrink | src/us_intraday_lab/factory/variants.py:145-155 | Pick distances never increase |
| Variants.LeftoverIsCovered | src/us_intraday_lab/factory/variants.py:145-155 | Every leftover tuple is within the last pick distance of a selected one |
| Variants.PicksAreApart | src/us_intraday_lab/factory/variants.py:145-155 | A pick is at least the last pick distance from everything selected before it |
| Variants.SelectTuples | src/us_intraday_lab/factory/variants.py:95-156 | Exactly min(total, max_variants) distinct tuples, forced ones first; all of them when they fit, the others then in order of their values, else farthest first among the sample |
| Variants.SelectionHasForced | src/us_intraday_lab/factory/variants.py:101-112 | Baseline, all-low and all-high are always selected |
| Variants.ForcedReasons | src/us_intraday_lab/factory/variants.py:104-111 | Baseline first, then all-low and all-high, each under its own reason and unless it is there already |
| Variants.BoundariesAreCorners | src/us_intraday_lab/factory/variants.py:102-103 | All-low and all-high take the first and the last value of every range |
| Variants.MinDistanceIsAttained | src/us_intraday_lab/factory/variants.py:139-144 | The cached distance is the distance to one of the selected tuples, and to none less |
| Variants.PoolIsLarge | src/us_intraday_lab/factory/variants.py:133-134 | The sample is everything, or at least 256 ranks and eight for each wanted variant |
| MarketData.MarketDataPipeline.constructor | src/us_intraday_lab/paper/market_data.py:81-133 | Rebuilding from a store that is in order gives the bars, latest times and emitted buckets of the live pipeline |
| MarketData.MarketDataPipeline.Ingest | src/us_intraday_lab/paper/market_data.py:144-173 | Each refusal, repeat and acceptance, with the whole state after it; a bucket is emitted on the call that supplies its last missing minute; a bar whose id is in use is not stored but kept in memory, where it passes for a known one |
| MarketData.JudgedByStore | src/us_intraday_lab/paper/market_data.py:149-163 | Told by what is stored: outside the hours, a minute taken by the same or by another bar, some stored minute of the symbol more than the reorder window later, or accepted |
| MarketData.LatestIsGreatest | src/us_intraday_lab/paper/market_data.py:160-167 | The latest start of a symbol is the greatest among its stored minutes |
| MarketData.MarketDataPipeline.Take | src/us_intraday_lab/paper/market_data.py:166-173 | An accepted bar is stored once, followed by its bucket when complete |
| MarketData.MarketDataPipeline.AggregateIfComplete | src/us_intraday_lab/paper/market_data.py:175-201 | An aggregate exactly for a complete bucket not emitted before; `Bars.AggregateSumsUp` says what is in it |
| MarketData.EventStore.Append | src/us_intraday_lab/paper/store.py:225-272 | Insert or verify by id |
| MarketData.AggregateRecorded | src/us_intraday_lab/paper/market_data.py:175-201 | Emitting keeps the emitted buckets equal to the full ones, each stored once |
| MarketData.SameBarsSameEmissions | src/us_intraday_lab/paper/market_data.py:144-201 | The emitted bars depend only on the accepted bars, not on arrival order or repeats |
| MarketData.EveryFeedIsRecorded | src/us_intraday_lab/paper/market_data.py:144-201 | A pipeline started on an empty store keeps it in order through any feed: emitted are exactly the full buckets, each once |
| MarketData.SameAcceptedSameEmissions | src/us_intraday_lab/paper/market_data.py:144-201 | Two feeds of which the same bars were accepted, in any order and with any repeats and refusals, have emitted the same bars |
| Bars.AggregateIsValid | src/us_intraday_lab/contracts/market.py:38-49 | The aggregate passes the checks of its own construction |
| Bars.AggregateSumsUp | src/us_intraday_lab/paper/market_data.py:181-199 | Of its fifteen minutes in order: the open of the first, the close of the last, greatest high, least low, the sum of all volumes, available with the last to arrive, the id made of theirs |
| Bars.VolumeOfTwo | src/us_intraday_lab/paper/market_data.py:198 | The volume of two lists of bars together is the sum of their volumes |
| Bars.NewBarFills | src/us_intraday_lab/paper/market_data.py:175-186 | A new minute can complete only its own bucket |
| Resample.ResampleMinuteBars | src/us_intraday_lab/data/resample.py:46-142 | Bars outside the session are refused; otherwise one row for every complete interval, by symbol and time, of which `Resample.BatchRowSumsUp` says what is in it |
| Resample.BatchRowSumsUp | src/us_intraday_lab/data/resample.py:109-131 | A row sums up fifteen official minutes from a boundary on: first open, last close, greatest high, least low, the sum of the volumes |
| Resample.CoveredHasRow | src/us_intraday_lab/data/resample.py:109-131 | Fifteen official minutes from a boundary on have a row, when no minute has two bars |
| Resample.BatchInOrder | src/us_intraday_lab/data/resample.py:140-142 | Rows go by symbol and time, none twice |
| Resample.CompleteIffEmitted | src/us_intraday_lab/data/resample.py:32-43 | An interval is complete in the batch exactly when the pipeline emitted its bucket |
| Resample.IntervalIsComponents | src/us_intraday_lab/data/resample.py:109-131 | The sorted rows of a full interval are the very bars the pipeline aggregated |
| Resample.StreamIsInBatch | src/us_intraday_lab/data/resample.py:109-131 | Every emitted bar is a row of the batch with the same open, high, low, close and volume, available no earlier |
| Resample.BatchIsInStream | src/us_intraday_lab/data/resample.py:109-131 | Every row of the batch was emitted |

## Left out

- Events, the equity curve, metrics and artifacts of a backtest: records without influence on the run.
- `force_close`: it cancels reservations before it may raise, and the engine never calls it.
- Input normalisation, hashing, feature computation and the exchange calendar: their results are inputs here.
- Exact-type, field-name, container and unknown-node checks of the validator: they are the types of the model.
- Issue paths and messages: issues are codes, and the node count and the width of a group, one code in the program, are told apart.
- Creating sessions, incidents, reconciliations and strategy states in the store: tables no recovery reads.
- SQLite itself: locking, pragmas, migrations, unique columns of tables other than the ones searched here.
- The 16 hexadecimal digits of the state hash in a checkpoint id: the model puts the whole digest there.
- The operation budget of the null tests and its logarithm: it bounds work, not results.
- Building strategy definitions from selected tuples and deduplicating them by content hash.
- Market-data health, provider diagnostics and the broker stream: one-branch reports and input/output.
- Floating-point rounding: arithmetic is over `real`.
- NullScoring.ScoreSequence: the evaluation order is computed where it is used instead of being kept in the plan.
- Scenarios.RunScenario: on data with a mispriced row it says what can fail, not that it does, because whether the row finds its symbol flat or long depends on the whole run before it (the exact condition of one row is `SignalLaws.OnSignalSteady`); nothing is promised about the state of a run that raises, because the program abandons it.
- MarketData.MarketDataPipeline.Ingest: a pipeline is not followed beyond a provider-id conflict, after which its memory and its store disagree.
