# PowerBridge: trading engine and EasyLanguage front end, verified

This project models the two cores of the repository and proves what they are for.

**The order/fill engine.** A strategy is driven bar by bar. The engine keeps a signed position, a
first-in-first-out queue of entry prices, a queue of entry sizes and labels, a ledger of closed
trades with running statistics, an append-only fill log, a running equity peak, and five kinds of
protective stop, some of whose levels move while a bar is walked. The auditor replays the fill log on
its own. `EngineModel`, `StopWalk` and `EngineRun` define what every step does to a state value;
`FillEngine` and `BarLoop` are the program's object and loop, with in-place updates, each method
proved to take the object to exactly that state. The theorems are about every tape of bars and every
strategy, a strategy being an arbitrary outcome (orders, risk settings, or an exception) on every bar.
What the steps are for is said in terms of their own beside them: what an order leaves of the position
(`Verbs`) and does to the accounts (`Accounts`), what a protective level is worth in money
(`StopMoney`), when a bar trades, a session ends and a setting changes (`Sessions`), and what equity,
open profit and excursions measure (`Valuation`).

**The EasyLanguage front end.** `Grammar` and `Statements` give the language as a precedence table and
statement rules; `Parser` is the recursive-descent parser with its cursor, proved to read exactly that;
`Emitter` and `Statements` also hold the reverse emitter, which drops parentheses and Begin/End where it
can. Parsing and emitting undo each other, exactly when no statement is one of the three that `Clear`
names, and the dangling-else test is exact; that no other program comes back by accident is a matter of
weight, what is read never weighing more than the tokens it was read from (`Weights`, `Overruns`,
`ReadBack`). Forms the emitter never prints have a meaning as well: `Values` gives trees a worth under
any values of their words, and says what signs, `points`, keywords called and other spellings read as;
`Semicolons` does it for statements. Around it: the character lexer and the long-line wrapper (`Lexer`,
`LexerGaps`, `Scanning`, `Layout`, `WrapTheorem`), comments, from their anchoring to the text that is
written (`Comments`, `CommentLayout`, `CommentPrinting`, `CommentText`, `CommentReading`,
`CommentTheorem`, `EmissionTheorem`, `EmittedInStep`), the generated code's storage of variables
(`Storage`, `StorageTheorem`, `Loops`, `CodeGen`), the lookback count, the reach it measures and the
warm-up reported (`Lookback`, `Reach`, `Warmup`). `TokenText`, `SourceText`, `WrittenPrograms` and
`ProgramText` join the two levels: a program and its comments are written as characters, wrapped, lexed
and parsed, and come back. `ConcreteRuns` holds runs on which a natural expectation fails.

## How the program is represented

- Prices and money are `real`. Rounding to single precision is the function `round` of `Config`; the
  conservation, log and drawdown theorems need it to be the identity (`Exact`), the fast-path
  theorems hold for any function. `eps` is a field of `Config` too, and the stop theorems set it to 0,
  where `abs(e - fav) < eps` reads as equality. Bars are well formed (`0 < low <= open, close <= high`)
  where a theorem needs it.
- The position fields and the money fields of the engine object are the components of its `book` and
  `ledger` fields. `gap` and `partials` in the ledger are history variables, read by nothing.
- A token stream is a list without positions; the end of input is the empty list. A syntax error is
  the failure of the parse. Keyword tables and declared names are a `Vocabulary` whose tables are
  inverse to each other (`Coherent`); a declared name does not shadow a position or platform keyword.
- Generated expressions are trees with an interpreter. Every primitive of a bar (data, operators,
  functions, truth, rounding) is an arbitrary function, and a missing name or list is an error.
  Statements that only evaluate (orders, plots, alerts) are one form whose values are recorded. Loops
  carry a fuel, the same on both sides, and the theorem holds for every fuel.
- The lexer leaves keyword or identifier to the word's text, so a token here is that text; `Meant`
  makes it the parser's token, by any table in which each printed keyword stands for itself
  (`KeywordTable`). A name is printed by any casing that lexes back to it (`Printable`).
- Where comments are printed, a statement is its pieces of code (a head, a condition, a simple
  statement's text) around its legs, each an arbitrary text that lexes without comments. `ProgramText`
  fills the pieces in with the text of a program's own expressions.
- `SampleIsCoherent` gives a vocabulary that meets `Coherent`, so the theorems are about something.

## Where the code and its comments disagree

- The comment on conditional fills says they follow the intrabar path. Orders on the same side are
  not sorted by price, so they do so exactly when they were queued nearest first
  (`PathOrderFollowsPath`, `FarStopFillsFirst`).
- After an uneven partial exit the engine's net profit and the auditor's differ
  (`ProfitsPartInARun`); `SaleKeepsAgreement` says exactly when they do not.
- Not every comment survives emission. A comment of several lines that leads the statement under two
  compact heads is torn when one of its lines does not look like a comment: the outer head is written
  into it. Two `//` runs that end up on one line read back as one. `EmissionReads` says these are the
  only ways, `NestedLeadIsTorn` and `RunsMerge` are the two families, `TornInput` and `MergedInput` the
  same on concrete programs.
- The lookback scan refuses a variable that reads past bars and is itself read back, or averaged, but only
  where it stands alone. Inside an expression it passes, and the number reported can be too small
  (`WindowedExpressionReadsMore`); `ReportIsFarthest` says when it is not.
- The internal market position is printed as `MarketPosition`. As the target of an assignment it comes
  back as that name, or not at all where that name is reserved (`AssignReads`).
- A name `crosses` that comes to stand before a name `above`, `over`, `below` or `under` is read with it
  as one keyword. `CrossesAboveMerges` gives a loop that is printed so; `BareSaysExactly` says that
  nothing else keeps a program's text from lexing to its tokens.
- Wrapping is not always invisible. A no-break space before a comment is a syntax error that wrapping
  removes (`OddGapIsRemoved`). The wrapper waits for one closing brace where the lexer counts them, so a
  comment left open on a line on which another closed is taken for code on its next line
  (`LeftOpenAgain`); where the two agree at the start of every line (`InStep`) nothing changes.
- The storage analysis tests whether a literal offset is 0, but the name is then walked as a series,
  so `x[0]` keeps a list all the same. An offset computed to 0 reads the seed instead of the current
  value (`ReadBackMeaning`).
- An offset inside a series argument is analysed outside series context and generated inside it. It
  means what it means elsewhere when the generated code is the same in both, which
  `SteadyExactly` decides: constants and inputs, but no variable and no price by its bare name. One
  that needs a variable without a list always raises (`OffsetInSeriesRaises`); a price is read as its
  whole column, a variable that has a list as that list.

## Model

| member | source | states |
|---|---|---|
| FillEngines.FillEngine.OpenOrAddLong | pl_transpiler/engine.py:560-591 | a long entry takes the whole engine state to the one the entry specification gives, average price, queue and position counters included |
| FillEngines.FillEngine.OpenOrAddShort | pl_transpiler/engine.py:593-621 | the same for a short entry, which always restarts the position profit |
| FillEngines.FillEngine.CloseLongFifo | pl_transpiler/engine.py:724-745 | a long exit pops the oldest contracts, books the gain against the average price, then re-averages the rest or records the trade and goes flat |
| FillEngines.FillEngine.CloseShort | pl_transpiler/engine.py:766-778 | a short exit always empties the position |
| FillEngines.FillEngine.ConsumeEntryQtys | pl_transpiler/engine.py:747-757 | the entry queue loses exactly the contracts sold, oldest first, labels in step |
| FillEngines.FillEngine.UpdateStats | pl_transpiler/engine.py:695-722 | the in-place aggregate update is the specified one, whose rescan meaning is RecordStatsIsRescan |
| FillEngines.FillEngine.FillOrder | pl_transpiler/engine.py:505-558 | the order verb decides between entering, reversing and closing, for every position |
| FillEngines.FillEngine.RecordFills | pl_transpiler/engine.py:490-503 | one log record for every contract the signed position moved |
| FillEngines.FillEngine.ExecutePendingFills | pl_transpiler/engine.py:385-448 | market orders fill at the open, then triggered ones in path order, and the queue is emptied |
| FillEngines.FillEngine.CheckMoneyManagementStops | pl_transpiler/_engine_stops.py:58-188 | the leg-by-leg walk with its ratcheting peak computes the specified walk, whose first-touch meaning is StopFillIsFirstTouch |
| FillEngines.FillEngine.CloseAtStop | pl_transpiler/_engine_stops.py:213-255 | closing at a stop is a full exit with its log record |
| FillEngines.FillEngine.BeforeBar | pl_transpiler/engine.py:200-255 | the bar prologue, fast path included, is the specified state change |
| FillEngines.FillEngine.UpdateDrawdown | pl_transpiler/engine.py:232-255 | the fold over the bar's equity points is the specified one, whose meaning is DrawdownIsMaxFall |
| FillEngines.FillEngine.AfterBar | pl_transpiler/engine.py:266-301 | orders are split into this close's and the next bar's, risk settings merged, the position marked |
| BarLoop.DriveBars | pl_transpiler/bar_loop.py:567-734 | driving the object over any tape leaves it in the state of the run that every run theorem speaks about |
| EngineTheorems.BookConservation | pl_transpiler/engine.py:560-621 | in every reachable state: contracts = length of the price queue, average price x contracts = its sum, positive entry quantities with a label each add up to the contracts, and at most the cap's number of entries is open |
| EngineTheorems.LedgerConservation | pl_transpiler/engine.py:759-795 | in every reachable state net profit = gross profit + gross loss = closed trades + the open position's part, and every closed position and every partial exit counts as one trade |
| EngineTheorems.MostHeldIsInTheLog | pl_transpiler/engine.py:560-621 | in every reachable state the most contracts ever held is the largest position, on either side, that any moment of the fill log shows |
| EngineTheorems.StatisticsAreRescan | pl_transpiler/engine.py:695-722 | in every reachable state the running counts, bar totals, largest win and loss and longest runs are what a rescan of all closed trades finds |
| EngineInvariants.RecordStatsIsRescan | pl_transpiler/engine.py:695-722 | one more trade: the incremental update equals the rescan of the longer ledger |
| EngineInvariants.EnterKeepsSound | pl_transpiler/engine.py:560-621 | an entry the cap allows keeps every invariant of book, ledger and statistics |
| EngineInvariants.ExitKeepsSound | pl_transpiler/engine.py:724-795 | so does any exit, partial or full |
| Verbs.OrderLeaves | pl_transpiler/engine.py:505-558 | any order in any reachable state: it changes nothing if it adds to the position with the cap's number of entries open; otherwise Buy leaves its quantity from short, else that much more, SellShort the mirror, Sell takes what there is to take of a long, BuyToCover all of a short, and one record is logged for each contract |
| Verbs.NothingHappensWhen | pl_transpiler/engine.py:505-558 | an order changes nothing if and only if it is a capped entry, a closing verb without its side to close, or no known verb |
| Verbs.NextBarOrderLeaves | pl_transpiler/engine.py:450-480 | the same for an order of the queue, quantity 0 being the whole position for a closing verb and one contract otherwise |
| Verbs.CloseOrderLeaves | pl_transpiler/engine.py:362-377 | the same for an order on the close, quantity 0 being one contract |
| Verbs.OrdersInEveryRun | pl_transpiler/engine.py:385-448 | on every bar of every run the position and the log go from order to order: the orders on the close at the closes they were given, the market orders at the open in the order queued, then what the bar triggers in path order |
| Verbs.EntryStarts | pl_transpiler/engine.py:560-621 | an entry restarts the peak and the clock, and begins a position unless it adds to one |
| Accounts.EntryTells | pl_transpiler/engine.py:560-621 | an entry adds its contracts, under its name, to what the position holds and its entry count, or begins a position with fresh excursions, size and realised profit; a short entry restarts the realised profit either way |
| Accounts.SaleTells | pl_transpiler/engine.py:724-757 | a sale of part of a long takes its oldest contracts, whoever's they are, leaves the mean of the rest as average entry and everything else of the position as it was |
| Accounts.OrderBooks | pl_transpiler/engine.py:724-792 | every order books each contract it takes from the position at what closing one there brings, as one trade won or lost, puts the position on record when none is left, and moves no money otherwise |
| Accounts.ConsumesOldest | pl_transpiler/engine.py:747-757 | consuming any number of contracts drops the owners of exactly the oldest |
| Accounts.BarsSinceEntry | pl_transpiler/engine.py:226-228 | after every trading bar of every run the clock of an open position counts the bars since its entry |
| EngineTheorems.RunIsFaithful | pl_transpiler/engine.py:48-155 | from a fresh engine, every tape and every strategy outcome keeps all invariants and the agreement with the replayed log |
| EngineTheorems.FillLogReplays | pl_transpiler/oracle.py:168-207 | after any run the log alone rebuilds the signed position and the FIFO book, no exit pops an empty book, fills = 2 x round turns + position, and FIFO profit is the log's cash flow plus the open book |
| EngineTheorems.ProfitAccountings | pl_transpiler/oracle.py:168-207 | the engine's average-price net profit = the FIFO net profit + point value x basis gap of partial exits; equal exactly when the gap is 0, hence on every run whose exits all empty the position |
| EngineLedgers.SaleKeepsAgreement | pl_transpiler/engine.py:724-745 | before a sale: two agreeing profits still agree after it if and only if it empties the position or takes contracts that cost what they cost on average |
| ConcreteRuns.ProfitsPartInARun | pl_transpiler/engine.py:729-740 | a run of four bars at whose end the two profits differ, for every point value and every cap but one |
| EngineLedgers.AgreementMeansNoGap | pl_transpiler/engine.py:724-745 | agreement is exactly a closed gap |
| Oracle.FifoProfitIsCashFlow | pl_transpiler/oracle.py:168-207 | for every log, FIFO profit = point value x (sold - bought + open longs - open shorts) |
| Oracle.ReplayNeverFails | pl_transpiler/oracle.py:168-207 | for every log no exit finds its book empty, and every record is an exit, its entry, or still open |
| Oracle.ReplayCloses | pl_transpiler/oracle.py:168-207 | a run of closing records realises the FIFO gain of exactly the oldest entries |
| Oracle.ReplayOpens | pl_transpiler/oracle.py:168-207 | a run of opening records appends its prices to the book |
| OracleReport.FillTradeTypes | pl_transpiler/oracle.py:115-137 | the labelling loop is the replay of the position from flat |
| OracleReport.LabelsMatchReplay | pl_transpiler/oracle.py:115-137 | its labels count exactly the replay's exits and its position is buys less sells |
| OracleReport.CountRoundTurns | pl_transpiler/oracle.py:246-248 | round turns are the replay's exits, and twice them plus the open contracts is the log's length |
| OracleReport.MatchFills | pl_transpiler/oracle.py:168-194 | the FIFO loop ends with the replayed books and profits and never fails |
| OracleReport.TradeSummary | pl_transpiler/oracle.py:194-207 | totals over the FIFO profits, and a drawdown that is the deepest fall of the closed-trade equity curve |
| FastPath.SkippedWorkIsIdentity | pl_transpiler/engine.py:184-222 | whenever the no-work test holds in a settled state, running the skipped body changes nothing, under any rounding |
| FastPath.FastPathIsExact | pl_transpiler/engine.py:200-222 | on every tape the run with the fast path is the run without it |
| FastPath.DrawdownIsMaxFall | pl_transpiler/engine.py:232-255 | the kept maximum drawdown is minus the deepest fall from an earlier to a later point of the whole run's equity path, though only a peak is kept and idle bars are skipped |
| EntryBar.EntryWalkStaysInBar | pl_transpiler/engine.py:244-264 | in every run, on the bar a position was entered the entry price is inside the bar and equity is measured along it and what is left of the path from the first segment that holds it |
| StopTheorems.SnapIsConservative | pl_transpiler/_engine_stops.py:190-211 | tick snapping moves a level away from the position, never past it |
| StopTheorems.RatchetStaysSafe | pl_transpiler/_engine_stops.py:126-184 | raising the peak at the favourable extreme never moves a level past the price that raised it |
| StopTheorems.WalkIsFirstTouch | pl_transpiler/_engine_stops.py:150-184 | walking on from any leg either finds the first touch or shows every later price safe |
| StopTheorems.StopFillIsFirstTouch | pl_transpiler/_engine_stops.py:134-184 | for every well-formed bar, position and setting the check fires exactly at the path's first touch of an active level, inside the bar, and holds exactly when there is none |
| StopTheorems.HeldPositionIsSafe | pl_transpiler/_engine_stops.py:134-188 | when the position stays open, stop-loss and target are strictly outside the bar and the close is strictly safe from every level at the carried peak |
| StopRuns.StopsInEveryRun | pl_transpiler/_engine_stops.py:58-188 | both statements hold at every bar of every run |
| StopMoney.StopsPay | pl_transpiler/_engine_stops.py:108-188 | in money: a stop-loss or trailing exit loses what is set and less than a tick more, a target earns what is set and less than a tick more, breakeven pays nothing, each within the position's point value and size, a gap only worse for a stop and better for a target; and while a position is held no price of the path makes any amount due |
| StopMoney.StopsPayInEveryRun | pl_transpiler/_engine_stops.py:58-188 | the same at every bar of every run |
| StopMoney.PathIsNearestFirst | pl_transpiler/_engine_stops.py:159-167 | the assumed path is open, the extreme nearest the open (the low on a tie), the other, close, the same for stops and for equity |
| StopMoney.ExtremeIsBest | pl_transpiler/_engine_stops.py:143-146 | the favourable extreme is where closing the position brings the most of all prices of the bar |
| StopTheorems.SnapForgives | pl_transpiler/_engine_stops.py:190-211 | a level within the tolerance of a whole number of ticks snaps to it, whichever way it is rounded |
| StopTheorems.SlackForgives | pl_transpiler/_engine_stops.py:153-158 | a level is taken for crossed at the open exactly when a price within the tolerance crosses it |
| StopTheorems.ReachedWithSlack | pl_transpiler/_engine_stops.py:168-174 | a leg reaches exactly the levels of its direction that lie on it or within the tolerance of it |
| StopTheorems.PeakForgives | pl_transpiler/_engine_stops.py:180-184 | a waypoint within the tolerance of the favourable extreme raises the peak as the extreme does |
| StopTheorems.MissingPricesAreTheClose | pl_transpiler/_engine_stops.py:114-118 | a bar without some of its prices is checked as if they were its close |
| Sessions.SessionsEnd | pl_transpiler/bar_loop.py:646-655 | in every run, told from dates and the setting alone: the first bar of a new date that may trade finds the session's position closed at the last close as an exit of the last bar, after the orders on the close; every other bar finds the engine as the last bar left it |
| Sessions.BarsTrade | pl_transpiler/bar_loop.py:631-664 | a bar that may trade does so once, with the number of bars seen, on the engine it finds; its outcome changes settings and queues only, and not before the last warm-up bar |
| Sessions.WarmUpNeverTrades | pl_transpiler/bar_loop.py:631-664 | no warm-up or history bar leaves a fill, a position or money |
| Sessions.LoopRemembers | pl_transpiler/bar_loop.py:631-664 | the loop's counters are the numbers of bars of the tape, its date that of the last bar, its close that of the last bar the strategy answered |
| Sessions.QueuesHoldTheBarsOrders | pl_transpiler/engine.py:266-291 | after a bar the strategy answered, what is queued is that bar's valid orders, split in order into those for its close, at its close and number, and all others |
| Sessions.ValidOrdersAreGiven | pl_transpiler/engine.py:278-278 | the valid orders are those given, each as often and in the order given |
| Sessions.OnePointSetting | pl_transpiler/engine.py:296-327 | a bar that writes one point setting changes the matching dollar setting, to that many points times the point value, and no other |
| Sessions.OneDollarSetting | pl_transpiler/engine.py:292-292 | a bar that writes one dollar setting, or the exit on close, changes that one and no other; none, none |
| Valuation.EquityIsLiquidation | pl_transpiler/engine.py:240-250 | equity at a price is the net profit after closing everything there |
| Valuation.OpenProfitIsWorth | pl_transpiler/engine.py:797-803 | open profit is what closing at the close would add |
| Valuation.MarkedAtTheClose | pl_transpiler/engine.py:292-294 | in every run net and open profit add up to what closing at the last answered bar's close would leave |
| Valuation.ExcursionsHoldTheBar | pl_transpiler/engine.py:630-646 | a bar widens the excursions to hold everything one contract was worth on it, and no further than its extremes |
| Valuation.TradeTells | pl_transpiler/engine.py:648-694 | the record of a closed position: its whole profit, the bars from entry to exit, excursions that hold the exit too |
| PendingOrders.TriggerMeaning | pl_transpiler/engine.py:398-428 | a conditional order triggers exactly when the bar holds an acceptable price, and fills at the open or its own price: limits no worse, stops no better |
| PendingOrders.PathOrderIsStableSort | pl_transpiler/engine.py:430-446 | execution order is the stable sort by open-satisfied first, near extreme first |
| PendingOrders.TouchLegMeaning | pl_transpiler/engine.py:430-446 | which leg of the path first satisfies a triggered order |
| PendingOrders.PathOrderFollowsPath | pl_transpiler/engine.py:430-446 | for every queue, the execution order follows the assumed path if and only if the orders triggered on one side after the open were queued by increasing distance from it |
| ConcreteRuns.FarStopFillsFirst | pl_transpiler/engine.py:430-446 | a run that logs the fill at 105 before the one at 103 on a leg rising from 100 |
| PendingOrders.PendingFillsInBar | pl_transpiler/engine.py:385-480 | every contract filled from the queue is priced inside the bar |
| PendingOrders.NoOrderOutlivesItsBar | pl_transpiler/engine.py:200-301 | after any trading bar of any run, what is queued was queued by that bar |
| Parsers.Parser.ParseComparison | pl_transpiler/_parser_expr.py:249-263 | the comparison loop reads exactly the level-4 grammar, infix crosses included |
| Parsers.Parser.ParseMultiplication | pl_transpiler/_parser_expr.py:273-287 | the product loop reads exactly the level-6 grammar |
| Parsers.Parser.ParseUnary | pl_transpiler/_parser_expr.py:289-305 | signs and `points` as the grammar has them |
| Values.UnaryMeans | pl_transpiler/_parser_expr.py:289-305 | on any tokens and under any values of words, leaves and calls: signs, a primary and a point word read as the primary's worth, negated once for each minus and made that many price moves (MinMove / PriceScale) by the point word, with nothing else read |
| Values.PointsAreTicks | pl_transpiler/_parser_expr.py:297-304 | every expression before a point word, whatever it is, is worth its own worth times MinMove / PriceScale |
| Values.SignsMean | pl_transpiler/_parser_expr.py:289-296 | `+e` is worth what `e` is, `-e` its opposite |
| Values.CallFormIsInfix | pl_transpiler/_parser_expr.py:349-372 | `Mod(a, b)`, `CrossesAbove(a, b)` and `CrossesBelow(a, b)` read as their infix forms read, operands in order |
| Values.CrossesTakesTwo | pl_transpiler/_parser_expr.py:349-358 | a crosses keyword called is an expression if and only if it has two arguments |
| Values.ParensMeanNothing | pl_transpiler/_parser_expr.py:318-323 | parentheses nobody needs leave the tree as it is |
| Values.DataCalledReads | pl_transpiler/_parser_expr.py:469-499 | `Close of Data(2)` is `Close of Data2` |
| Values.DataNumberIsWhole | pl_transpiler/_parser_expr.py:486-498 | and an error when the number is not a whole one |
| Values.CalledPositionReads | pl_transpiler/_parser_expr.py:432-453 | a position keyword called with one argument is the keyword indexed |
| Values.SymbolArgumentDropped | pl_transpiler/_parser_expr.py:455-467 | a symbol property is itself with any argument, with none, and without parentheses |
| Values.AbbreviationReads | pl_transpiler/_parser_expr.py:334-347 | a price abbreviation neither declared nor called is the word it shortens |
| Values.DeclaredReads | pl_transpiler/_parser_expr.py:334-347 | a declared one is itself |
| Values.UserNameShadows | pl_transpiler/_parser_expr.py:391-394 | a declared name without parentheses is that name, not the keyword it is spelled like |
| Values.CalledPositionStays | pl_transpiler/_parser_expr.py:391-394 | called, the keyword is the keyword |
| Values.SeriesOrCall | pl_transpiler/_parser_expr.py:398-403 | a series keyword is that series, and called a function of that name |
| Parsers.Parser.ParseIdentPrimary | pl_transpiler/_parser_expr.py:376-430 | the identifier cascade takes the branch the classification names, from any cursor |
| Parsers.Parser.TryParseDataOf | pl_transpiler/_parser_expr.py:469-499 | both spellings of a data-stream suffix, and no move when neither is there |
| Parsers.Parser.ParseIdentOrCall | pl_transpiler/_parser_expr.py:501-535 | calls, indexed calls, indexed names and plain names |
| Parsers.Parser.ParseAssignmentOrExpr | pl_transpiler/_parser_stmts.py:613-640 | the trial read with its backtrack |
| Parsers.Parser.ParseIf | pl_transpiler/_parser_stmts.py:141-173 | an Else is taken by the If whose then leg was just read |
| Parsers.Parser.ParseBlock | pl_transpiler/_parser_stmts.py:176-194 | the loop over Begin/End, stray semicolons skipped |
| Parsers.Parser.ParseRepeatUntil | pl_transpiler/_parser_stmts.py:248-258 | Repeat to Until |
| Parsers.Parser.EndStmt | pl_transpiler/parser.py:210-221 | a semicolon, left out only before Else |
| Parsers.Parser.ParseStatement | pl_transpiler/parser.py:258-353 | the statement dispatch reads exactly the statement grammar, for the statements that have syntax here |
| Parsers.Parser.ParseProgram | pl_transpiler/parser.py:224-233 | the whole-program loop reads exactly the program grammar of those statements, errors included |
| Semicolons.StraySemicolons | pl_transpiler/parser.py:224-233 | any number of semicolons too many between the statements of a program changes nothing |
| Semicolons.StrayInBlock | pl_transpiler/_parser_stmts.py:176-194 | nor inside Begin and End |
| Semicolons.StrayInRepeatFails | pl_transpiler/_parser_stmts.py:248-258 | between Repeat and Until one is an error |
| Semicolons.AssignedReads | pl_transpiler/_parser_stmts.py:613-640 | `=` and `:=` both assign to a name or an indexed name, `:=` alone to a call, and the semicolon may be left out before Else and nowhere else |
| ExprRoundTrip.ExpressionRoundTrip | pl_transpiler/codegen_el.py:301-440 | parsing the emitted tokens of any parser tree, before anything that cannot continue an expression, gives back that tree and that rest |
| ExprRoundTrip.InfixReads | pl_transpiler/codegen_el.py:325-336 | a left-associative operator with operands parenthesised only where precedence would regroup |
| ExprRoundTrip.OperandReads | pl_transpiler/codegen_el.py:325-336 | each operand, parenthesised or not, reads back at the level its parent needs |
| ParsedTrees.ParsedHasShape | pl_transpiler/_parser_expr.py:223-328 | every tree the expression parser returns, at any level, is one the round trip covers |
| Overruns.ReadsBackExactly | pl_transpiler/codegen_el.py:301-440 | before anything but an index or a data-stream suffix the round trip is exact: an emitted expression reads back if and only if no operator, point word or call of its last name follows |
| Overruns.Overrun | pl_transpiler/_parser_expr.py:223-328 | when it does not, the parse fails or takes some of what follows, a name, number or literal of it included |
| Weights.AtKeeps | pl_transpiler/_parser_expr.py:223-328 | at every precedence level, what an expression parse returns and what it leaves weigh no more than what it was given, on any tokens |
| Weights.StmtKeeps | pl_transpiler/parser.py:258-353 | the same for statements |
| Overruns.EmitOverruns | pl_transpiler/_parser_expr.py:289-305 | before a point word, or a parenthesis after a bare name, the parse takes some of what follows, through every operator above it |
| StmtRoundTrip.AssignReads | pl_transpiler/codegen_el.py:566-571 | an assignment, with `=` or `:=` as the target needs, reads back as itself if and only if its target is not spelled like the internal market position; then it assigns to the market position, or fails where that is reserved |
| StmtRoundTrip.ExprStmtReads | pl_transpiler/_parser_stmts.py:613-640 | an expression statement reads back as itself, unless its text begins `name =` or its first word is a reserved statement word: then at most as an assignment |
| Programs.StmtReads | pl_transpiler/codegen_el.py:529-636 | every well-formed statement reads back with the Begin/End flags its text shows, no Else captured or lost |
| ReadBack.StmtReadsExactly | pl_transpiler/codegen_el.py:529-636 | and exactly the clear ones do: a statement with a loop header that swallows part of its body, an expression statement that looks like something else or a renamed target anywhere in it never comes back by accident |
| Programs.ProgramRoundTrip | pl_transpiler/codegen_el.py:767-793 | so does every program |
| ReadBack.ProgramReadsExactly | pl_transpiler/codegen_el.py:767-793 | a program of the parser's shapes reads back if and only if every statement in it is clear |
| Programs.EmissionIsFixpoint | pl_transpiler/codegen_el.py:767-793 | emitting, parsing and emitting again gives the first text |
| Programs.HeaderReadsExactly | pl_transpiler/codegen_el.py:600-621 | the header of a one-statement loop reads back with its body untouched if and only if the body does not start with a sign, a point word, or a parenthesis after a bare name |
| Programs.MinusBodyJoins | pl_transpiler/codegen_el.py:612-621 | a compact loop body that begins with a sign is swallowed by its header |
| Programs.ParenBodyJoins | pl_transpiler/codegen_el.py:612-621 | one that begins with a parenthesis becomes the arguments of a header ending in a name |
| ParsedTrees.DanglesExactly | pl_transpiler/_codegen_el_layout.py:319-339 | before a foreign Else a statement reads back as itself if and only if it is clear and the dangling test says no |
| ParsedTrees.StmtSettles | pl_transpiler/parser.py:258-353 | a parsed statement is well formed, carries the flags its emission shows, and is never followed by an Else when it ends in an open Then |
| ParsedTrees.ParsedProgramsRoundTrip | pl_transpiler/parser.py:224-233 | parse, emit, parse is parse, exactly: what any token stream parses to reparses after emission to the very same program, flags included, if and only if that program is clear |
| CodeGens.CodeGen.GenExpr | pl_transpiler/codegen_expr.py:71-105 | the toggled series-context flag generates what the flag-passing translation does, and is put back |
| CodeGens.CodeGen.CollectHistoryVars | pl_transpiler/codegen.py:585-627 | the walk adds exactly the selected variables |
| CodeGens.CodeGen.AnalyseStorage | pl_transpiler/codegen.py:585-627 | the selection of a whole body |
| StorageTheorem.GenMeans | pl_transpiler/codegen_expr.py:637-648 | a generated expression evaluates to its meaning over full histories, in and out of series context, `and` and `or` cut short as they are |
| StorageTheorem.ReadBackMeaning | pl_transpiler/codegen_expr.py:637-648 | reading a list back `n` is the value `n` bars ago if and only if `n` is positive (or 0 while the seed is still there, or an error either way): a computed offset 0 reads the seed |
| StorageTheorem.BarAgrees | pl_transpiler/codegen.py:340-390 | one call of the generated function does what one bar of the simple semantics does and keeps the relation between what they store |
| StorageTheorem.StoragePreservesMeaning | pl_transpiler/codegen.py:420-438 | over all tapes and programs with literal offsets of variables and steady offsets in series arguments, slots plus the selected lists give the same locals, outputs and errors on every bar as full histories |
| StorageTheorem.SteadyExactly | pl_transpiler/codegen_expr.py:700-727 | which offsets are generated alike in and out of series context, and so may stand in a series argument |
| StorageTheorem.OffsetInSeriesRaises | pl_transpiler/codegen_expr.py:700-727 | a series call with an offset that needs a variable without a list raises on every bar |
| StorageTheorem.OffsetIsNotSelected | pl_transpiler/codegen.py:603-619 | the analysis gives no list to a variable an offset merely names |
| StorageTheorem.RedeclarationReloads | pl_transpiler/codegen_stmt.py:112-136 | a redeclared list variable loses the bar's assignments, exactly when they changed it |
| Loops.CountingLoopVisits | pl_transpiler/codegen_stmt.py:178-190 | a loop that acts on its counter acts on every whole number between its bounds, both included, upwards or with DownTo downwards |
| Loops.LoopsContain | pl_transpiler/codegen_stmt.py:178-213 | Break and Continue end at the loop they stand in |
| Loops.AssignedReadsBack | pl_transpiler/codegen_stmt.py:310-372 | a variable reads as what was assigned to it, in single precision if it is a number kept so, and no other changes |
| Loops.WhileUnrolls | pl_transpiler/codegen_stmt.py:193-198 | a While with passes left is an If around its body and itself |
| Loops.RepeatIsWhile | pl_transpiler/codegen_stmt.py:201-213 | a Repeat is its body once and then a While of what its condition denies |
| Loops.LogicalMeans | pl_transpiler/codegen_expr.py:183-200 | `and` is as true as both operands, `or` as either, and the right one may be an error where the left decides |
| Lexer.Tokenise | pl_transpiler/lexer.py:110-279 | the index loop yields the tokens and comments of the recursive definition |
| Scanning.CrossesReads | pl_transpiler/lexer.py:211-240 | `crosses`, any blanks and a word, in any case of letters: one keyword, above for above and over, below for below and under, and two words for any other |
| Scanning.WordsRead | pl_transpiler/lexer.py:211-240 | a letter, underscore or `#` and the letters, digits, underscores and dots after it are one word, in small letters |
| Scanning.WholeNumbersRead | pl_transpiler/lexer.py:204-209 | digits are one number, unless a dot and more digits follow |
| Scanning.DecimalsRead | pl_transpiler/lexer.py:204-209 | in that case all of it is |
| Scanning.PairsRead | pl_transpiler/lexer.py:242-247 | the five two-character signs |
| Scanning.SignsRead | pl_transpiler/lexer.py:249-266 | a single sign that begins neither one of these nor a comment |
| Scanning.BlanksSkipped | pl_transpiler/lexer.py:152-155 | spaces, tabs, returns and newlines are skipped |
| Scanning.NothingElseReads | pl_transpiler/lexer.py:267-274 | any other character is an error |
| Scanning.CommentEndsAtBalance | pl_transpiler/lexer.py:157-175 | a brace comment ends at the first place where every brace is closed, and is an error if and only if there is none |
| LexerGaps.GapUnseen | pl_transpiler/lexer.py:151-279 | after closed code any blank text may stand for any other, `crosses above` split across it included |
| LexerGaps.LexSplits | pl_transpiler/lexer.py:151-279 | text that cannot finish a two-word keyword is lexed on its own after closed code |
| Layout.SplitAtoms | pl_transpiler/_codegen_el_layout.py:104-131 | the atom loop computes the atoms |
| Layout.FindCommentStart | pl_transpiler/_codegen_el_layout.py:163-183 | the comment scan, string literals skipped |
| Layout.WrapOneLine | pl_transpiler/_codegen_el_layout.py:134-160 | greedy filling |
| Layout.WrapEveryLine | pl_transpiler/_codegen_el_layout.py:186-217 | the line loop with its open-comment flag |
| Layout.WrapLineFits | pl_transpiler/_codegen_el_layout.py:134-160 | every segment fits the width or is one atom after its tabs |
| Layout.WrapLineIsGreedy | pl_transpiler/_codegen_el_layout.py:134-160 | a broken line keeps its atoms in order, breaks only where the next atom does not fit, and sets every later segment one tab deeper |
| Layout.CodeFitsAHundred | pl_transpiler/_codegen_el_layout.py:134-160 | code without comments is left alone up to 100 characters and brought down to that wherever it can be broken |
| WrapTheorem.WrapLineUnseen | pl_transpiler/_codegen_el_layout.py:134-160 | a wrapped line lexes like the line, in every context that ends blank |
| WrapTheorem.WrapIsUnseen | pl_transpiler/_codegen_el_layout.py:186-217 | wrapping a whole text on which wrapper and lexer agree where comments are open, nested ones included, changes no token, no comment text and no error, if and only if every gap that is dropped before a comment is blank to the lexer or the wrapped text is an error too |
| WrapTheorem.OddGapIsRemoved | pl_transpiler/_codegen_el_layout.py:186-217 | a no-break space before a comment: an error as it stands, fine once wrapped |
| WrapTheorem.LeftOpenAgain | pl_transpiler/_codegen_el_layout.py:186-217 | a comment opened and left open on a line that closes another: wrapping changes its text |
| Lookback.NeedIsMonotone | pl_transpiler/lookback.py:357-419 | knowing more only raises what an expression reads |
| Lookback.Scan.Settle | pl_transpiler/lookback.py:265-279 | the bounded loop stops through a round that changes nothing if and only if some counts cover every assignment, and with the least such counts; without cyclic dependencies it always does |
| Reach.NeedIsFarthest | pl_transpiler/lookback.py:357-419 | the count of the least cover is the farthest bar an expression reaches, reach being a relation of its own: an offset adds its bars, a window any number up to its length, a name goes on into its assignments |
| Reach.OffsetOfWindow | pl_transpiler/lookback.py:378-395 | `Highest(High, 10)[1]` reads 11 bars |
| Warmup.ReportIsFarthest | pl_transpiler/lookback.py:430-470 | a warm-up of the number reported holds every bar any expression of the program reaches, and that far back is reached unless a variable is read back for its own history, whenever no offset or window goes back over an expression with a variable that itself reads past bars |
| Warmup.CountsAreReported | pl_transpiler/lookback.py:357-419 | then no variable needs more than the number reported, cyclic programs included |
| Warmup.WindowedExpressionReadsMore | pl_transpiler/lookback.py:400-411 | `X = Close[5]; Y = Average(X + 1, 10);` is reported as 10 and reaches 15 bars back |
| Lookback.CoverSettles | pl_transpiler/lookback.py:265-279 | if a cover exists, more rounds than there are assigned variables reach one, cyclic or not |
| Lookback.CyclicCanSettle | pl_transpiler/lookback.py:265-279 | a variable that depends on itself and settles |
| Lookback.LeastCoverSolves | pl_transpiler/lookback.py:265-279 | the least cover gives each variable exactly the most that one of its assignments reads |
| Lookback.SelfWindowHasNoCover | pl_transpiler/lookback.py:265-279 | a variable averaged over its own past never settles |
| Comments.AnchorComments | pl_transpiler/_codegen_el_layout.py:249-288 | each place ends up holding exactly the comments that belong there, sorted by line and column |
| Comments.PlaceMeaning | pl_transpiler/_codegen_el_layout.py:249-288 | a comment goes to a place if and only if it belongs there: the last statement on its line, the first of the nearest after it, before all lines, or after all |
| Comments.CommentsConserved | pl_transpiler/_codegen_el_layout.py:249-288 | what the places hold, in emission order, is the comments of the source, none dropped and none twice |
| CommentPrinting.CommentLines | pl_transpiler/_codegen_el_layout.py:291-310 | the lines of comments at an indentation |
| CommentPrinting.InlineLeg | pl_transpiler/codegen_el.py:478-508 | joining a statement to the head of its compact leg on lists of lines is the specified pasting, comment lines moved up |
| CommentPrinting.EmitStatement | pl_transpiler/codegen_el.py:511-526 | a statement with its leading and trailing comments |
| CommentPrinting.StatementLines | pl_transpiler/codegen_el.py:573-636 | compact and block legs, Else legs and Repeat |
| CommentLayout.LegIsDeeper | pl_transpiler/codegen_el.py:573-636 | a leg between Begin and End stands one tab deeper than its head, comments included |
| CommentPrinting.EmitProgram | pl_transpiler/codegen_el.py:767-793 | header, statements and footer as one text |
| CommentReading.UnitsRead | pl_transpiler/lexer.py:151-279 | lines of code and whole comments read one by one, whatever surrounds them |
| CommentReading.UnitsDiffer | pl_transpiler/lexer.py:151-279 | a torn comment, or a comment after a run on its line, does not read back |
| CommentTheorem.ProgramSound | pl_transpiler/codegen_el.py:478-508 | no comment is torn or swallowed if and only if no comment with a plain-looking line opens a compact leg and only the last of the comments sharing a last line is a run |
| LexerGaps.NotesAreWhole | pl_transpiler/lexer.py:151-279 | what the lexer collects are whole comments, the ones every theorem here is about |
| EmissionTheorem.EmissionReads | pl_transpiler/codegen_el.py:767-793 | under that condition, and only then, the emitted text lexes to the tokens of the program without comments and to its comments in order |
| EmissionTheorem.EmissionConserves | pl_transpiler/codegen_el.py:767-793 | so every comment of the source reads back once, with at most its later lines reindented |
| EmissionTheorem.WrittenReads | pl_transpiler/codegen_el.py:767-793 | and the same after wrapping, where wrapper and lexer agree on the text |
| EmittedInStep.EmittedStaysInStep | pl_transpiler/_codegen_el_layout.py:186-217 | they agree on every emitted text whose comments are not torn, hold a closing brace on their last line only, and of which only the first at the end of a statement has several lines |
| EmittedInStep.WrittenTextReads | pl_transpiler/codegen_el.py:767-793 | so under those conditions on the comments what is written reads back as the program's own tokens and all its comments |
| EmissionTheorem.NestedLeadIsTorn | pl_transpiler/codegen_el.py:478-508 | a comment of two lines between two compact heads and their statement does not read back |
| EmissionTheorem.RunsMerge | pl_transpiler/codegen_el.py:478-508 | a run after a compact head and one after its statement read back as one |
| EmissionTheorem.TornInput | pl_transpiler/codegen_el.py:478-508 | the first on a program of three lines and a comment of two |
| EmissionTheorem.MergedInput | pl_transpiler/codegen_el.py:478-508 | the second on a program of two lines |
| SourceText.ExprReads | pl_transpiler/codegen_el.py:339-440 | the text of an expression, character by character, lexes to the tokens the emitter is specified to print, holds no comment, and begins as code |
| ProgramText.HeadReads | pl_transpiler/codegen_el.py:573-621 | so does the head of every compound statement |
| ProgramText.BuildDepicts | pl_transpiler/codegen_el.py:529-636 | the pieces of text of every printable program make a well-formed layout that stands for it |
| WrittenPrograms.TextIsUnmerged | pl_transpiler/lexer.py:151-279 | no text without comments lexes to a name `crosses` before a second word |
| WrittenPrograms.BareSaysExactly | pl_transpiler/codegen_el.py:767-793 | a program's text without comments lexes to its tokens if and only if these hold no such pair |
| WrittenPrograms.CrossesAboveMerges | pl_transpiler/codegen_el.py:612-621 | a loop whose tokens hold one |
| WrittenPrograms.EmittedProgramParses | pl_transpiler/codegen_el.py:767-793 | the emitted text with its comments lexes to the program's tokens and every comment, and parses to the program if and only if it is clear |
| ProgramText.ProgramComesBack | pl_transpiler/codegen_el.py:767-793 | the whole way: a program and its source's comments are anchored, written as characters, lexed and parsed; every comment comes back once, and the program if and only if it is clear |
| ProgramText.WrittenProgramComesBack | pl_transpiler/codegen_el.py:767-793 | the same through the wrapped text, which is what is written |

## Left out

- StopTheorems.StopFillIsFirstTouch: stated with a tolerance of 0; SlackForgives, ReachedWithSlack and SnapForgives say what the program's 1e-9 lets pass at the open, on a leg and when snapping, not what a whole walk does with it.
- StopTheorems.HeldPositionIsSafe: the same tolerance of 0.
- StopRuns.StopsInEveryRun: the same tolerance of 0.
- StopMoney.StopsPayInEveryRun: the same tolerance of 0, and exact arithmetic.
- EngineTheorems.BookConservation: stated for exact arithmetic; single-precision rounding of prices and averages would make the sums approximate.
- StorageTheorem.StoragePreservesMeaning: offsets of variables are literal, the code of an offset inside a series argument does not depend on where it stands, and a list variable is declared once; the lemmas beside it show what happens otherwise.
- WrapTheorem.WrapIsUnseen: asks that wrapper and lexer agree at the start of every line whether a comment is open; LeftOpenAgain shows why. On a text where they disagree the two readings may still coincide, and which do is not said. Digits and letters are the ASCII ones.
- EmissionTheorem.EmissionReads: the converse is shown for heads that hold no brace, not even in a string literal; the brace would end the torn comment early. Switch has no place in the trees.
- EmittedInStep.WrittenTextReads: asks of the comments that only their last line holds a closing brace and that at the end of a statement only the first has several lines; others can be written so that wrapper and lexer disagree.
- ProgramText.ProgramComesBack: a name is printed in one casing throughout, where the program keeps the casing of each occurrence; the lexer drops it either way.
- Lookback.Scan.Settle: refusals (unknown lengths, non-constant offsets, unknown functions) are taken as already made.
- Warmup.ReportIsFarthest: one way only. A program in which an offset or a window does go back over such an expression may still be reported right, when something else in it reads far enough.
- Parsers.Parser.ParseStatement: declarations, Switch, attributes, commentary, and order, risk, plot, alert and print statements have no syntax here; the statement parser fails on them.
- Parsers.Parser.ParseProgram: the same.
- Inverting generated Python back to EasyLanguage is not modelled.
- Source lines and columns of nodes, error messages and hints are not modelled.
- A call of a crosses keyword with other than two arguments is refused while parsing; the program refuses it in a later pass.
- Hidden histories of crosses operands and of price arguments, function calls with an offset, arrays and multi-output functions have no place in the storage model.
- Dates, times and signal texts beyond what decides a fill, the first version of the fill log, named exits, trace injection and the reporting words are not modelled.
- The strategy call itself, its per-bar arguments and the session helpers of the bar loop are the arbitrary outcome of a bar.
- Blank-line layout and the text of declarations blocks are not modelled.
