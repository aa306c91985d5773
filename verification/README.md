# A verified model of the risk manager

The risk manager listens to gateways, counts every fill once into per-account and per-user positions, writes every
accepted trade to a database, and on each timer sends the positions that changed, together with their configured limits,
stamped with the sequence number they are valid at. This project models that machine in Dafny and proves what holds of
every run of it. `dafny verify dfyconfig.toml` checks all files.

## How it is laid out

Everything that the program updates in place is a class (`Position`, `Owner`, `Book`, `Registry`, `TradeTable`,
`Controller`, `Program`, the control `Manager` and `Session`, the funds `Table`, the consumed configuration `Entries`). Each method
is proved to be one step of a function on values. `Machine.dfy` puts these functions together: a `State`, the events, the
next state and the set of messages that an event sends. The theorems about runs quantify over every start state, every
sequence of events and every index into it. `Host.dfy` ties the two levels: a controller object with a ghost trace of its
events and messages is always in the state that the machine reaches on that trace, and has sent exactly the machine's
messages, so every theorem about runs holds of every controller object.

| file | contents |
|---|---|
| `Sums.dfy`, `Order.dfy`, `Types.dfy` | sums over finite maps; orderings; shared values |
| `Position.dfy`, `Registry.dfy`, `Book.dfy` | one position; interned instruments; all owners of one kind with their dirty sets |
| `Ledger.dfy`, `PositionQuery.dfy`, `TradeQuery.dfy`, `Funds.dfy` | the trade table and its queries; the funds table |
| `Machine.dfy`, `Controller.dfy`, `Host.dfy` | the state machine, the controller object, the controller with its history |
| `Reachability.dfy` | the invariant of every reachable state |
| `Gating.dfy`, `Publication.dfy`, `Snapshot.dfy` | who is sent what, and when |
| `Effects.dfy` | what each event does, exactly |
| `Tracking.dfy`, `Composition.dfy`, `Agreement.dfy`, `Restart.dfy` | positions through whole runs, snapshots that compose, agreement with the table |
| `Failures.dfy` | runs in which what is published is wrong |
| `Config.dfy`, `LimitsEndToEnd.dfy` | the parser, and limits from the file to the message |
| `Control.dfy`, `System.dfy` | sessions of the control service; controller and control service together |

Accounts and users are two instances of `Book`: `risk/account.cpp` and `risk/user.cpp`, and the two halves of
`shared.hpp` and `shared.cpp`, are the same code over different tables. Hash-map iteration is a loop that picks any
remaining element, so every result holds for every iteration order. Quantities are exact real numbers.

## What turned out to be false

- The design note promises the gateway limits around current positions. A position that is loaded from the database
  reports the loaded net only until the first fill is counted; that fill replaces the loaded net instead of adding to it,
  because loading sets long and short but not the running quantity. `Agreement.PublishedNetMatchesLedger` gives the exact
  condition under which the published net is right, `Restarts.RestartLosesBaseline` the exact shortfall after a restart,
  and `Composition.SnapshotsCompose` the exact condition under which two messages differ by the fills between them.
  `Failures.BaselineIsLost` and `Failures.SnapshotsDoNotCompose` are runs in which they are wrong.
- The position queries have no outer GROUP BY. `PositionQueries.RowIsRightExactly` gives the exact condition under which
  the one row they return is the position it names, and `PositionQueries.TwoUsersAreMixed` an instance where it is not.
  `Restarts.RestartRecoversExactly` gives the exact condition under which a restart loads the net of every configured
  owner, and `Failures.ForeignNetIsLoaded` an instance where it loads somebody else's.
- The loaded time is that of an arbitrary group, so a trade that the table holds may be counted when it is delivered
  again. `Restarts.UpToDateExactly` gives the exact condition under which this cannot happen,
  `Agreement.LedgerRefinesLivePosition` says by how much table and position then differ, and
  `Failures.RedeliveredIsCountedTwice` is such a run.
- A timer serves all ready sources in turn, but the first one drains everything. `Publication.SentToExactly` says which
  source is sent what, and `Failures.SecondSourceGetsNothing` is a run in which a ready source gets nothing.
- A control session that is upgraded after it was disconnected is subscribed and due for removal at once.
  `Control.RunIsExactExactly` says that this is the only way to break the bookkeeping, and
  `Control.LateUpgradeIsInexact` is such a run.

## Model

| member | source | states |
|---|---|---|
| `Agreement.LedgerRefinesLivePosition` | src/roq/risk_manager/controller.cpp:104-145 | from any start with nothing counted, in every reachable state, the BUY total minus SELL total of the exchange rows of an owner and instrument is its value at start-up plus the live quantity, less the start rows younger than the loaded time that were delivered again; the table keeps the last row by primary key, the position the first fill by trade id, and a repeated trade id must repeat its fields |
| `Agreement.LedgerNet` | src/roq/risk_manager/database/sqlite/trades.cpp:387-444 | the same for the whole table, with any manual corrections written during the run: its net is the live quantity plus what is retained from the start and from the corrections |
| `Agreement.RunKeepsParts` | src/roq/risk_manager/control/session.cpp:362-409 | in every run the exchange rows are the start rows with the accepted trades merged in, and the manual rows the start rows with the corrections written to them; neither kind touches the other |
| `Agreement.PublishedNetMatchesLedger` | src/roq/risk_manager/risk/position.cpp:21-41 | from any start with nothing counted, published long minus short equals the table's net if and only if what the table retains equals the loaded net, as long as nothing has been counted, or is zero, once something has |
| `Agreement.AccountsAndUsersHoldTheSame` | src/roq/risk_manager/controller.cpp:115-117 | when every accepted trade names a configured account and user and a trade id fixes both, the sum of an instrument's quantities over all accounts equals the sum over all users in every reachable state |
| `Agreement.InsertMirrors` | src/roq/risk_manager/database/sqlite/trades.cpp:387-414 | one fill counted by first trade id and written by primary key keeps the position's ids and total equal to those of the delivered rows |
| `Agreement.OverwrittenIsRedelivered` | src/roq/risk_manager/database/sqlite/trades.cpp:215-224 | a row of the start is overwritten in a run exactly when it is younger than the loaded time and its trade id is delivered |
| `Agreement.SeenByBoth` | src/roq/risk_manager/risk/position.cpp:35-37 | a fill is known to its account exactly when it is known to its user |
| `Restarts.RestartRecovers` | src/roq/risk_manager/controller.cpp:268-284 | when all trades in the table are of one owner of a kind and in one instrument, whoever else took part in them, and some are buys, start-up loads that owner's net from the table, and no row is younger than the loaded time |
| `Restarts.RestartRecoversExactly` | src/roq/risk_manager/database/sqlite/trades.cpp:286-314 | for every table and configuration, trades of owners that are not configured included: whatever the queries answer, start-up loads the net of every configured owner of a kind in every instrument if and only if all trades are of one configured owner and instrument and some are buys, or no configured owner has a net, and then all trades together net to zero or no configured owner has a buy |
| `Restarts.UpToDateExactly` | src/roq/risk_manager/controller.cpp:273 | for every table: whatever the queries answer, no row is younger than the loaded time, if and only if for every row after time zero there is one of the three queries all of whose groups have a trade at that time or later |
| `Restarts.StartUpNet` | src/roq/risk_manager/controller.cpp:268-284 | for every table: the owner and instrument that the answer names is loaded with the net of the whole table, every other with nothing |
| `Restarts.StartUpLongShort` | src/roq/risk_manager/database/sqlite/trades.cpp:286-314 | for every table: long and short of the owner and instrument that the answer names are the BUY total and the SELL total of the whole table, those of every other are zero |
| `Restarts.StartUpHeld` | src/roq/risk_manager/controller.cpp:268-284 | after start-up exactly the positions that the answers name are there, of configured owners |
| `Restarts.LoadedAccountIsSent` | src/roq/risk_manager/controller.cpp:197-230 | after a restart, the first timer after Ready of a connection on which the account was downloaded sends both totals of the whole table for the account and instrument that the answer names, unless a trade in it came first |
| `Restarts.LoadedUserIsSent` | src/roq/risk_manager/controller.cpp:233-266 | the same for the user that the answer names |
| `Restarts.RestartLosesBaseline` | src/roq/risk_manager/risk/position.cpp:21-24 | after a restart that is sure to know the whole table, once a fill of an owner and instrument has been counted, in every run its published net falls short of the table's net by exactly the exchange net at the restart and the manual net now; without corrections, by the net at the restart |
| `Restarts.FromEmptyTableAgrees` | src/roq/risk_manager/controller.cpp:104-145 | from an empty table, in every run, the published net of every configured owner and instrument is the running quantity, and the table's net is that plus the manual corrections |
| `Restarts.LoadRowView` | src/roq/risk_manager/controller.cpp:269-282 | a loaded row sets long to its long quantity and short to its short quantity in the position it names, if its owner is configured, changes nothing else of it, and changes no other position |
| `Failures.BaselineIsLost` | src/roq/risk_manager/risk/position.cpp:21-41 | a table with one buy of 1 at time 1, a restart, a buy of 1 at time 2: for every answer of the queries 1 was loaded, the table holds 2, and 1 is published |
| `Failures.SnapshotsDoNotCompose` | README.md:9-11 | on that table, two messages of one connection around the new trade do not differ by the fills stamped between them |
| `Failures.RedeliveredIsCountedTwice` | src/roq/risk_manager/database/sqlite/trades.cpp:27-79 | a table with two instruments, an answer with the older one, and the younger trade delivered again: the position counts it, and the table's net is not its start value plus the live quantity |
| `Failures.ForeignNetIsLoaded` | src/roq/risk_manager/controller.cpp:118-141 | an account bought and sold 1, and one that is not configured bought 5: the queries may answer such that the first, which is flat, is loaded with 5 |
| `Composition.SnapshotsCompose` | README.md:9-11 | of two messages on one connection, the later net is the earlier net plus the signed sum of the first-seen accepted fills stamped between their sequence numbers, if and only if there was no loaded baseline, or something had been counted before the first message, or nothing before the second |
| `Composition.SendContents` | src/roq/risk_manager/controller.cpp:197-230 | every published entry names the pair its id was assigned to and carries the position of that owner and instrument as it stands, and its configured limit |
| `Composition.MessageSeparates` | src/roq/risk_manager/controller.cpp:191-195 | the sequence number of a message separates the stamped events before it from those after it on the connection |
| `Composition.RunNets` | src/roq/risk_manager/risk/position.cpp:30-49 | in every reachable state the published net is the running quantity once anything was counted and the loaded net until then |
| `Publication.NoLostUpdate` | src/roq/risk_manager/shared.hpp:53-71 | in every reachable state, what was last sent about a position is current, or the instrument waits in the owner's dirty set |
| `Publication.LastSentIsCurrent` | src/roq/risk_manager/controller.cpp:34-44 | right after a timer with a ready source, the last message about every position ever sent is current |
| `Publication.TradedIsSent` | src/roq/risk_manager/risk/account.cpp:26-29 | right after a timer with a ready source, every position that a trade has reached has been sent, and as it stands |
| `Publication.TradedIsWaitingOrSent` | src/roq/risk_manager/shared.hpp:163-174 | a position that a trade has reached waits or has been sent, in every later state |
| `Publication.TimerStep` | src/roq/risk_manager/controller.cpp:37-43 | a timer sends a position exactly when it waits and some source is ready, sends it as it stands, and then it no longer waits; without a ready source nothing changes |
| `Publication.QuietStep` | src/roq/risk_manager/risk/account.cpp:31-41 | no event but a timer changes a position without making it wait, or stops it from waiting |
| `Publication.SentToExactly` | src/roq/risk_manager/controller.cpp:37-43 | with any number of sources, a waiting position is sent to a ready source if and only if no source before it is ready |
| `Failures.SecondSourceGetsNothing` | src/roq/risk_manager/controller.cpp:232-233 | two sources get ready and a timer fires: the user's position goes to the first, and the second, ready as well, gets no message |
| `Snapshots.FullAccountSnapshot` | src/roq/risk_manager/controller.cpp:64-74 | every position an account has at its first DownloadEnd of a connection is sent, as it then stands, by the first timer after that connection's Ready |
| `Snapshots.FullUserSnapshot` | src/roq/risk_manager/controller.cpp:76-86 | every position a user has at Ready is sent, as it then stands, by the first timer after it |
| `Snapshots.SessionOfConnection` | src/roq/risk_manager/controller.cpp:49-53 | a source is not ready and an account not latched on account of events of an earlier connection |
| `Gating.SendsAreGated` | src/roq/risk_manager/controller.cpp:34-44 | with any number of sources, a message is sent only by a timer, to a source whose Ready was not followed by Disconnected, stamped with the session id and sequence number of the latest stamping event of that source, which is not before that Ready; no source before it is ready |
| `Gating.ReadyExactly` | src/roq/risk_manager/controller.cpp:76-86 | a source is ready if and only if the latest of its Ready and Disconnected events is Ready |
| `Gating.FirstReadyGetsAll` | src/roq/risk_manager/controller.cpp:37-43 | the sends of a timer are those to the first ready source, and later sources get nothing |
| `Gating.SessionStep` | src/roq/risk_manager/controller.cpp:191-195 | how each event changes what is known of one source, for every source |
| `Reachability.RunOk` | src/roq/risk_manager/shared.hpp:185-200 | in every run ids stay a bijection, position keys and dirty sets hold known ids, every position carries the limit configured for its owner and pair and is netted, and nothing is dropped, renamed or forgotten |
| `Reachability.DrainSkipsNothing` | src/roq/risk_manager/shared.hpp:57-69 | in every run the drain finds the instrument of every waiting id and the owner itself, so only ids without a position are left out |
| `Reachability.NextOk` | src/roq/risk_manager/controller.cpp:34-145 | every handler keeps that invariant and only grows the state |
| `Reachability.InitialOk` | src/roq/risk_manager/controller.cpp:18-29 | start-up establishes the invariant with nothing counted, nothing waiting, no session, and a last time not before any loaded row |
| `Reachability.LoadRowsOk` | src/roq/risk_manager/controller.cpp:268-284 | loading any rows keeps the invariant, counts nothing, marks nothing and only raises the last time |
| `Tracking.RunCountsUpdates` | src/roq/risk_manager/risk/account.cpp:31-41 | in every reachable state a position is its start value with exactly the accepted updates of its owner and instrument counted into it, whatever id the instrument got |
| `Tracking.RunsWithSameFillsAgree` | src/roq/risk_manager/risk/position.cpp:30-41 | two runs that bring the same set of fills to an owner and instrument leave the same position, however they are ordered, grouped, repeated or interleaved |
| `Tracking.PositionStep` | src/roq/risk_manager/controller.cpp:104-117 | an event changes a position only by counting an accepted trade of that owner and instrument |
| `Effects.TradedExactly` | src/roq/risk_manager/controller.cpp:104-145 | an update with a create time after the loaded time is written and handed on in full, whatever its side; any other changes no instrument, position or row and hands nothing on |
| `Effects.HandedFields` | src/roq/risk_manager/controller.cpp:121-138 | each fill is handed on with every column of its update and of itself |
| `Effects.WrittenFields` | src/roq/risk_manager/database/sqlite/trades.cpp:387-414 | the row of a fill: its primary key and every other column |
| `Effects.KnownExactly` | src/roq/risk_manager/shared.cpp:49-63 | an instrument becomes known exactly by reference data, or by an accepted trade of a configured account or user |
| `Effects.HeldExactly` | src/roq/risk_manager/controller.cpp:89-98 | a position comes into being exactly by an accepted trade of its owner in its instrument, or, for every configured owner, by reference data with a trade volume; none ever goes |
| `Effects.ReferencedIsInSnapshot` | src/roq/risk_manager/controller.cpp:89-98 | every instrument that had reference data with a trade volume before Ready is in the first message after it, for every user |
| `Effects.WaitingExactly` | src/roq/risk_manager/shared.hpp:163-174 | what waits after an event: what waited, unless a timer found a ready source, and what a trade, an account's first download on a connection or a source getting ready makes wait, and nothing else |
| `Effects.SentHasCause` | src/roq/risk_manager/controller.cpp:34-44 | nothing is sent without a cause: every entry of every message goes back to a trade, a first download or a Ready, since which no timer has found a ready source |
| `Positions.FillSetDeterminism` | src/roq/risk_manager/risk/position.cpp:30-41 | when trade ids determine their fills, update sequences with the same set of fills leave a new position in the same state |
| `Positions.CountUpdatesSettles` | src/roq/risk_manager/risk/position.cpp:32-41 | that state holds every id, the sum over the set of fills, and that sum netted into long or short |
| `Positions.CountFillsAddsFirstSeen` | src/roq/risk_manager/risk/position.cpp:32-39 | counting adds exactly the ids of the fills and the signed sum of those not seen before, and keeps the limit |
| `Positions.CountFillsKeepsNetted` | src/roq/risk_manager/risk/position.cpp:39-41 | after any counted fill long minus short is the quantity, both are non-negative and one is zero; without a new id nothing changes |
| `Positions.Position.OnTradeUpdate` | src/roq/risk_manager/risk/position.cpp:30-49 | the loop over the fills is the fold that the lemmas above describe |
| `Positions.Position.OnDatabasePosition` | src/roq/risk_manager/risk/position.cpp:21-24 | long and short are set to the two loaded values; ids, quantity and limit are as before |
| `Positions.Position.constructor` | src/roq/risk_manager/risk/position.cpp:15-19 | a new position has its limit and nothing else |
| `Registries.InternKeepsBijection` | src/roq/risk_manager/shared.cpp:49-63 | looking up a pair keeps ids 1..n in one-to-one correspondence with the known pairs, changes no id, adds at most that pair, and looking it up again changes nothing |
| `Registries.StoredIdsAreExact` | src/roq/risk_manager/shared.hpp:186-187 | an id survives its signed 32-bit table, and is not mistaken for "not assigned", if and only if the counter is below 2^32 |
| `Registries.Registry.GetInstrumentId` | src/roq/risk_manager/shared.cpp:49-55 | the id of a pair, newly assigned exactly when the pair was unknown |
| `Registries.Registry.GetInstrument` | src/roq/risk_manager/shared.cpp:57-63 | the same with the instrument created under its id |
| `Books.Owner.FindOrCreate` | src/roq/risk_manager/risk/account.cpp:33-39 | the position of an id, created with the given limit only when missing; every other position is untouched |
| `Books.Owner.OnTradeUpdate` | src/roq/risk_manager/risk/account.cpp:26-41 | the update is counted into that position only |
| `Books.Owner.OnDatabasePosition` | src/roq/risk_manager/risk/account.cpp:16-19 | the loaded quantities go into that position only |
| `Books.Owner.OnReferenceData` | src/roq/risk_manager/risk/account.cpp:21-24 | the position exists afterwards, and existing ones are unchanged |
| `Books.Book.constructor` | src/roq/risk_manager/shared.cpp:14-21 | one owner under its own name per configured name, nothing waiting |
| `Books.Book.OnTradeUpdate` | src/roq/risk_manager/risk/user.cpp:26-41 | one owner's position counts the update with the configured limit and waits; all other owners and dirty sets are as before |
| `Books.Book.OnDatabasePosition` | src/roq/risk_manager/risk/user.cpp:16-19 | one owner's position is loaded; nothing waits that did not |
| `Books.Book.OnReferenceData` | src/roq/risk_manager/controller.cpp:94-96 | every owner has the position afterwards, for any order of visiting them |
| `Books.Book.PublishInstrument` | src/roq/risk_manager/shared.hpp:163-165 | one id is added to one dirty set |
| `Books.Book.PublishAll` | src/roq/risk_manager/shared.cpp:84-88 | all known ids are added to one dirty set, for any order |
| `Books.Book.PublishAllOwners` | src/roq/risk_manager/controller.cpp:84-85 | the same for every owner |
| `Books.Book.Collect` | src/roq/risk_manager/shared.hpp:57-68 | lists, in some order and each once, exactly the waiting ids that have an instrument and a position, with the position's values |
| `Books.Book.DrainOwner` | src/roq/risk_manager/shared.hpp:53-71 | the same, and then exactly that owner's dirty set is empty |
| `Ledger.LastWriteWins` | src/roq/risk_manager/database/sqlite/trades.cpp:387-414 | after a batch the row of a key is that of its last insert, or the old row when it was not inserted, and no other key appears |
| `Ledger.LastCorrectionWins` | src/roq/risk_manager/database/sqlite/trades.cpp:416-444 | the same for a batch of corrections, with the primary key, the clock for a zero time, and all columns written out |
| `Ledger.CorrectionMovesNet` | src/roq/risk_manager/database/sqlite/trades.cpp:416-444 | a correction moves the net of its account and of its user in its instrument by its signed quantity, less that of the row it replaces |
| `Ledger.CorrectionMovesNoOther` | src/roq/risk_manager/database/sqlite/trades.cpp:416-444 | a correction moves no other net |
| `Ledger.TradesAndCorrectionsCommute` | src/roq/risk_manager/database/sqlite/trades.cpp:387-444 | at one clock value a batch of trades and a batch of corrections give the same table in either order, and neither touches rows of the other kind |
| `Ledger.TotalsSplitByType` | src/roq/risk_manager/database/sqlite/trades.cpp:215-224 | every total is the total of the exchange rows plus that of the manual rows |
| `Ledger.TradeTable.Insert` | src/roq/risk_manager/database/sqlite/trades.cpp:387-414 | row by row, the batch insert of the lemmas above |
| `Ledger.TradeTable.Correct` | src/roq/risk_manager/database/sqlite/trades.cpp:416-444 | row by row, the batch of corrections of the lemmas above |
| `PositionQueries.JoinHasNoFanOut` | src/roq/risk_manager/database/sqlite/trades.cpp:27-79 | the full outer join has exactly one row per group that has trades |
| `PositionQueries.GroupJoinSums` | src/roq/risk_manager/database/sqlite/trades.cpp:138-189 | that row holds, coalesced, the group's BUY sum and SELL sum |
| `PositionQueries.OuterSumIsTotal` | src/roq/risk_manager/database/sqlite/trades.cpp:82-136 | the outer sums are the BUY and SELL totals of all rows considered, for each of the three groupings |
| `PositionQueries.TotalsWrittenOut` | src/roq/risk_manager/database/sqlite/trades.cpp:82-136 | what each query reports, written out: the sums over all trades of a side, for the strategy query over those with a strategy, and NULL without any |
| `PositionQueries.OneKeyTotals` | src/roq/risk_manager/database/sqlite/trades.cpp:27-79 | a table with one group yields exactly that group's totals, whatever its quantities and sides |
| `PositionQueries.UserAndAccountTotalsCoincide` | src/roq/risk_manager/database/sqlite/trades.cpp:286-314 | the query by user and the query by account report the same long and short for every table |
| `PositionQueries.AnswerExists` | src/roq/risk_manager/database/sqlite/trades.cpp:286-314 | each position query has an answer for every table, so the statements about its answers are not empty |
| `PositionQueries.RowIsRightExactly` | src/roq/risk_manager/database/sqlite/trades.cpp:28-76 | for every table, whatever row the query returns is the position of the group it names, if and only if there are trades, every group has a BUY, and there is one group only or every group sums to zero on both sides |
| `PositionQueries.PositiveRowIsRightExactly` | src/roq/risk_manager/database/sqlite/trades.cpp:28-76 | with positive quantities, any one returned row is right if and only if the table holds one group and that group has a BUY |
| `PositionQueries.TwoUsersAreMixed` | src/roq/risk_manager/database/sqlite/trades.cpp:28-76 | two users with one BUY each: no row the query may return is right, and a named one reports both users' total |
| `TradeQueries.SummaryAgreesWithTrades` | src/roq/risk_manager/database/sqlite/trades.cpp:255-284 | the trade count of an account is the length of its trade query, and its times are those of the query's first and last rows |
| `TradeQueries.CountsCoverTable` | src/roq/risk_manager/database/sqlite/trades.cpp:255-284 | the trade counts of all accounts sum to the size of the table |
| `TradeQueries.ListingExists` | src/roq/risk_manager/database/sqlite/trades.cpp:316-383 | the trade query has an answer for every table, so the statements about its answers are not empty |
| `TradeQueries.TradesAreListed` | src/roq/risk_manager/database/sqlite/trades.cpp:316-383 | the query lists exactly the trades of the account at the start time or later, each once, in lexicographic order of account and then by time; an empty account and a zero time do not filter |
| `TradeQueries.SummariesExist` | src/roq/risk_manager/database/sqlite/trades.cpp:255-284 | the account summary has an answer for every table |
| `FundsTables.FundsQueryIsLatest` | src/roq/risk_manager/database/sqlite/funds.cpp:67-131 | after any history of inserts and for every filter, one row per matching account and currency, the one of greatest time with the newest insert winning ties, in strictly increasing order |
| `FundsTables.FundsRowIsNewest` | src/roq/risk_manager/database/sqlite/funds.cpp:135-157 | every queried row passes the filter and holds time, balance, hold and external account of the newest insert with the greatest time, a zero time standing for the clock and a NaN hold for none |
| `FundsTables.FundsAreCovered` | src/roq/risk_manager/database/sqlite/funds.cpp:67-131 | every insert that passes the filter has a row for its account and currency |
| `FundsTables.FundsAreInOrder` | src/roq/risk_manager/database/sqlite/funds.cpp:109-111 | the rows are in lexicographic order of account and currency |
| `FundsTables.FundsExist` | src/roq/risk_manager/database/sqlite/funds.cpp:109-111 | the funds query has an answer for every table and filter |
| `FundsTables.FilterInsideIsFilterOutside` | src/roq/risk_manager/database/sqlite/funds.cpp:89-98 | filtering inside the grouped sub-select equals filtering the unfiltered result |
| `FundsTables.LatestTracksTable` | src/roq/risk_manager/database/sqlite/funds.cpp:37-41 | the latest-value map agrees with the table after any history |
| `FundsTables.BatchExtendsHistory` | src/roq/risk_manager/database/sqlite/funds.cpp:155-156 | a batch is that many inserts at one clock value |
| `FundsTables.Table.Insert` | src/roq/risk_manager/database/sqlite/funds.cpp:135-157 | row by row, the batch insert above |
| `Configs.Parse` | src/roq/risk_manager/config.cpp:151-156 | a well-typed tree is accepted if and only if it has symbols, no other root key than accounts and users, and only known fields in every leaf; then the result is what the tree says |
| `Configs.AcceptedExactly` | src/roq/risk_manager/config.cpp:76-136 | what is accepted, written out down to the five keys of a leaf |
| `Configs.RoundTrip` | src/roq/risk_manager/config.cpp:95-113 | whatever symbols, account limits and user limits are written to a tree under their key names are what is read from it |
| `Configs.ParseLimits` | src/roq/risk_manager/config.cpp:76-136 | the section is consumed, and rejected exactly when some level is not a table or some leaf has an unknown field |
| `Configs.ParseLeaf` | src/roq/risk_manager/config.cpp:95-117 | the five fields are consumed once each, each into its own place; anything left over rejects; missing fields keep their defaults |
| `Configs.ParseSymbols` | src/roq/risk_manager/config.cpp:52-74 | a text or an array of texts is accepted, an absent entry or a table is not |
| `Configs.Entries.FindAndRemove` | src/roq/risk_manager/config.cpp:36-50 | the entry is returned and exactly that key is gone |
| `Configs.LimitsAgreeWithTree` | src/roq/risk_manager/shared.cpp:68-82 | looking a limit up in the parsed maps gives the leaf at that path of the tree, with defaults where the path or a field is absent, and the owners are the entries of the section |
| `Configs.CreateLimits` | src/roq/risk_manager/shared.cpp:23-36 | the copy, entry by entry in any order, equals the original |
| `LimitsEndToEnd.PublishedLimitsAreConfigured` | src/roq/risk_manager/controller.cpp:201-213 | in every run, each of the five fields of every published entry is the field of that name at accounts or users, owner, exchange, symbol of the parsed tree, with defaults where the field or the path is absent, and its owner is configured |
| `LimitsEndToEnd.Serve` | src/roq/risk_manager/config.cpp:141-156 | parse the tree, copy both sections, build the controller and hand it any events: it starts exactly on the accepted trees, sends exactly the machine's messages, and every entry of every message carries the limit written in the tree |
| `LimitsEndToEnd.Launch` | src/roq/risk_manager/shared.cpp:40-47 | a controller is built exactly from the accepted trees, and starts from what the tree says |
| `LimitsEndToEnd.MessagesAreConfigured` | src/roq/risk_manager/controller.cpp:201-225 | every entry of every message handed to the dispatcher, in whatever order, carries the limit at its path of the tree |
| `Controllers.Controller.Create` | src/roq/risk_manager/controller.cpp:18-29 | the new controller is in the machine's initial state |
| `Controllers.Controller.LoadPositions` | src/roq/risk_manager/controller.cpp:268-284 | the loop over the rows is the machine's load |
| `Controllers.Controller.OnTimer` | src/roq/risk_manager/controller.cpp:34-44 | the next state of the machine, and a batch that carries each of its messages exactly once, in any order |
| `Controllers.Controller.OnDisconnected` | src/roq/risk_manager/controller.cpp:49-53 | everything known of that source is forgotten, latch included; books, instruments and table are as before |
| `Controllers.Controller.OnDownloadBegin` | src/roq/risk_manager/controller.cpp:55-62 | the source gets the stamp of the event and nothing else changes |
| `Controllers.Controller.OnDownloadEnd` | src/roq/risk_manager/controller.cpp:64-74 | the stamp is taken; a named account not yet latched on this connection is latched and all known ids wait for it; otherwise nothing else changes |
| `Controllers.Controller.OnReady` | src/roq/risk_manager/controller.cpp:76-86 | the stamp is taken; a source that was not ready becomes ready and all known ids wait for every user |
| `Controllers.Controller.OnReferenceData` | src/roq/risk_manager/controller.cpp:89-98 | the step that `Effects.KnownExactly`, `Effects.HeldExactly` and `Effects.WaitingExactly` describe: the instrument is known, every owner gets a position in it exactly when the trade volume is a number, nothing waits that did not |
| `Controllers.Controller.OnTradeUpdate` | src/roq/risk_manager/controller.cpp:104-145 | the step that the lemmas above describe; the trades handed on are those written to the table, all of them exactly when the create time is after the loaded time |
| `Controllers.Controller.Correct` | src/roq/risk_manager/control/session.cpp:407 | corrections change the table and nothing else |
| `Controllers.PublishBook` | src/roq/risk_manager/controller.cpp:233-266 | every owner is drained, in any order, into at most one message, and exactly the waiting positions are sent |
| `Controllers.PublishOwner` | src/roq/risk_manager/controller.cpp:199-228 | one message if something waits for the owner, none otherwise |
| `Hosts.Host.Dispatch` | src/roq/risk_manager/controller.cpp:34-145 | a controller object stays in the state that the machine reaches on its trace of events, and has sent exactly the machine's messages for each |
| `Hosts.Host.SentAsTheMachine` | src/roq/risk_manager/controller.cpp:226-262 | what a controller object has handed to the dispatcher at each event is the machine's set of messages, each once |
| `Hosts.Host.AlwaysAgreesWithLedger` | src/roq/risk_manager/controller.cpp:104-145 | the ledger theorem, corrections included, for every controller object after any events |
| `Hosts.Host.AlwaysOk` | src/roq/risk_manager/shared.hpp:185-200 | the reachable-state invariant, for every controller object after any events |
| `Control.OrderlyRunsAreExact` | src/roq/risk_manager/control/manager.cpp:89-107 | in every run without a late upgrade, subscribers are exactly the held ready sessions and zombies exactly the held zombie sessions |
| `Control.ExactIsKept` | src/roq/risk_manager/control/session.cpp:128-148 | a step keeps that if and only if it is not the upgrade of a zombie |
| `Control.RunIsExactExactly` | src/roq/risk_manager/control/session.cpp:128-148 | both sets are exact throughout a run if and only if no held zombie is upgraded in it |
| `Control.LateUpgradeIsInexact` | src/roq/risk_manager/control/session.cpp:136-148 | connect, disconnect, upgrade leaves a session both subscribed and due for removal |
| `Control.TradeReachesTheReady` | src/roq/risk_manager/control/manager.cpp:64-73 | in every run a trade is delivered once to every ready session and to no other |
| `Systems.FillsReachTheReady` | src/roq/risk_manager/controller.cpp:121-138 | in every run of controller and control service together, every fill of an accepted update is delivered to every ready session once and in the order of the update, and to no other session |
| `Systems.SubscriberGetsStream` | src/roq/risk_manager/control/manager.cpp:64-73 | a session that is ready and not disconnected in between is delivered exactly the fills of the accepted updates in between, in order |
| `Systems.SubscriberMirrorsTable` | src/roq/risk_manager/controller.cpp:136-141 | whoever writes what such a session is delivered to the exchange rows as they were has the exchange rows as they are, corrections or not |
| `Systems.PartsRunAlone` | src/roq/risk_manager/controller.cpp:18-36 | in every run of the system each part does what it does alone: the controller on its events, the control service on its own, the timers, and one for every fill handed to it |
| `Systems.Program.Dispatch` | src/roq/risk_manager/controller.cpp:34-145 | a program object, controller and control service together, stays in the state that the system reaches on its trace of events |
| `Systems.Program.OnGateway` | src/roq/risk_manager/controller.cpp:120-141 | the trades that the controller hands on go to the control service one by one, and the messages are the machine's |
| `Systems.Program.OnTick` | src/roq/risk_manager/controller.cpp:34-36 | a timer drives the cleanup of the control service and the publication |
| `Control.GoneStaysGone` | src/roq/risk_manager/control/manager.cpp:77-81 | a session id that has been removed never comes back |
| `Control.CleanupsAreApart` | src/roq/risk_manager/control/manager.cpp:56-62 | any two executed cleanup passes are more than one second apart |
| `Control.RunIsSound` | src/roq/risk_manager/control/manager.cpp:89-97 | in every run, late upgrades included, a held session is subscribed exactly when it is ready, and every zombie is marked for removal |
| `Control.SessionsExactly` | src/roq/risk_manager/control/manager.cpp:56-107 | how every event changes every session: when it is held, in which phase, and which trade it is delivered |
| `Control.SetsExactly` | src/roq/risk_manager/control/manager.cpp:89-107 | how every event changes who is subscribed, who is marked for removal, and when the next pass is due |
| `Control.MarkedIsRemoved` | src/roq/risk_manager/control/manager.cpp:99-107 | in every run, a session that is marked before a due pass is not held after it, nor ever again |
| `Control.Manager.OnConnect` | src/roq/risk_manager/control/manager.cpp:77-81 | a new waiting session under the next id |
| `Control.Manager.OnUpgrade` | src/roq/risk_manager/control/manager.cpp:95-97 | the session is ready and subscribed |
| `Control.Manager.OnDisconnect` | src/roq/risk_manager/control/manager.cpp:89-93 | the session is a zombie, marked for removal and not subscribed |
| `Control.Manager.OnTimer` | src/roq/risk_manager/control/manager.cpp:56-62 | a pass runs exactly when the last one is due, and sets the next due time |
| `Control.Manager.RemoveZombies` | src/roq/risk_manager/control/manager.cpp:99-107 | exactly the marked sessions are gone and none is marked |
| `Control.Manager.OnTrade` | src/roq/risk_manager/control/manager.cpp:64-73 | each subscriber that is held gets the trade once, for any order; every session it delivers to is ready, which the session asserts |
| `Control.Session.OnTrade` | src/roq/risk_manager/control/session.cpp:106-112 | a ready session is delivered the trade and stays ready |

## Left out

- HTTP and WebSocket serving, routing, JSON, and upgrades that fail: input and output over libraries.
- SQL text, escaping and SQLite itself: only tables, keys and the meaning of the queries are modelled. A NULL reads as an
  empty text, as the integer zero, and as NaN where a real number is expected (src/roq/third_party/sqlite/statement.cpp:169-185);
  an answer with such a number names nobody, so the model lets it be any number.
- Database writes that throw: every write is taken to succeed.
- `current_` and the conversion to internal quantities: they have no effect on anything published.
- Strategy positions and limits: the parser never fills them and no event reaches them. The strategy query is modelled.
- `compress`: it does nothing.
- The caches for position and funds updates by source: they delegate to library classes.
- Rounding: quantities, prices and limits are real numbers, and NaN is a separate value.
- Sides other than buy and sell, and the assertions that symbols and trade ids are not empty.
- Identifiers: ids, session ids and sequence numbers are unbounded; `Registries.StoredIdsAreExact` gives the bound for instrument ids.
- The two-level instrument lookup is one map keyed by the pair.
- TOML values of the wrong type: dereferencing a missing value is undefined, so `Configs.Parse` takes typed values for granted. Inner tables are values, and only the table being consumed is an object.
- Logging, settings, flags and process start-up.
- Snapshots.FullAccountSnapshot: about one source, because the program does not support several gateways; `Gating.FirstReadyGetsAll` says what several sources get.
- Snapshots.FullUserSnapshot: about one source, for the same reason.
- Composition.SnapshotsCompose: about one source, for the same reason.
