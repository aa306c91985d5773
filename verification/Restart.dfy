/** Start-up from the trade table: the position queries feed the controller, and what becomes of the loaded baseline. */
module Restarts {
  import opened Types
  import opened Sums
  import opened Positions
  import opened Registries
  import opened Books
  import opened Ledger
  import opened Machine
  import opened Reachability
  import opened Gating
  import opened Publication
  import opened Snapshots
  import opened Effects
  import opened Tracking
  import opened Composition
  import opened Agreement
  import opened PositionQueries

  // ---- what loading does to one position

  lemma LoadBookView(r: RegistryState, b: BookState, owner: string, row: LoadedRow, name: string, key: InstrumentKey)
    requires Bijective(r) && row.key in r.lookup && owner in b.owners
    ensures View(r, LoadBook(b, owner, r.lookup[row.key], row.key, row.long, row.short), name, key) ==
              if owner == name && row.key == key then LoadPosition(View(r, b, name, key), row.long, row.short)
              else View(r, b, name, key)
  {
  }

  lemma LoadIntoView(r: RegistryState, b: BookState, owner: string, row: LoadedRow, name: string, key: InstrumentKey)
    requires Bijective(r) && BookOk(b, r)
    ensures var (r', b') := LoadInto(r, b, owner, row);
            View(r', b', name, key) ==
              if owner == name && name != "" && name in b.owners && row.key == key
              then LoadPosition(View(r, b, name, key), row.long, row.short)
              else View(r, b, name, key)
  {
    if owner != "" && owner in b.owners {
      InternView(r, b, row.key, name, key);
      InternKeepsBijection(r, row.key);
      LoadBookView(Intern(r, row.key), b, owner, row, name, key);
    }
  }

  /** Looking an instrument up for another owner changes no view. */
  lemma OtherLoadView(r: RegistryState, b: BookState, other: BookState, owner: string, row: LoadedRow, name: string,
                      key: InstrumentKey)
    requires Bijective(r) && BookOk(b, r)
    ensures View(LoadInto(r, other, owner, row).0, b, name, key) == View(r, b, name, key)
  {
    if owner != "" && owner in other.owners {
      InternView(r, b, row.key, name, key);
    }
  }

  ghost predicate LoadsFor(s: State, row: LoadedRow, kind: Kind, name: string, key: InstrumentKey) {
    && row.key == key && name != "" && name in BookOf(s, kind).owners
    && name == match kind { case ByAccount => row.account case ByUser => row.user }
  }

  /** A row sets long and short of the position it is for, and nothing else of it; it changes no other position. */
  lemma LoadRowView(s: State, row: LoadedRow, kind: Kind, name: string, key: InstrumentKey)
    requires Uncounted(s)
    ensures var p, q := PositionOf(s, kind, name, key), PositionOf(LoadRow(s, row), kind, name, key);
            if LoadsFor(s, row, kind, name, key)
            then
              && q.longPosition == row.long && q.shortPosition == row.short
              && q.quantity == p.quantity && q.fills == p.fills && q.limit == p.limit
            else q == p
  {
    var (r, users) := LoadInto(s.registry, s.users, row.user, row);
    LoadIntoOk(s.registry, s.users, row.user, row);
    BookOkExtends(s.accounts, s.registry, r);
    match kind
    case ByAccount =>
      OtherLoadView(s.registry, s.accounts, s.users, row.user, row, name, key);
      LoadIntoView(r, s.accounts, row.account, row, name, key);
    case ByUser =>
      LoadIntoView(s.registry, s.users, row.user, row, name, key);
      OtherLoadView(r, users, s.accounts, row.account, row, name, key);
  }

  // ---- start-up from a table

  /** The rows that the three queries return, and the number that a NULL reads as. */
  datatype Answers = Answers(byUser: PositionRow, byStrategy: PositionRow, byAccount: PositionRow, nil: real)

  function OrNil(x: Option<real>, nil: real): real {
    match x
    case None => nil
    case Some(value) => value
  }

  /**
   A row of a position query as it is handed to the controller. A NULL reads as an empty text, and as NaN where a number
   is expected: `nil` is any value, as no result depends on it.
   */
  function Loaded(col: Grouping, row: PositionRow, nil: real): LoadedRow {
    var name := if row.group.Some? && row.group.value.owner.Name? then row.group.value.owner.name else "";
    LoadedRow(if col.GroupUser? then name else "", if col.GroupAccount? then name else "",
              if row.group.Some? then row.group.value.key else InstrumentKey("", ""),
              OrNil(row.long, nil), OrNil(row.short, nil), row.time)
  }

  /** The queries may return these rows. */
  ghost predicate Answer(table: Table, a: Answers) {
    && Selects(table, GroupUser, a.byUser)
    && Selects(table, GroupStrategy, a.byStrategy)
    && Selects(table, GroupAccount, a.byAccount)
  }

  function LoadedRows(a: Answers): seq<LoadedRow> {
    [Loaded(GroupUser, a.byUser, a.nil), Loaded(GroupStrategy, a.byStrategy, a.nil),
     Loaded(GroupAccount, a.byAccount, a.nil)]
  }

  function StartUp(accounts: Limits, users: Limits, sources: nat, table: Table, a: Answers): State {
    Initial(accounts, users, sources, table, LoadedRows(a))
  }

  function LimitsOf(accounts: Limits, users: Limits, kind: Kind): Limits {
    match kind
    case ByAccount => accounts
    case ByUser => users
  }

  function GroupingOf(kind: Kind): Grouping {
    match kind
    case ByAccount => GroupAccount
    case ByUser => GroupUser
  }

  function AnswerTo(a: Answers, col: Grouping): PositionRow {
    match col
    case GroupUser => a.byUser
    case GroupStrategy => a.byStrategy
    case GroupAccount => a.byAccount
  }

  function RowOf(a: Answers, kind: Kind): PositionRow {
    AnswerTo(a, GroupingOf(kind))
  }

  lemma LoadOne(s: State, a: LoadedRow)
    ensures LoadRows(s, [a]) == LoadRow(s, a)
  {
    assert [a][..0] == [];
  }

  lemma LoadThree(s: State, a: LoadedRow, b: LoadedRow, c: LoadedRow)
    ensures LoadRows(s, [a, b, c]) == LoadRow(LoadRow(LoadRow(s, a), b), c)
  {
    assert [a, b, c][..2] == [a, b] && [a, b][..1] == [a];
    LoadOne(s, a);
  }

  lemma LoadRowOk(s: State, row: LoadedRow)
    requires Uncounted(s)
    ensures Uncounted(LoadRow(s, row))
    ensures forall kind, name :: name in BookOf(LoadRow(s, row), kind).owners <==> name in BookOf(s, kind).owners
    ensures forall kind :: BookOf(LoadRow(s, row), kind).limits == BookOf(s, kind).limits
  {
    LoadOne(s, row);
    LoadRowsOk(s, [row]);
  }

  /** At most one of three rows is for this owner and instrument, and the others leave its position alone. */
  lemma LoadThreeView(s: State, a: LoadedRow, b: LoadedRow, c: LoadedRow, kind: Kind, name: string, key: InstrumentKey)
    requires Uncounted(s) && !LoadsFor(s, b, kind, name, key)
    requires !(LoadsFor(s, a, kind, name, key) && LoadsFor(s, c, kind, name, key))
    ensures name in BookOf(LoadRows(s, [a, b, c]), kind).owners <==> name in BookOf(s, kind).owners
    ensures var p := PositionOf(LoadRows(s, [a, b, c]), kind, name, key);
            if LoadsFor(s, a, kind, name, key) then p.longPosition == a.long && p.shortPosition == a.short
            else if LoadsFor(s, c, kind, name, key) then p.longPosition == c.long && p.shortPosition == c.short
            else p == PositionOf(s, kind, name, key)
  {
    LoadThree(s, a, b, c);
    var s1 := LoadRow(s, a);
    var s2 := LoadRow(s1, b);
    LoadRowOk(s, a);
    LoadRowOk(s1, b);
    LoadRowOk(s2, c);
    LoadRowView(s, a, kind, name, key);
    LoadRowView(s1, b, kind, name, key);
    LoadRowView(s2, c, kind, name, key);
  }

  lemma StartUpPosition(accounts: Limits, users: Limits, sources: nat, table: Table, a: Answers, kind: Kind, name: string,
                        key: InstrumentKey)
    requires name in LimitsOf(accounts, users, kind)
    ensures var s := StartUp(accounts, users, sources, table, a);
            var row := RowOf(a, kind);
            var p := PositionOf(s, kind, name, key);
            && name in BookOf(s, kind).owners
            && if name != "" && row.group == Some(GroupKey(Name(name), key))
               then p.longPosition == OrNil(row.long, a.nil) && p.shortPosition == OrNil(row.short, a.nil)
               else p.longPosition == 0.0 && p.shortPosition == 0.0
  {
    var rows := LoadedRows(a);
    LoadThreeView(Empty(accounts, users, sources, table), rows[0], rows[1], rows[2], kind, name, key);
  }

  lemma StartUpTime(accounts: Limits, users: Limits, sources: nat, table: Table, a: Answers)
    ensures var s := StartUp(accounts, users, sources, table, a);
            && Uncounted(s) && Fresh(s) && |s.sessions| == sources && s.table == table
            && 0 <= s.lastTime && forall col :: AnswerTo(a, col).time <= s.lastTime
  {
    var rows := LoadedRows(a);
    InitialOk(accounts, users, sources, table, rows);
    LoadThree(Empty(accounts, users, sources, table), rows[0], rows[1], rows[2]);
    forall col ensures AnswerTo(a, col).time <= StartUp(accounts, users, sources, table, a).lastTime {
      match col
      case GroupUser => assert rows[0].time == a.byUser.time;
      case GroupStrategy => assert rows[1].time == a.byStrategy.time;
      case GroupAccount => assert rows[2].time == a.byAccount.time;
    }
  }

  // ---- which positions are loaded

  lemma LoadBookHeld(r: RegistryState, b: BookState, owner: string, row: LoadedRow, name: string, key: InstrumentKey)
    requires Bijective(r) && row.key in r.lookup && owner in b.owners
    ensures HeldIn(r, LoadBook(b, owner, r.lookup[row.key], row.key, row.long, row.short), name, key) <==>
              HeldIn(r, b, name, key) || (owner == name && row.key == key)
  {
  }

  lemma LoadIntoHeld(r: RegistryState, b: BookState, owner: string, row: LoadedRow, name: string, key: InstrumentKey)
    requires Bijective(r) && BookOk(b, r)
    ensures var (r', b') := LoadInto(r, b, owner, row);
            HeldIn(r', b', name, key) <==>
              HeldIn(r, b, name, key) || (owner == name && name != "" && name in b.owners && row.key == key)
  {
    if owner != "" && owner in b.owners {
      InternKeepsBijection(r, row.key);
      InternHeld(r, b, row.key, name, key);
      LoadBookHeld(Intern(r, row.key), b, owner, row, name, key);
    }
  }

  lemma OtherLoadHeld(r: RegistryState, b: BookState, other: BookState, owner: string, row: LoadedRow, name: string,
                      key: InstrumentKey)
    requires Bijective(r) && BookOk(b, r)
    ensures HeldIn(LoadInto(r, other, owner, row).0, b, name, key) <==> HeldIn(r, b, name, key)
  {
    if owner != "" && owner in other.owners {
      InternHeld(r, b, row.key, name, key);
    }
  }

  /** Loading creates exactly the position that the row is for. */
  lemma LoadRowHeld(s: State, row: LoadedRow, kind: Kind, name: string, key: InstrumentKey)
    requires Uncounted(s)
    ensures Held(LoadRow(s, row), kind, name, key) <==> Held(s, kind, name, key) || LoadsFor(s, row, kind, name, key)
  {
    var (r, users) := LoadInto(s.registry, s.users, row.user, row);
    LoadIntoOk(s.registry, s.users, row.user, row);
    BookOkExtends(s.accounts, s.registry, r);
    match kind
    case ByAccount =>
      OtherLoadHeld(s.registry, s.accounts, s.users, row.user, row, name, key);
      LoadIntoHeld(r, s.accounts, row.account, row, name, key);
      assert Held(LoadRow(s, row), kind, name, key) <==>
               HeldIn(LoadRow(s, row).registry, LoadRow(s, row).accounts, name, key);
    case ByUser =>
      LoadIntoHeld(s.registry, s.users, row.user, row, name, key);
      OtherLoadHeld(r, users, s.accounts, row.account, row, name, key);
      assert Held(LoadRow(s, row), kind, name, key) <==>
               HeldIn(LoadRow(s, row).registry, LoadRow(s, row).users, name, key);
  }

  lemma LoadThreeHeld(s: State, a: LoadedRow, b: LoadedRow, c: LoadedRow, kind: Kind, name: string, key: InstrumentKey)
    requires Uncounted(s)
    ensures Held(LoadRows(s, [a, b, c]), kind, name, key) <==>
              || Held(s, kind, name, key) || LoadsFor(s, a, kind, name, key)
              || LoadsFor(s, b, kind, name, key) || LoadsFor(s, c, kind, name, key)
  {
    LoadThree(s, a, b, c);
    var s1 := LoadRow(s, a);
    var s2 := LoadRow(s1, b);
    LoadRowOk(s, a);
    LoadRowOk(s1, b);
    LoadRowHeld(s, a, kind, name, key);
    LoadRowHeld(s1, b, kind, name, key);
    LoadRowHeld(s2, c, kind, name, key);
  }

  /** After start-up exactly the positions that the answers name are there. */
  lemma StartUpHeld(accounts: Limits, users: Limits, sources: nat, table: Table, a: Answers, kind: Kind, name: string,
                    key: InstrumentKey)
    ensures Held(StartUp(accounts, users, sources, table, a), kind, name, key) <==>
              && name != "" && name in LimitsOf(accounts, users, kind)
              && RowOf(a, kind).group == Some(GroupKey(Name(name), key))
  {
    var rows := LoadedRows(a);
    LoadThreeHeld(Empty(accounts, users, sources, table), rows[0], rows[1], rows[2], kind, name, key);
  }

  // ---- what the queries say about one owner and instrument

  lemma RowsAreQuantities(table: Table, kind: Kind, name: string, key: InstrumentKey, side: Side)
    ensures RowsIn(table, GroupingOf(kind), side, GroupKey(Name(name), key))
         == Ledger.Quantities(table, side, kind, name, key)
  {
  }

  /**
   What start-up gives an owner and instrument: the BUY total and the SELL total of the whole table, if the answer names
   it, and nothing otherwise.
   */
  lemma StartUpLongShort(accounts: Limits, users: Limits, sources: nat, table: Table, a: Answers, kind: Kind,
                         name: string, key: InstrumentKey)
    requires Answer(table, a) && name in LimitsOf(accounts, users, kind)
    ensures var p := PositionOf(StartUp(accounts, users, sources, table, a), kind, name, key);
            if name != "" && RowOf(a, kind).group == Some(GroupKey(Name(name), key))
            then
              && p.longPosition == Sum(Rows(table, GroupingOf(kind), BUY))
              && p.shortPosition == Sum(Rows(table, GroupingOf(kind), SELL))
            else p.longPosition == 0.0 && p.shortPosition == 0.0
  {
    StartUpPosition(accounts, users, sources, table, a, kind, name, key);
    if RowOf(a, kind).group.Some? {
      NamedHasBuy(table, GroupingOf(kind), RowOf(a, kind));
    }
  }

  /** The net that start-up gives an owner and instrument: the whole table's if the answer names it, none otherwise. */
  lemma StartUpNet(accounts: Limits, users: Limits, sources: nat, table: Table, a: Answers, kind: Kind, name: string,
                   key: InstrumentKey)
    requires Answer(table, a) && name in LimitsOf(accounts, users, kind)
    ensures var s, col := StartUp(accounts, users, sources, table, a), GroupingOf(kind);
            && name in BookOf(s, kind).owners
            && NetOf(PositionOf(s, kind, name, key)) ==
                 if name != "" && RowOf(a, kind).group == Some(GroupKey(Name(name), key))
                 then Sum(Rows(table, col, BUY)) - Sum(Rows(table, col, SELL))
                 else 0.0
  {
    StartUpPosition(accounts, users, sources, table, a, kind, name, key);
    StartUpLongShort(accounts, users, sources, table, a, kind, name, key);
  }

  lemma AggregateIsLatest(table: Table, col: Grouping, k: PrimaryKey)
    requires k in table && Considered(k, col)
    ensures GroupOf(k, col) in Groups(table, col, table[k].side)
    ensures k.time <= Aggregate(table, col, table[k].side, GroupOf(k, col)).time
  {
    assert k in RowsIn(table, col, table[k].side, GroupOf(k, col));
  }

  /** A joined row is at least as late as every trade of its group. */
  lemma JoinIsLatest(table: Table, col: Grouping, k: PrimaryKey)
    requires k in table && Considered(k, col)
    ensures k.time <= RowFrom(table, col, GroupJoin(table, col, GroupOf(k, col))).time
  {
    AggregateIsLatest(table, col, k);
    match table[k].side
    case BUY =>
    case SELL =>
  }

  lemma AggregateIsBounded(table: Table, col: Grouping, side: Side, g: GroupKey, time: int)
    requires g in Groups(table, col, side) && forall k <- RowsIn(table, col, side, g) :: k.time <= time
    ensures Aggregate(table, col, side, g).time <= time
  {
    var rows := RowsIn(table, col, side, g);
    var k :| k in Rows(table, col, side) && GroupOf(k, col) == g;
    assert k in rows;
    MaxTimeIsBounded(rows.Keys, time);
  }

  /** A joined row is no later than the last trade of its group. */
  lemma JoinIsBounded(table: Table, col: Grouping, g: GroupKey, time: int)
    requires 0 <= time && forall k <- table | Considered(k, col) && GroupOf(k, col) == g :: k.time <= time
    ensures RowFrom(table, col, GroupJoin(table, col, g)).time <= time
  {
    if g in Groups(table, col, BUY) {
      AggregateIsBounded(table, col, BUY, g, time);
    }
    if g in Groups(table, col, SELL) {
      AggregateIsBounded(table, col, SELL, g, time);
    }
  }

  /** No query reports a time after the last trade. */
  lemma AnswerIsBounded(table: Table, col: Grouping, row: PositionRow, time: int)
    requires Selects(table, col, row) && 0 <= time && forall k <- table :: k.time <= time
    ensures row.time <= time
  {
    if Join(table, col) != {} {
      var j :| j in Join(table, col) && row == RowFrom(table, col, j);
      JoinIsIndexed(table, col, j);
      JoinIsBounded(table, col, NameOf(j), time);
    }
  }

  lemma StartUpTimeIsBounded(accounts: Limits, users: Limits, sources: nat, table: Table, a: Answers, time: int)
    requires 0 <= time && a.byUser.time <= time && a.byStrategy.time <= time && a.byAccount.time <= time
    ensures StartUp(accounts, users, sources, table, a).lastTime <= time
  {
    var rows := LoadedRows(a);
    LoadThree(Empty(accounts, users, sources, table), rows[0], rows[1], rows[2]);
  }

  // ---- the first message after a restart

  /** Without a trade, a position stays as it was. */
  lemma Untouched(s: State, es: seq<Event>, i: nat, kind: Kind, name: string, key: InstrumentKey)
    requires Ok(s) && i <= |es| && forall k | 0 <= k < i :: !TradesFor(s, es[k], kind, name, key)
    ensures PositionOf(At(s, es, i), kind, name, key) == PositionOf(s, kind, name, key)
  {
    for k := 0 to i
      invariant PositionOf(At(s, es, k), kind, name, key) == PositionOf(s, kind, name, key)
    {
      UntouchedStep(s, es, k, kind, name, key);
    }
  }

  lemma UntouchedStep(s: State, es: seq<Event>, k: nat, kind: Kind, name: string, key: InstrumentKey)
    requires Ok(s) && k < |es| && !TradesFor(s, es[k], kind, name, key)
    ensures PositionOf(At(s, es, k + 1), kind, name, key) == PositionOf(At(s, es, k), kind, name, key)
  {
    RunOk(s, es, k);
    TradesForFixed(s, At(s, es, k), es[k], kind, name, key);
    PositionStep(At(s, es, k), es[k], kind, name, key);
  }

  /** The message to source 0 at event `t` reports `long` and `short` for this owner and instrument. */
  ghost predicate ReportsPair(s: State, es: seq<Event>, t: nat, kind: Kind, name: string, key: InstrumentKey, long: real,
                              short: real)
    requires t < |es|
  {
    exists x, id :: x in SendsAt(s, es, t) && x.source == 0 && Addresses(x, kind, name, id) && x.limits[id].key == key
                    && x.limits[id].longPosition == long && x.limits[id].shortPosition == short
  }

  lemma SnapshotReports(s: State, es: seq<Event>, t: nat, kind: Kind, name: string, key: InstrumentKey, id: nat)
    requires Ok(s) && t < |es| && key in s.registry.lookup && s.registry.lookup[key] == id
    requires Snapshot(s, es, t, kind, name, id)
    requires forall k | 0 <= k < t :: !TradesFor(s, es[k], kind, name, key)
    ensures ReportsPair(s, es, t, kind, name, key, PositionOf(s, kind, name, key).longPosition,
                        PositionOf(s, kind, name, key).shortPosition)
  {
    var x :| x in SendsAt(s, es, t) && x.source == 0 && Addresses(x, kind, name, id);
    SendContents(s, es, t, x, id);
    RunOk(s, es, t);
    Untouched(s, es, t, kind, name, key);
    assert x.limits[id].key == key;
  }

  /**
   After a restart, the first message about the account and instrument that the answer names reports the BUY total and
   the SELL total of the whole table, unless a trade in it came first.
   */
  lemma LoadedAccountIsSent(accounts: Limits, users: Limits, table: Table, a: Answers, name: string, key: InstrumentKey,
                            es: seq<Event>, q: nat, r: nat, t: nat)
    requires Answer(table, a) && name != "" && name in accounts && a.byAccount.group == Some(GroupKey(Name(name), key))
    requires FirstTimer(es, 0, r, t) && q < t && Downloads(es[q], name) && forall k | 0 <= k < q :: !Downloads(es[k], name)
    requires forall k | 0 <= k < t :: !TradesFor(StartUp(accounts, users, 1, table, a), es[k], ByAccount, name, key)
    ensures ReportsPair(StartUp(accounts, users, 1, table, a), es, t, ByAccount, name, key,
                        Sum(Rows(table, GroupAccount, BUY)), Sum(Rows(table, GroupAccount, SELL)))
  {
    var s := StartUp(accounts, users, 1, table, a);
    StartUpTime(accounts, users, 1, table, a);
    StartUpHeld(accounts, users, 1, table, a, ByAccount, name, key);
    StartUpLongShort(accounts, users, 1, table, a, ByAccount, name, key);
    HeldUpTo(s, es, 0, q, ByAccount, name, key);
    FullAccountSnapshot(s, es, 0, q, r, t, name, s.registry.lookup[key]);
    SnapshotReports(s, es, t, ByAccount, name, key, s.registry.lookup[key]);
  }

  /** The same for the user that the answer names. */
  lemma LoadedUserIsSent(accounts: Limits, users: Limits, table: Table, a: Answers, name: string, key: InstrumentKey,
                         es: seq<Event>, r: nat, t: nat)
    requires Answer(table, a) && name != "" && name in users && a.byUser.group == Some(GroupKey(Name(name), key))
    requires FirstTimer(es, 0, r, t)
    requires forall k | 0 <= k < t :: !TradesFor(StartUp(accounts, users, 1, table, a), es[k], ByUser, name, key)
    ensures ReportsPair(StartUp(accounts, users, 1, table, a), es, t, ByUser, name, key,
                        Sum(Rows(table, GroupUser, BUY)), Sum(Rows(table, GroupUser, SELL)))
  {
    var s := StartUp(accounts, users, 1, table, a);
    StartUpTime(accounts, users, 1, table, a);
    StartUpHeld(accounts, users, 1, table, a, ByUser, name, key);
    StartUpLongShort(accounts, users, 1, table, a, ByUser, name, key);
    HeldUpTo(s, es, 0, r, ByUser, name, key);
    FullUserSnapshot(s, es, 0, r, t, name, s.registry.lookup[key]);
    SnapshotReports(s, es, t, ByUser, name, key, s.registry.lookup[key]);
  }

  // ---- how far a restart knows the table

  /** The group has a trade at this time or later that the query considers. */
  ghost predicate Reaches(table: Table, col: Grouping, g: GroupKey, time: int) {
    exists k <- table :: Considered(k, col) && GroupOf(k, col) == g && time <= k.time
  }

  /** Whatever the query answers, it reports this time or a later one: every group reaches it. */
  ghost predicate Covers(table: Table, col: Grouping, time: int) {
    AllGroups(table, col) != {} && forall g <- AllGroups(table, col) :: Reaches(table, col, g, time)
  }

  lemma CoveredAnswer(table: Table, col: Grouping, row: PositionRow, time: int)
    requires Selects(table, col, row) && Covers(table, col, time)
    ensures time <= row.time
  {
    var h :| h in AllGroups(table, col);
    GroupJoinIsJoined(table, col, h);
    var j :| j in Join(table, col) && row == RowFrom(table, col, j);
    JoinIsIndexed(table, col, j);
    assert Reaches(table, col, NameOf(j), time);
    var k :| k in table && Considered(k, col) && GroupOf(k, col) == NameOf(j) && time <= k.time;
    JoinIsLatest(table, col, k);
  }

  lemma EarlyAnswer(table: Table, col: Grouping, time: int) returns (row: PositionRow)
    requires 0 < time && !Covers(table, col, time)
    ensures Selects(table, col, row) && row.time < time
  {
    if g :| g in AllGroups(table, col) && !Reaches(table, col, g, time) {
      row := AnswerFor(table, col, g);
      JoinIsBounded(table, col, g, time - 1);
    } else {
      JoinHasNoFanOut(table, col);
      row := NO_POSITION;
    }
  }

  /** Whatever the queries answer, no row of the table is younger than the loaded time. */
  ghost predicate AlwaysUpToDate(accounts: Limits, users: Limits, sources: nat, table: Table) {
    forall a | Answer(table, a) :: LoadedUpToDate(StartUp(accounts, users, sources, table, a))
  }

  /** Some query is sure to report this time, or a later one. */
  ghost predicate Covered(table: Table, time: int) {
    time <= 0 || exists col :: Covers(table, col, time)
  }

  ghost predicate AllCovered(table: Table) {
    forall k <- table :: Covered(table, k.time)
  }

  lemma CoveredTime(table: Table, a: Answers, col: Grouping, time: int)
    requires Answer(table, a) && Covers(table, col, time)
    ensures time <= AnswerTo(a, col).time
  {
    match col
    case GroupUser => CoveredAnswer(table, GroupUser, a.byUser, time);
    case GroupStrategy => CoveredAnswer(table, GroupStrategy, a.byStrategy, time);
    case GroupAccount => CoveredAnswer(table, GroupAccount, a.byAccount, time);
  }

  lemma CoveredIsLoaded(accounts: Limits, users: Limits, sources: nat, table: Table, a: Answers, time: int)
    requires Answer(table, a) && Covered(table, time)
    ensures time <= StartUp(accounts, users, sources, table, a).lastTime
  {
    StartUpTime(accounts, users, sources, table, a);
    if 0 < time {
      var col :| Covers(table, col, time);
      CoveredTime(table, a, col, time);
    }
  }

  lemma CoveredIsUpToDate(accounts: Limits, users: Limits, sources: nat, table: Table, a: Answers)
    requires AllCovered(table) && Answer(table, a)
    ensures LoadedUpToDate(StartUp(accounts, users, sources, table, a))
  {
    StartUpTime(accounts, users, sources, table, a);
    forall k | k in table ensures k.time <= StartUp(accounts, users, sources, table, a).lastTime {
      CoveredIsLoaded(accounts, users, sources, table, a, k.time);
    }
  }

  lemma EarlyAnswers(accounts: Limits, users: Limits, sources: nat, table: Table, k: PrimaryKey) returns (a: Answers)
    requires k in table && !Covered(table, k.time)
    ensures Answer(table, a) && StartUp(accounts, users, sources, table, a).lastTime < k.time
  {
    var byUser := EarlyAnswer(table, GroupUser, k.time);
    var byStrategy := EarlyAnswer(table, GroupStrategy, k.time);
    var byAccount := EarlyAnswer(table, GroupAccount, k.time);
    a := Answers(byUser, byStrategy, byAccount, 0.0);
    StartUpTimeIsBounded(accounts, users, sources, table, a, k.time - 1);
  }

  /**
   For every table: start-up is sure to load a time that no row is younger than, exactly when for every row after time
   zero there is a query all of whose groups have a trade at that time or later.
   */
  lemma UpToDateExactly(accounts: Limits, users: Limits, sources: nat, table: Table)
    ensures AlwaysUpToDate(accounts, users, sources, table) <==> AllCovered(table)
  {
    if AllCovered(table) {
      forall a | Answer(table, a) ensures LoadedUpToDate(StartUp(accounts, users, sources, table, a)) {
        CoveredIsUpToDate(accounts, users, sources, table, a);
      }
    } else {
      var k :| k in table && !Covered(table, k.time);
      var a := EarlyAnswers(accounts, users, sources, table, k);
      StartUpTime(accounts, users, sources, table, a);
      assert !LoadedUpToDate(StartUp(accounts, users, sources, table, a));
    }
  }

  // ---- what a restart recovers

  /** The kind's query sees one owner and instrument only, and a BUY of it. */
  ghost predicate OneHolder(table: Table, kind: Kind, name: string, key: InstrumentKey) {
    var g := GroupKey(Name(name), key);
    AllGroups(table, GroupingOf(kind)) == {g} && g in Groups(table, GroupingOf(kind), BUY)
  }

  lemma OneHolderNet(table: Table, kind: Kind, name: string, key: InstrumentKey)
    requires OneHolder(table, kind, name, key)
    ensures Sum(Rows(table, GroupingOf(kind), BUY)) - Sum(Rows(table, GroupingOf(kind), SELL)) == Net(table, kind, name, key)
  {
    var col, g := GroupingOf(kind), GroupKey(Name(name), key);
    SingleHasAllRows(table, col, BUY, g);
    SingleHasAllRows(table, col, SELL, g);
    RowsAreQuantities(table, kind, name, key, BUY);
    RowsAreQuantities(table, kind, name, key, SELL);
  }

  lemma OneHolderIsCovered(table: Table, kind: Kind, name: string, key: InstrumentKey)
    requires OneHolder(table, kind, name, key)
    ensures AllCovered(table)
  {
    var col := GroupingOf(kind);
    forall k | k in table ensures Covers(table, col, k.time) {
      RowHasGroup(table, col, table[k].side, k);
      assert Reaches(table, col, GroupOf(k, col), k.time);
    }
  }

  /**
   When all trades are of one owner of a kind and in one instrument, whoever else takes part in them, a restart loads
   that owner's net from the table, and no row of the table is younger than the loaded time.
   */
  lemma RestartRecovers(accounts: Limits, users: Limits, sources: nat, table: Table, a: Answers, kind: Kind, name: string,
                        key: InstrumentKey)
    requires Answer(table, a) && OneHolder(table, kind, name, key)
    requires name != "" && name in LimitsOf(accounts, users, kind)
    ensures var s := StartUp(accounts, users, sources, table, a);
            && LoadedUpToDate(s) && s.table == table && name in BookOf(s, kind).owners
            && NetOf(PositionOf(s, kind, name, key)) == Net(table, kind, name, key)
  {
    StartUpTime(accounts, users, sources, table, a);
    OneHolderIsCovered(table, kind, name, key);
    CoveredIsUpToDate(accounts, users, sources, table, a);
    SingleIsNamed(table, GroupingOf(kind), RowOf(a, kind), GroupKey(Name(name), key));
    StartUpNet(accounts, users, sources, table, a, kind, name, key);
    OneHolderNet(table, kind, name, key);
  }

  // ---- exactly when a restart recovers

  /** Whatever the queries answer, a restart loads the net of every configured owner and instrument. */
  ghost predicate Recovers(accounts: Limits, users: Limits, sources: nat, table: Table, kind: Kind) {
    forall a, name, key | Answer(table, a) && name in LimitsOf(accounts, users, kind) ::
      RecoversAt(accounts, users, sources, table, a, kind, name, key)
  }

  ghost predicate RecoversAt(accounts: Limits, users: Limits, sources: nat, table: Table, a: Answers, kind: Kind,
                             name: string, key: InstrumentKey)
  {
    NetOf(PositionOf(StartUp(accounts, users, sources, table, a), kind, name, key)) == Net(table, kind, name, key)
  }

  /** No configured owner of this kind has a net in any instrument. */
  ghost predicate NothingNet(accounts: Limits, users: Limits, table: Table, kind: Kind) {
    forall name, key | name in LimitsOf(accounts, users, kind) :: Net(table, kind, name, key) == 0.0
  }

  /** The net of all trades, whoever they are of. */
  ghost function WholeNet(table: Table, kind: Kind): real {
    Sum(Rows(table, GroupingOf(kind), BUY)) - Sum(Rows(table, GroupingOf(kind), SELL))
  }

  /** Rows for this group reach a position: its owner has a name and is configured. */
  predicate Loadable(accounts: Limits, users: Limits, kind: Kind, g: GroupKey) {
    g.owner.Name? && g.owner.name != "" && g.owner.name in LimitsOf(accounts, users, kind)
  }

  /** Some answer loads some position. */
  ghost predicate LoadsSomething(accounts: Limits, users: Limits, table: Table, kind: Kind) {
    exists g <- Groups(table, GroupingOf(kind), BUY) :: Loadable(accounts, users, kind, g)
  }

  ghost predicate HeldByOne(accounts: Limits, users: Limits, table: Table, kind: Kind) {
    exists name, key :: OneHolder(table, kind, name, key) && Loadable(accounts, users, kind, GroupKey(Name(name), key))
  }

  lemma NoGroupNoNet(table: Table, kind: Kind, name: string, key: InstrumentKey)
    requires GroupKey(Name(name), key) !in AllGroups(table, GroupingOf(kind))
    ensures Net(table, kind, name, key) == 0.0
  {
    var col, g := GroupingOf(kind), GroupKey(Name(name), key);
    forall side: Side ensures Ledger.Quantities(table, side, kind, name, key) == map[] {
      RowsAreQuantities(table, kind, name, key, side);
      forall k | k in Rows(table, col, side) ensures GroupOf(k, col) != g {
        RowHasGroup(table, col, side, k);
      }
    }
  }

  /** The answers whose row for `kind` takes its plain columns from group `g`. */
  lemma AnswersFor(table: Table, kind: Kind, g: GroupKey) returns (a: Answers)
    requires g in AllGroups(table, GroupingOf(kind))
    ensures Answer(table, a)
    ensures RowOf(a, kind).group == if g in Groups(table, GroupingOf(kind), BUY) then Some(g) else None
  {
    var row := AnswerFor(table, GroupingOf(kind), g);
    var byUser := AnswerExists(table, GroupUser);
    var byStrategy := AnswerExists(table, GroupStrategy);
    var byAccount := AnswerExists(table, GroupAccount);
    match kind
    case ByAccount => a := Answers(byUser, byStrategy, row, 0.0);
    case ByUser => a := Answers(row, byStrategy, byAccount, 0.0);
  }

  /** If everything is recovered although the answer takes its columns from `g`, this is what an owner nets to. */
  lemma RecoveredNet(accounts: Limits, users: Limits, sources: nat, table: Table, kind: Kind, g: GroupKey, name: string,
                     key: InstrumentKey)
    requires Recovers(accounts, users, sources, table, kind) && name in LimitsOf(accounts, users, kind)
    requires g in AllGroups(table, GroupingOf(kind))
    ensures Net(table, kind, name, key) ==
              if name != "" && g == GroupKey(Name(name), key) && g in Groups(table, GroupingOf(kind), BUY)
              then WholeNet(table, kind) else 0.0
  {
    var a := AnswersFor(table, kind, g);
    assert RecoversAt(accounts, users, sources, table, a, kind, name, key);
    StartUpNet(accounts, users, sources, table, a, kind, name, key);
  }

  lemma RecoversMeans(accounts: Limits, users: Limits, sources: nat, table: Table, kind: Kind)
    requires Recovers(accounts, users, sources, table, kind)
    ensures HeldByOne(accounts, users, table, kind)
         || (NothingNet(accounts, users, table, kind)
             && (WholeNet(table, kind) == 0.0 || !LoadsSomething(accounts, users, table, kind)))
  {
    var col := GroupingOf(kind);
    if name, key :| name in LimitsOf(accounts, users, kind) && Net(table, kind, name, key) != 0.0 {
      var g := GroupKey(Name(name), key);
      if g !in AllGroups(table, col) {
        NoGroupNoNet(table, kind, name, key);
      }
      forall h | h in AllGroups(table, col) ensures h == g {
        RecoveredNet(accounts, users, sources, table, kind, h, name, key);
      }
      RecoveredNet(accounts, users, sources, table, kind, g, name, key);
      assert AllGroups(table, col) == {g};
      assert OneHolder(table, kind, name, key);
    } else if g :| g in Groups(table, col, BUY) && Loadable(accounts, users, kind, g) {
      RecoveredNet(accounts, users, sources, table, kind, g, g.owner.name, g.key);
    }
  }

  lemma NothingNetRecovers(accounts: Limits, users: Limits, sources: nat, table: Table, a: Answers, kind: Kind,
                           name: string, key: InstrumentKey)
    requires NothingNet(accounts, users, table, kind)
    requires WholeNet(table, kind) == 0.0 || !LoadsSomething(accounts, users, table, kind)
    requires Answer(table, a) && name in LimitsOf(accounts, users, kind)
    ensures RecoversAt(accounts, users, sources, table, a, kind, name, key)
  {
    StartUpNet(accounts, users, sources, table, a, kind, name, key);
    if RowOf(a, kind).group.Some? {
      NamedHasBuy(table, GroupingOf(kind), RowOf(a, kind));
    }
  }

  /** With one holder, every other owner and instrument nets to nothing, and nothing is loaded for it. */
  lemma OneHolderRecovers(accounts: Limits, users: Limits, sources: nat, table: Table, a: Answers, kind: Kind,
                          holder: string, held: InstrumentKey, name: string, key: InstrumentKey)
    requires OneHolder(table, kind, holder, held) && Loadable(accounts, users, kind, GroupKey(Name(holder), held))
    requires Answer(table, a) && name in LimitsOf(accounts, users, kind)
    ensures RecoversAt(accounts, users, sources, table, a, kind, name, key)
  {
    SingleIsNamed(table, GroupingOf(kind), RowOf(a, kind), GroupKey(Name(holder), held));
    StartUpNet(accounts, users, sources, table, a, kind, name, key);
    if name == holder && key == held {
      OneHolderNet(table, kind, name, key);
    } else {
      NoGroupNoNet(table, kind, name, key);
    }
  }

  /**
   For every table and configuration: a restart loads the net of every configured owner of a kind in every instrument,
   whatever the queries answer, exactly when all trades are of one configured owner and in one instrument and some are
   buys, or no configured owner has a net, and then all trades together net to nothing or no configured owner has a buy.
   Trades of owners that are not configured are in the table all the same.
   */
  lemma RestartRecoversExactly(accounts: Limits, users: Limits, sources: nat, table: Table, kind: Kind)
    ensures Recovers(accounts, users, sources, table, kind) <==>
              || HeldByOne(accounts, users, table, kind)
              || (NothingNet(accounts, users, table, kind)
                  && (WholeNet(table, kind) == 0.0 || !LoadsSomething(accounts, users, table, kind)))
  {
    if Recovers(accounts, users, sources, table, kind) {
      RecoversMeans(accounts, users, sources, table, kind);
    } else {
      var a, name, key :| Answer(table, a) && name in LimitsOf(accounts, users, kind)
                          && !RecoversAt(accounts, users, sources, table, a, kind, name, key);
      if HeldByOne(accounts, users, table, kind) {
        var holder, held :| OneHolder(table, kind, holder, held)
                            && Loadable(accounts, users, kind, GroupKey(Name(holder), held));
        OneHolderRecovers(accounts, users, sources, table, a, kind, holder, held, name, key);
      } else if NothingNet(accounts, users, table, kind)
                && (WholeNet(table, kind) == 0.0 || !LoadsSomething(accounts, users, table, kind)) {
        NothingNetRecovers(accounts, users, sources, table, a, kind, name, key);
      }
    }
  }

  // ---- what becomes of the loaded net

  lemma NoCorrections(table: Table, es: seq<Event>, i: nat)
    requires i <= |es| && forall k | 0 <= k < i :: !es[k].Corrected?
    ensures ManualRows(table, es, i) == Part(table, MANUAL)
  {
    for k := 0 to i
      invariant ManualRows(table, es, k) == Part(table, MANUAL)
    {
    }
  }

  /** From a start that knows the whole table, a counted fill replaces the loaded net. */
  lemma CountedFallsShort(s: State, es: seq<Event>, i: nat, kind: Kind, name: string, key: InstrumentKey)
    requires LoadedUpToDate(s) && i <= |es| && name in BookOf(s, kind).owners
    requires Identified(Occurrences(s.lastTime, es)) && SeenIds(s, es, i, kind, name, key) != {}
    ensures var t := At(s, es, i);
            && NetOf(PositionOf(t, kind, name, key)) == Net(t.table, kind, name, key)
                 - Net(Part(s.table, EXCHANGE), kind, name, key) - Net(ManualRows(s.table, es, i), kind, name, key)
            && ((forall k | 0 <= k < i :: !es[k].Corrected?) ==>
                  NetOf(PositionOf(t, kind, name, key)) == Net(t.table, kind, name, key) - Net(s.table, kind, name, key))
  {
    UpToDateRetainsAll(s, es, i, kind, name, key);
    LedgerNet(s, es, i, kind, name, key);
    RunSeen(s, es, i, kind, name, key);
    RunNets(s, es, i, kind, name, key);
    NetSplitsByType(s.table, kind, name, key);
    if forall k | 0 <= k < i :: !es[k].Corrected? {
      NoCorrections(s.table, es, i);
    }
  }

  /**
   The loaded net does not survive: once a fill has been counted after the restart, what is published falls short of the
   table by exactly the exchange net that the table had at the restart and the manual net that it has now; without
   corrections, by the net that it had at the restart.
   */
  lemma RestartLosesBaseline(accounts: Limits, users: Limits, sources: nat, table: Table, a: Answers, kind: Kind,
                             name: string, key: InstrumentKey, es: seq<Event>, i: nat)
    requires Answer(table, a) && AllCovered(table) && name in LimitsOf(accounts, users, kind) && i <= |es|
    requires Identified(Occurrences(StartUp(accounts, users, sources, table, a).lastTime, es))
    requires SeenIds(StartUp(accounts, users, sources, table, a), es, i, kind, name, key) != {}
    ensures var t := At(StartUp(accounts, users, sources, table, a), es, i);
            && NetOf(PositionOf(t, kind, name, key)) == Net(t.table, kind, name, key)
                 - Net(Part(table, EXCHANGE), kind, name, key) - Net(ManualRows(table, es, i), kind, name, key)
            && ((forall k | 0 <= k < i :: !es[k].Corrected?) ==>
                  NetOf(PositionOf(t, kind, name, key)) == Net(t.table, kind, name, key) - Net(table, kind, name, key))
  {
    StartUpTime(accounts, users, sources, table, a);
    StartUpPosition(accounts, users, sources, table, a, kind, name, key);
    CoveredIsUpToDate(accounts, users, sources, table, a);
    CountedFallsShort(StartUp(accounts, users, sources, table, a), es, i, kind, name, key);
  }

  // ---- an empty table

  lemma EmptyTableHasNoAnswer(kind: Kind, row: PositionRow)
    requires Selects(map[], GroupingOf(kind), row)
    ensures row == NO_POSITION
  {
    JoinEmptyExactly(map[], GroupingOf(kind));
  }

  lemma EmptyTableLoadsNothing(accounts: Limits, users: Limits, sources: nat, a: Answers, kind: Kind, name: string,
                               key: InstrumentKey)
    requires Answer(map[], a) && name in LimitsOf(accounts, users, kind)
    ensures var s := StartUp(accounts, users, sources, map[], a);
            && LoadedUpToDate(s) && s.table == map[] && name in BookOf(s, kind).owners
            && NetOf(PositionOf(s, kind, name, key)) == 0.0
  {
    EmptyTableHasNoAnswer(kind, RowOf(a, kind));
    StartUpTime(accounts, users, sources, map[], a);
    StartUpPosition(accounts, users, sources, map[], a, kind, name, key);
  }

  lemma EmptyTableIsFlat(kind: Kind, name: string, key: InstrumentKey)
    ensures Part(map[], EXCHANGE) == map[] && Part(map[], MANUAL) == map[]
    ensures Net(map[], kind, name, key) == 0.0
  {
    assert Ledger.Quantities(map[], BUY, kind, name, key) == map[] == Ledger.Quantities(map[], SELL, kind, name, key);
  }

  lemma FlatStartAgrees(s: State, es: seq<Event>, i: nat, kind: Kind, name: string, key: InstrumentKey)
    requires LoadedUpToDate(s) && i <= |es| && Identified(Occurrences(s.lastTime, es))
    requires name in BookOf(s, kind).owners
    requires s.table == map[] && NetOf(PositionOf(s, kind, name, key)) == 0.0
    ensures var t := At(s, es, i);
            && NetOf(PositionOf(t, kind, name, key)) == PositionOf(t, kind, name, key).quantity
            && Net(t.table, kind, name, key)
                 == PositionOf(t, kind, name, key).quantity + Net(ManualRows(map[], es, i), kind, name, key)
  {
    EmptyTableIsFlat(kind, name, key);
    UpToDateRetainsAll(s, es, i, kind, name, key);
    LedgerNet(s, es, i, kind, name, key);
    RunNets(s, es, i, kind, name, key);
  }

  /**
   From an empty table, in every run, what is published of a position is its net in the table, apart from the manual
   corrections.
   */
  lemma FromEmptyTableAgrees(accounts: Limits, users: Limits, sources: nat, a: Answers, es: seq<Event>, i: nat, kind: Kind,
                             name: string, key: InstrumentKey)
    requires Answer(map[], a) && name in LimitsOf(accounts, users, kind)
    requires i <= |es| && Identified(Occurrences(StartUp(accounts, users, sources, map[], a).lastTime, es))
    ensures var t := At(StartUp(accounts, users, sources, map[], a), es, i);
            && NetOf(PositionOf(t, kind, name, key)) == PositionOf(t, kind, name, key).quantity
            && Net(t.table, kind, name, key)
                 == PositionOf(t, kind, name, key).quantity + Net(ManualRows(map[], es, i), kind, name, key)
  {
    EmptyTableLoadsNothing(accounts, users, sources, a, kind, name, key);
    FlatStartAgrees(StartUp(accounts, users, sources, map[], a), es, i, kind, name, key);
  }
}
