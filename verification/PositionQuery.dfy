/**
 The position queries of the trade table: two grouped sub-selects, BUY and SELL, a full outer join on the group, and an
 outer aggregate without GROUP BY.
 */
module PositionQueries {
  import opened Types
  import opened Sums
  import opened Ledger

  /** The column that a query groups by, beside exchange and symbol. */
  datatype Grouping = GroupUser | GroupStrategy | GroupAccount

  datatype OwnerColumn = Name(name: string) | Strategy(strategyId: nat)

  datatype GroupKey = GroupKey(owner: OwnerColumn, key: InstrumentKey)

  /** A row of a grouped sub-select. */
  datatype GroupRow = GroupRow(group: GroupKey, quantity: real, time: int)

  /** A row of the full outer join: a missing side is NULL. */
  datatype JoinedRow = JoinedRow(buy: Option<GroupRow>, sell: Option<GroupRow>)

  /** The one row of the outer select. */
  datatype PositionRow = PositionRow(group: Option<GroupKey>, long: Option<real>, short: Option<real>, time: int)

  // ---- the query

  /** The strategy query skips trades without a strategy. */
  predicate Considered(k: PrimaryKey, col: Grouping) {
    col.GroupStrategy? ==> k.strategyId > 0
  }

  function GroupOf(k: PrimaryKey, col: Grouping): GroupKey {
    match col
    case GroupUser => GroupKey(Name(k.user), k.key)
    case GroupStrategy => GroupKey(Strategy(k.strategyId), k.key)
    case GroupAccount => GroupKey(Name(k.account), k.key)
  }

  ghost function Rows(table: Table, col: Grouping, side: Side): map<PrimaryKey, real> {
    map k | k in table && Considered(k, col) && table[k].side == side :: table[k].quantity
  }

  ghost function RowsIn(table: Table, col: Grouping, side: Side, group: GroupKey): map<PrimaryKey, real> {
    map k | k in Rows(table, col, side) && GroupOf(k, col) == group :: Rows(table, col, side)[k]
  }

  ghost function Groups(table: Table, col: Grouping, side: Side): set<GroupKey> {
    set k | k in Rows(table, col, side) :: GroupOf(k, col)
  }

  ghost predicate IsLatest(keys: set<PrimaryKey>, latest: PrimaryKey) {
    latest in keys && forall k <- keys :: k.time <= latest.time
  }

  lemma {:induction false} LatestExists(keys: set<PrimaryKey>)
    requires keys != {}
    ensures exists latest :: IsLatest(keys, latest)
    decreases |keys|
  {
    var k :| k in keys;
    assert forall j <- keys :: j == k || j in keys - {k};
    if keys - {k} == {} {
      assert IsLatest(keys, k);
    } else {
      LatestExists(keys - {k});
      var latest :| IsLatest(keys - {k}, latest);
      assert IsLatest(keys, if k.time < latest.time then latest else k);
    }
  }

  ghost function MaxTime(keys: set<PrimaryKey>): (time: int)
    requires keys != {}
    ensures exists latest :: IsLatest(keys, latest) && latest.time == time
  {
    LatestExists(keys);
    var latest :| IsLatest(keys, latest); latest.time
  }

  lemma MaxTimeIsBounded(keys: set<PrimaryKey>, time: int)
    requires keys != {} && forall k <- keys :: k.time <= time
    ensures MaxTime(keys) <= time
  {
  }

  /** SUM of the quantity and MAX of the time, for a group that has rows of this side. */
  ghost function Aggregate(table: Table, col: Grouping, side: Side, group: GroupKey): GroupRow
    requires group in Groups(table, col, side)
  {
    var rows := RowsIn(table, col, side, group);
    assert exists k <- Rows(table, col, side) :: GroupOf(k, col) == group && k in rows;
    GroupRow(group, Sum(rows), MaxTime(rows.Keys))
  }

  ghost function SubSelect(table: Table, col: Grouping, side: Side): set<GroupRow> {
    set g | g in Groups(table, col, side) :: Aggregate(table, col, side, g)
  }

  ghost predicate Matches(l: GroupRow, r: GroupRow) {
    l.group == r.group
  }

  ghost function FullOuterJoin(left: set<GroupRow>, right: set<GroupRow>): set<JoinedRow> {
    (set l, r | l in left && r in right && Matches(l, r) :: JoinedRow(Some(l), Some(r)))
    + (set l | l in left && (forall r <- right :: !Matches(l, r)) :: JoinedRow(Some(l), None))
    + (set r | r in right && (forall l <- left :: !Matches(l, r)) :: JoinedRow(None, Some(r)))
  }

  ghost function Join(table: Table, col: Grouping): set<JoinedRow> {
    FullOuterJoin(SubSelect(table, col, BUY), SubSelect(table, col, SELL))
  }

  function SideOf(j: JoinedRow, side: Side): Option<GroupRow> {
    match side
    case BUY => j.buy
    case SELL => j.sell
  }

  function Coalesce(r: Option<GroupRow>): real {
    if r.Some? then r.value.quantity else 0.0
  }

  function CoalesceTime(r: Option<GroupRow>): int {
    if r.Some? then r.value.time else 0
  }

  ghost function JoinTotals(table: Table, col: Grouping, side: Side): map<JoinedRow, real> {
    map j | j in Join(table, col) :: Coalesce(SideOf(j, side))
  }

  /** The outer SUM over all joined rows. */
  ghost function OuterSum(table: Table, col: Grouping, side: Side): real {
    Sum(JoinTotals(table, col, side))
  }

  const NO_POSITION := PositionRow(None, None, None, 0)

  /** The row that comes out when the plain columns are those of `j`. */
  ghost function RowFrom(table: Table, col: Grouping, j: JoinedRow): PositionRow {
    var buyTime, sellTime := CoalesceTime(j.buy), CoalesceTime(j.sell);
    PositionRow(if j.buy.Some? then Some(j.buy.value.group) else None, Some(OuterSum(table, col, BUY)),
                Some(OuterSum(table, col, SELL)), if buyTime < sellTime then sellTime else buyTime)
  }

  /**
   The outer select: SUM runs over all joined rows; the plain columns, and the two-argument MAX which is not an
   aggregate, come from an arbitrary joined row; without any rows everything is NULL.
   */
  ghost predicate Selects(table: Table, col: Grouping, row: PositionRow) {
    if Join(table, col) == {} then row == NO_POSITION else exists j <- Join(table, col) :: row == RowFrom(table, col, j)
  }

  /** Every query has an answer. */
  lemma AnswerExists(table: Table, col: Grouping) returns (row: PositionRow)
    ensures Selects(table, col, row)
  {
    var join := Join(table, col);
    if join == {} {
      row := NO_POSITION;
    } else {
      var j :| j in join;
      row := RowFrom(table, col, j);
    }
  }

  // ---- the join has no fan-out

  ghost function AllGroups(table: Table, col: Grouping): set<GroupKey> {
    Groups(table, col, BUY) + Groups(table, col, SELL)
  }

  ghost function SideRow(table: Table, col: Grouping, side: Side, group: GroupKey): Option<GroupRow> {
    if group in Groups(table, col, side) then Some(Aggregate(table, col, side, group)) else None
  }

  /** The one joined row of a group. */
  ghost function GroupJoin(table: Table, col: Grouping, group: GroupKey): JoinedRow {
    JoinedRow(SideRow(table, col, BUY, group), SideRow(table, col, SELL, group))
  }

  lemma JoinedIsGroupJoin(table: Table, col: Grouping, j: JoinedRow)
    requires j in Join(table, col)
    ensures exists g <- AllGroups(table, col) :: j == GroupJoin(table, col, g)
  {
    var g := if j.buy.Some? then j.buy.value.group else j.sell.value.group;
    assert g in AllGroups(table, col);
    if j.buy.None? && g in Groups(table, col, BUY) {
      assert Matches(Aggregate(table, col, BUY, g), j.sell.value);
    }
    if j.sell.None? && g in Groups(table, col, SELL) {
      assert Matches(j.buy.value, Aggregate(table, col, SELL, g));
    }
    assert j == GroupJoin(table, col, g);
  }

  lemma SubSelectNames(table: Table, col: Grouping, side: Side, r: GroupRow)
    requires r in SubSelect(table, col, side)
    ensures r.group in Groups(table, col, side)
  {
  }

  lemma GroupJoinIsJoined(table: Table, col: Grouping, g: GroupKey)
    requires g in AllGroups(table, col)
    ensures GroupJoin(table, col, g) in Join(table, col)
  {
    var j := GroupJoin(table, col, g);
    var left, right := SubSelect(table, col, BUY), SubSelect(table, col, SELL);
    if j.buy.Some? && j.sell.Some? {
      assert Matches(j.buy.value, j.sell.value);
    } else if j.buy.Some? {
      forall r | r in right ensures !Matches(j.buy.value, r) {
        SubSelectNames(table, col, SELL, r);
      }
    } else {
      forall l | l in left ensures !Matches(l, j.sell.value) {
        SubSelectNames(table, col, BUY, l);
      }
    }
  }

  /** The join holds exactly one row per group that has trades. */
  lemma JoinHasNoFanOut(table: Table, col: Grouping)
    ensures Join(table, col) == set g | g in AllGroups(table, col) :: GroupJoin(table, col, g)
  {
    forall j | j in Join(table, col) ensures exists g <- AllGroups(table, col) :: j == GroupJoin(table, col, g) {
      JoinedIsGroupJoin(table, col, j);
    }
    forall g | g in AllGroups(table, col) ensures GroupJoin(table, col, g) in Join(table, col) {
      GroupJoinIsJoined(table, col, g);
    }
  }

  /** Coalesced, a joined row holds its group's sum of each side. */
  lemma GroupJoinSums(table: Table, col: Grouping, side: Side, group: GroupKey)
    ensures Coalesce(SideOf(GroupJoin(table, col, group), side)) == Sum(RowsIn(table, col, side, group))
  {
    if group !in Groups(table, col, side) {
      assert RowsIn(table, col, side, group) == map[];
    }
  }

  ghost function GroupTotals(table: Table, col: Grouping, side: Side): map<GroupKey, real> {
    map g | g in AllGroups(table, col) :: Sum(RowsIn(table, col, side, g))
  }

  /** The group of a joined row. */
  function NameOf(j: JoinedRow): GroupKey {
    if j.buy.Some? then j.buy.value.group
    else if j.sell.Some? then j.sell.value.group
    else GroupKey(Name(""), InstrumentKey("", ""))
  }

  lemma JoinIsIndexed(table: Table, col: Grouping, j: JoinedRow)
    requires j in Join(table, col)
    ensures NameOf(j) in AllGroups(table, col) && GroupJoin(table, col, NameOf(j)) == j
  {
    JoinedIsGroupJoin(table, col, j);
  }

  lemma GroupIsJoined(table: Table, col: Grouping, side: Side, g: GroupKey)
    requires g in AllGroups(table, col)
    ensures var j := GroupJoin(table, col, g);
            && j in Join(table, col) && NameOf(j) == g
            && Coalesce(SideOf(j, side)) == Sum(RowsIn(table, col, side, g))
  {
    GroupJoinIsJoined(table, col, g);
    GroupJoinSums(table, col, side, g);
  }

  ghost function JoinNames(table: Table, col: Grouping): map<JoinedRow, GroupKey> {
    map j | j in Join(table, col) :: NameOf(j)
  }

  /** One joined row per group, holding its total. */
  lemma GroupTotalIsJoined(table: Table, col: Grouping, side: Side, g: GroupKey)
    requires g in AllGroups(table, col)
    ensures Sum(Within(JoinTotals(table, col, side), JoinNames(table, col), g)) == Sum(RowsIn(table, col, side, g))
  {
    var j := GroupJoin(table, col, g);
    GroupIsJoined(table, col, side, g);
    var joined, names := JoinTotals(table, col, side), JoinNames(table, col);
    forall i | i in joined && names[i] == g ensures i == j {
      JoinIsIndexed(table, col, i);
    }
    SumWithinOne(joined, names, g, j);
  }

  lemma OuterSumIsByGroup(table: Table, col: Grouping, side: Side)
    ensures OuterSum(table, col, side) == Sum(GroupTotals(table, col, side))
  {
    var joined, names, totals := JoinTotals(table, col, side), JoinNames(table, col), GroupTotals(table, col, side);
    forall j | j in joined ensures names[j] in totals {
      JoinIsIndexed(table, col, j);
    }
    forall g | g in totals ensures totals[g] == Sum(Within(joined, names, g)) {
      GroupTotalIsJoined(table, col, side, g);
    }
    SumGroups(joined, names, totals);
  }

  ghost function GroupIndex(rows: map<PrimaryKey, real>, col: Grouping): map<PrimaryKey, GroupKey> {
    map k | k in rows :: GroupOf(k, col)
  }

  lemma GroupTotalsAreWithin(table: Table, col: Grouping, side: Side, g: GroupKey)
    ensures RowsIn(table, col, side, g) == Within(Rows(table, col, side), GroupIndex(Rows(table, col, side), col), g)
  {
  }

  lemma RowHasGroup(table: Table, col: Grouping, side: Side, k: PrimaryKey)
    requires k in Rows(table, col, side)
    ensures GroupOf(k, col) in AllGroups(table, col)
  {
    assert GroupOf(k, col) in Groups(table, col, side);
    match side
    case BUY =>
    case SELL =>
  }

  lemma GroupTotalsAddUp(table: Table, col: Grouping, side: Side)
    ensures Sum(GroupTotals(table, col, side)) == Sum(Rows(table, col, side))
  {
    var rows := Rows(table, col, side);
    var group := GroupIndex(rows, col);
    var totals := GroupTotals(table, col, side);
    forall g | g in totals ensures totals[g] == Sum(Within(rows, group, g)) {
      GroupTotalsAreWithin(table, col, side, g);
    }
    forall k | k in rows ensures group[k] in totals {
      RowHasGroup(table, col, side, k);
    }
    SumGroups(rows, group, totals);
  }

  /** The outer sums are the totals of all rows considered. */
  lemma OuterSumIsTotal(table: Table, col: Grouping, side: Side)
    ensures OuterSum(table, col, side) == Sum(Rows(table, col, side))
  {
    OuterSumIsByGroup(table, col, side);
    GroupTotalsAddUp(table, col, side);
  }

  /**
   What the reported quantities are, written out: the sums over all trades of a side, for the strategy query over those
   with a strategy; NULL when there are none.
   */
  lemma TotalsWrittenOut(table: Table, col: Grouping, row: PositionRow)
    requires Selects(table, col, row)
    ensures var any := exists k :: k in table && (col == GroupStrategy ==> k.strategyId > 0);
            if any
            then
              && row.long == Some(Sum(map k | k in table && (col == GroupStrategy ==> k.strategyId > 0)
                                              && table[k].side == BUY :: table[k].quantity))
              && row.short == Some(Sum(map k | k in table && (col == GroupStrategy ==> k.strategyId > 0)
                                               && table[k].side == SELL :: table[k].quantity))
            else row.group == None && row.long == None && row.short == None && row.time == 0
  {
    JoinEmptyExactly(table, col);
    OuterSumIsTotal(table, col, BUY);
    OuterSumIsTotal(table, col, SELL);
    forall side: Side
      ensures Rows(table, col, side) ==
                map k | k in table && (col == GroupStrategy ==> k.strategyId > 0) && table[k].side == side
                :: table[k].quantity
    {
    }
  }

  /** The rows of a user's group, written out. */
  lemma UserRowsWrittenOut(table: Table, side: Side, user: string, key: InstrumentKey)
    ensures RowsIn(table, GroupUser, side, GroupKey(Name(user), key)) ==
              map k | k in table && k.user == user && k.key == key && table[k].side == side :: table[k].quantity
  {
  }

  /** The rows of an account's group, written out. */
  lemma AccountRowsWrittenOut(table: Table, side: Side, account: string, key: InstrumentKey)
    ensures RowsIn(table, GroupAccount, side, GroupKey(Name(account), key)) ==
              map k | k in table && k.account == account && k.key == key && table[k].side == side :: table[k].quantity
  {
  }

  /** The rows of a strategy's group, written out. */
  lemma StrategyRowsWrittenOut(table: Table, side: Side, strategyId: nat, key: InstrumentKey)
    requires strategyId > 0
    ensures RowsIn(table, GroupStrategy, side, GroupKey(Strategy(strategyId), key)) ==
              map k | k in table && k.strategyId == strategyId && k.key == key && table[k].side == side
              :: table[k].quantity
  {
  }

  /** The queries by user and by account report the same totals for every table. */
  lemma UserAndAccountTotalsCoincide(table: Table, byUser: PositionRow, byAccount: PositionRow)
    requires Selects(table, GroupUser, byUser) && Selects(table, GroupAccount, byAccount)
    ensures byUser.long == byAccount.long && byUser.short == byAccount.short
  {
    forall side: Side ensures OuterSum(table, GroupUser, side) == OuterSum(table, GroupAccount, side) {
      OuterSumIsTotal(table, GroupUser, side);
      OuterSumIsTotal(table, GroupAccount, side);
      assert Rows(table, GroupUser, side) == Rows(table, GroupAccount, side);
    }
    JoinEmptyExactly(table, GroupUser);
    JoinEmptyExactly(table, GroupAccount);
  }

  lemma JoinEmptyExactly(table: Table, col: Grouping)
    ensures Join(table, col) == {} <==> forall k <- table :: !Considered(k, col)
  {
    JoinHasNoFanOut(table, col);
    if k :| k in table && Considered(k, col) {
      assert k in Rows(table, col, table[k].side);
      assert GroupOf(k, col) in AllGroups(table, col);
      assert GroupJoin(table, col, GroupOf(k, col)) in Join(table, col);
    }
  }

  // ---- when the one row is right

  /** The row names a group and reports exactly that group's totals. */
  ghost predicate Right(table: Table, col: Grouping, row: PositionRow) {
    && row.group.Some?
    && row.long == Some(Sum(RowsIn(table, col, BUY, row.group.value)))
    && row.short == Some(Sum(RowsIn(table, col, SELL, row.group.value)))
  }

  lemma NamedHasBuy(table: Table, col: Grouping, row: PositionRow)
    requires Selects(table, col, row) && row.group.Some?
    ensures row.group.value in Groups(table, col, BUY)
    ensures row.long == Some(Sum(Rows(table, col, BUY))) && row.short == Some(Sum(Rows(table, col, SELL)))
  {
    OuterSumIsTotal(table, col, BUY);
    OuterSumIsTotal(table, col, SELL);
    var j :| j in Join(table, col) && row == RowFrom(table, col, j);
    JoinedIsGroupJoin(table, col, j);
  }

  lemma SingleJoin(table: Table, col: Grouping, g: GroupKey)
    requires AllGroups(table, col) == {g}
    ensures Join(table, col) == {GroupJoin(table, col, g)}
  {
    JoinHasNoFanOut(table, col);
  }

  lemma SingleIsNamed(table: Table, col: Grouping, row: PositionRow, g: GroupKey)
    requires Selects(table, col, row) && AllGroups(table, col) == {g} && g in Groups(table, col, BUY)
    ensures row.group == Some(g)
  {
    SingleJoin(table, col, g);
    assert GroupJoin(table, col, g) in Join(table, col);
  }

  lemma SingleHasAllRows(table: Table, col: Grouping, side: Side, g: GroupKey)
    requires AllGroups(table, col) == {g}
    ensures RowsIn(table, col, side, g) == Rows(table, col, side)
  {
    forall k | k in Rows(table, col, side) ensures GroupOf(k, col) == g {
      RowHasGroup(table, col, side, k);
    }
  }

  /** A table with one group yields exactly that group's totals. */
  lemma OneKeyTotals(table: Table, col: Grouping, row: PositionRow, g: GroupKey)
    requires Selects(table, col, row) && AllGroups(table, col) == {g}
    ensures row.long == Some(Sum(RowsIn(table, col, BUY, g))) && row.short == Some(Sum(RowsIn(table, col, SELL, g)))
  {
    SingleJoin(table, col, g);
    assert GroupJoin(table, col, g) in Join(table, col);
    SingleHasAllRows(table, col, BUY, g);
    SingleHasAllRows(table, col, SELL, g);
    OuterSumIsTotal(table, col, BUY);
    OuterSumIsTotal(table, col, SELL);
  }

  lemma SingleMeansRight(table: Table, col: Grouping, row: PositionRow, g: GroupKey)
    requires Selects(table, col, row) && AllGroups(table, col) == {g} && g in Groups(table, col, BUY)
    ensures Right(table, col, row)
  {
    SingleIsNamed(table, col, row, g);
    OneKeyTotals(table, col, row, g);
  }

  /** Both sides of a group sum to zero. */
  ghost predicate Flat(table: Table, col: Grouping, g: GroupKey) {
    Sum(RowsIn(table, col, BUY, g)) == 0.0 && Sum(RowsIn(table, col, SELL, g)) == 0.0
  }

  ghost predicate AllFlat(table: Table, col: Grouping) {
    forall g <- AllGroups(table, col) :: Flat(table, col, g)
  }

  /** The answer whose plain columns are those of group `g`. */
  lemma AnswerFor(table: Table, col: Grouping, g: GroupKey) returns (row: PositionRow)
    requires g in AllGroups(table, col)
    ensures Selects(table, col, row) && row == RowFrom(table, col, GroupJoin(table, col, g))
    ensures row.group == if g in Groups(table, col, BUY) then Some(g) else None
  {
    GroupJoinIsJoined(table, col, g);
    row := RowFrom(table, col, GroupJoin(table, col, g));
  }

  /** The group that an answer takes its plain columns from. */
  lemma AnswerHasGroup(table: Table, col: Grouping, row: PositionRow) returns (g: GroupKey)
    requires Selects(table, col, row) && AllGroups(table, col) != {}
    ensures g in AllGroups(table, col)
    ensures row.group == if g in Groups(table, col, BUY) then Some(g) else None
  {
    var h :| h in AllGroups(table, col);
    GroupJoinIsJoined(table, col, h);
    var j :| j in Join(table, col) && row == RowFrom(table, col, j);
    JoinIsIndexed(table, col, j);
    g := NameOf(j);
  }

  lemma AllFlatSumsToZero(table: Table, col: Grouping, side: Side)
    requires AllFlat(table, col)
    ensures Sum(Rows(table, col, side)) == 0.0
  {
    GroupTotalsAddUp(table, col, side);
    forall g | g in GroupTotals(table, col, side) ensures GroupTotals(table, col, side)[g] == 0.0 {
      assert Flat(table, col, g);
      match side
      case BUY =>
      case SELL =>
    }
    SumZero(GroupTotals(table, col, side));
  }

  /** If every group holds the whole total, it is zero, or there is one group only. */
  lemma SharedTotalIsZero(table: Table, col: Grouping, side: Side, g: GroupKey, h: GroupKey)
    requires g in AllGroups(table, col) && h in AllGroups(table, col) && g != h
    requires forall i <- AllGroups(table, col) :: Sum(RowsIn(table, col, side, i)) == Sum(Rows(table, col, side))
    ensures Sum(Rows(table, col, side)) == 0.0
  {
    GroupTotalsAddUp(table, col, side);
    PartsEqualToWhole(GroupTotals(table, col, side), g, h);
  }

  ghost predicate AlwaysRight(table: Table, col: Grouping) {
    forall row | Selects(table, col, row) :: Right(table, col, row)
  }

  lemma AlwaysRightSums(table: Table, col: Grouping, g: GroupKey)
    requires AlwaysRight(table, col) && g in AllGroups(table, col)
    ensures g in Groups(table, col, BUY)
    ensures Sum(RowsIn(table, col, BUY, g)) == Sum(Rows(table, col, BUY))
    ensures Sum(RowsIn(table, col, SELL, g)) == Sum(Rows(table, col, SELL))
  {
    var row := AnswerFor(table, col, g);
    assert Right(table, col, row);
    NamedHasBuy(table, col, row);
  }

  /**
   For every table: whatever row the query returns is right, exactly when there are trades, every group has a BUY, and
   there is one group only or every group sums to zero on both sides. There is no outer GROUP BY, and the reported
   columns are those of the BUY side.
   */
  lemma RowIsRightExactly(table: Table, col: Grouping)
    ensures AlwaysRight(table, col) <==>
              && AllGroups(table, col) != {} && AllGroups(table, col) <= Groups(table, col, BUY)
              && ((exists g :: AllGroups(table, col) == {g}) || AllFlat(table, col))
  {
    if AlwaysRight(table, col) {
      AlwaysRightMeans(table, col);
    }
    if AllGroups(table, col) != {} && AllGroups(table, col) <= Groups(table, col, BUY) && AllFlat(table, col) {
      forall row | Selects(table, col, row) ensures Right(table, col, row) {
        FlatMeansRight(table, col, row);
      }
    }
    forall g | AllGroups(table, col) == {g} && g in Groups(table, col, BUY) ensures AlwaysRight(table, col) {
      forall row | Selects(table, col, row) ensures Right(table, col, row) {
        SingleMeansRight(table, col, row, g);
      }
    }
  }

  lemma FlatMeansRight(table: Table, col: Grouping, row: PositionRow)
    requires Selects(table, col, row) && AllFlat(table, col)
    requires AllGroups(table, col) != {} && AllGroups(table, col) <= Groups(table, col, BUY)
    ensures Right(table, col, row)
  {
    var g := AnswerHasGroup(table, col, row);
    NamedHasBuy(table, col, row);
    AllFlatSumsToZero(table, col, BUY);
    AllFlatSumsToZero(table, col, SELL);
    assert Flat(table, col, g);
  }

  lemma AlwaysRightMeans(table: Table, col: Grouping)
    requires AlwaysRight(table, col)
    ensures AllGroups(table, col) != {} && AllGroups(table, col) <= Groups(table, col, BUY)
    ensures (exists g :: AllGroups(table, col) == {g}) || AllFlat(table, col)
  {
    var row := AnswerExists(table, col);
    assert Right(table, col, row);
    NamedHasBuy(table, col, row);
    var g := row.group.value;
    forall i | i in AllGroups(table, col)
      ensures i in Groups(table, col, BUY)
      ensures Sum(RowsIn(table, col, BUY, i)) == Sum(Rows(table, col, BUY))
      ensures Sum(RowsIn(table, col, SELL, i)) == Sum(Rows(table, col, SELL))
    {
      AlwaysRightSums(table, col, i);
    }
    if h :| h in AllGroups(table, col) && h != g {
      SharedTotalIsZero(table, col, BUY, g, h);
      SharedTotalIsZero(table, col, SELL, g, h);
    } else {
      assert AllGroups(table, col) == {g};
    }
  }

  // ---- positive quantities

  lemma OthersAreEmpty(table: Table, col: Grouping, side: Side, group: GroupKey)
    requires forall k <- table :: table[k].quantity > 0.0
    ensures Sum(Rows(table, col, side)) == Sum(RowsIn(table, col, side, group)) <==> Groups(table, col, side) <= {group}
  {
    var rows, inside := Rows(table, col, side), RowsIn(table, col, side, group);
    SumSplit(rows, inside.Keys);
    assert Restrict(rows, inside.Keys) == inside;
    SumPositive(rows - inside.Keys);
    if k :| k in rows && k !in inside {
      assert k in rows - inside.Keys;
      assert GroupOf(k, col) in Groups(table, col, side);
    } else {
      assert rows - inside.Keys == map[];
    }
  }

  lemma RightMeansSingle(table: Table, col: Grouping, row: PositionRow)
    requires forall k <- table :: table[k].quantity > 0.0
    requires Selects(table, col, row) && Right(table, col, row)
    ensures exists g :: AllGroups(table, col) == {g} && g in Groups(table, col, BUY)
  {
    var g := row.group.value;
    NamedHasBuy(table, col, row);
    OthersAreEmpty(table, col, BUY, g);
    OthersAreEmpty(table, col, SELL, g);
    assert AllGroups(table, col) == {g};
  }

  /** With positive quantities, any one row is right exactly when the table holds a single group, and that has a BUY. */
  lemma PositiveRowIsRightExactly(table: Table, col: Grouping, row: PositionRow)
    requires forall k <- table :: table[k].quantity > 0.0
    requires Selects(table, col, row)
    ensures Right(table, col, row) <==> exists g :: AllGroups(table, col) == {g} && g in Groups(table, col, BUY)
  {
    if Right(table, col, row) {
      RightMeansSingle(table, col, row);
    }
    forall g | AllGroups(table, col) == {g} && g in Groups(table, col, BUY) ensures Right(table, col, row) {
      SingleMeansRight(table, col, row, g);
    }
  }

  function BuyOf(user: string): PrimaryKey {
    PrimaryKey(user, 0, "A1", InstrumentKey("deribit", "BTC-PERPETUAL"), 1, user, EXCHANGE)
  }

  function TwoBuys(): Table {
    map[BuyOf("u") := Row(BUY, 1.0, 1.0, "", "", ""), BuyOf("v") := Row(BUY, 2.0, 1.0, "", "", "")]
  }

  lemma TwoBuysTotal()
    ensures Sum(Rows(TwoBuys(), GroupUser, BUY)) == 3.0
  {
    var rows := Rows(TwoBuys(), GroupUser, BUY);
    assert "u"[0] != "v"[0];
    SumInsert(map[BuyOf("u") := 1.0], BuyOf("v"), 2.0);
    SumInsert(map[], BuyOf("u"), 1.0);
    assert map[BuyOf("u") := 1.0] == map[][BuyOf("u") := 1.0];
    assert rows == map[BuyOf("u") := 1.0][BuyOf("v") := 2.0];
  }

  lemma TwoBuysGroups()
    ensures GroupOf(BuyOf("u"), GroupUser) != GroupOf(BuyOf("v"), GroupUser)
    ensures {GroupOf(BuyOf("u"), GroupUser), GroupOf(BuyOf("v"), GroupUser)} <= AllGroups(TwoBuys(), GroupUser)
  {
    assert "u"[0] != "v"[0];
    RowHasGroup(TwoBuys(), GroupUser, BUY, BuyOf("u"));
    RowHasGroup(TwoBuys(), GroupUser, BUY, BuyOf("v"));
  }

  lemma TwoBuysArePositive()
    ensures forall k <- TwoBuys() :: TwoBuys()[k].quantity > 0.0
  {
    assert "u"[0] != "v"[0];
  }

  /** Two users with one BUY each: whatever row the query returns, it is not the position of the user it names. */
  lemma TwoUsersAreMixed(row: PositionRow)
    requires Selects(TwoBuys(), GroupUser, row)
    ensures !Right(TwoBuys(), GroupUser, row)
    ensures row.group.Some? ==> row.long == Some(3.0)
  {
    if Right(TwoBuys(), GroupUser, row) {
      TwoBuysArePositive();
      RightMeansSingle(TwoBuys(), GroupUser, row);
      TwoBuysGroups();
      assert false;
    }
    if row.group.Some? {
      TwoBuysTotal();
      NamedHasBuy(TwoBuys(), GroupUser, row);
    }
  }
}
