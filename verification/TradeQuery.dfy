/** The account summary and the trade query of the trade table. */
module TradeQueries {
  import opened Ledger
  import opened Orders

  // ---- the trade query

  /** ORDER BY account, exchange_time_utc */
  predicate NotAfter(j: PrimaryKey, k: PrimaryKey) {
    TextBefore(j.account, k.account) || (j.account == k.account && j.time <= k.time)
  }

  lemma NotAfterTotal(j: PrimaryKey, k: PrimaryKey)
    ensures NotAfter(j, k) || NotAfter(k, j)
  {
    TextBeforeTotal(j.account, k.account);
  }

  lemma NotAfterTransitive(i: PrimaryKey, j: PrimaryKey, k: PrimaryKey)
    requires NotAfter(i, j) && NotAfter(j, k)
    ensures NotAfter(i, k)
  {
    if TextBefore(i.account, j.account) && TextBefore(j.account, k.account) {
      TextBeforeTransitive(i.account, j.account, k.account);
    }
  }

  /** An empty account and a zero start time do not filter. */
  predicate Wanted(k: PrimaryKey, account: string, start: int) {
    (account != "" ==> k.account == account) && (start != 0 ==> start <= k.time)
  }

  ghost function WantedKeys(table: Table, account: string, start: int): set<PrimaryKey> {
    set k | k in table && Wanted(k, account, start)
  }

  /** `keys` are the rows of the query in an order that the query allows. */
  ghost predicate SelectsTrades(table: Table, account: string, start: int, keys: seq<PrimaryKey>) {
    Sorted(keys, WantedKeys(table, account, start), NotAfter)
  }

  /** Every query has an answer. */
  lemma ListingExists(s: set<PrimaryKey>) returns (keys: seq<PrimaryKey>)
    ensures Sorted(keys, s, NotAfter)
  {
    forall j, k ensures NotAfter(j, k) || NotAfter(k, j) {
      NotAfterTotal(j, k);
    }
    forall i, j, k | NotAfter(i, j) && NotAfter(j, k) ensures NotAfter(i, k) {
      NotAfterTransitive(i, j, k);
    }
    keys := SortExists(s, NotAfter);
  }

  /**
   The answer lists exactly the trades of the account, or of all accounts if none is given, at the start time or later,
   or at any time if none is given: each once, by account and then by time.
   */
  lemma TradesAreListed(table: Table, account: string, start: int, keys: seq<PrimaryKey>)
    requires SelectsTrades(table, account, start, keys)
    ensures forall k ::
              k in keys <==> k in table && (account == "" || k.account == account) && (start == 0 || start <= k.time)
    ensures forall i, j | 0 <= i < j < |keys| ::
              && keys[i] != keys[j]
              && (keys[i].account == keys[j].account ==> keys[i].time <= keys[j].time)
              && (keys[i].account != keys[j].account ==> exists n: nat :: DiffersAt(keys[i].account, keys[j].account, n))
  {
    forall i, j | 0 <= i < j < |keys| && keys[i].account != keys[j].account
      ensures exists n: nat :: DiffersAt(keys[i].account, keys[j].account, n)
    {
      assert NotAfter(keys[i], keys[j]);
      TextBeforeExactly(keys[i].account, keys[j].account);
    }
    forall i, j | 0 <= i < j < |keys| && keys[i].account == keys[j].account ensures keys[i].time <= keys[j].time {
      assert NotAfter(keys[i], keys[j]);
      TextBeforeTotal(keys[i].account, keys[i].account);
    }
  }

  lemma {:induction false} ListingLength(keys: seq<PrimaryKey>, s: set<PrimaryKey>)
    requires forall k :: k in keys <==> k in s
    requires forall i, j | 0 <= i < j < |keys| :: keys[i] != keys[j]
    ensures |keys| == |s|
  {
    if keys == [] {
      assert s == {};
    } else {
      var k := keys[0];
      assert k in s;
      forall x ensures x in keys[1..] <==> x in s - {k} {
        assert x in s <==> x == k || x in keys[1..];
      }
      ListingLength(keys[1..], s - {k});
    }
  }

  // ---- the account summary

  datatype AccountRow = AccountRow(name: string, minTime: int, maxTime: int, tradeCount: nat)

  ghost function AccountKeys(table: Table, name: string): set<PrimaryKey> {
    set k | k in table && k.account == name
  }

  ghost function Accounts(table: Table): set<string> {
    set k | k in table :: k.account
  }

  ghost function Times(table: Table, name: string): set<int> {
    set k | k in AccountKeys(table, name) :: k.time
  }

  ghost predicate IsSummaryOf(row: AccountRow, table: Table) {
    var times := Times(table, row.name);
    && row.maxTime in times && (forall t <- times :: t <= row.maxTime)
    && row.minTime in times && (forall t <- times :: row.minTime <= t)
    && row.tradeCount == |AccountKeys(table, row.name)|
  }

  /** GROUP BY account ORDER BY account */
  ghost predicate SelectsAccounts(table: Table, rows: seq<AccountRow>) {
    && (forall i | 0 <= i < |rows| :: IsSummaryOf(rows[i], table))
    && (forall i, j | 0 <= i < j < |rows| :: TextBefore(rows[i].name, rows[j].name))
    && (forall name <- Accounts(table) :: exists i :: 0 <= i < |rows| && rows[i].name == name)
  }

  predicate TextNotAfter(a: string, b: string) {
    !TextBefore(b, a)
  }

  lemma NamesExist(s: set<string>) returns (names: seq<string>)
    ensures Sorted(names, s, TextNotAfter)
  {
    forall a, b ensures TextNotAfter(a, b) || TextNotAfter(b, a) {
      TextBeforeTotal(a, b);
    }
    forall a, b, c | TextNotAfter(a, b) && TextNotAfter(b, c) ensures TextNotAfter(a, c) {
      TextBeforeTotal(a, b);
      TextBeforeTotal(b, c);
      if TextBefore(c, a) && a != b && b != c {
        TextBeforeTransitive(a, b, c);
        TextBeforeTotal(a, c);
      }
    }
    names := SortExists(s, TextNotAfter);
  }

  lemma SummaryExists(table: Table, name: string) returns (row: AccountRow)
    requires name in Accounts(table)
    ensures IsSummaryOf(row, table) && row.name == name
  {
    var times := Times(table, name);
    var k :| k in table && k.account == name;
    assert k in AccountKeys(table, name) && k.time in times;
    var first := FirstExists(times, (s: int, t: int) => s <= t);
    var last := FirstExists(times, (s: int, t: int) => t <= s);
    row := AccountRow(name, first, last, |AccountKeys(table, name)|);
  }

  /** The account summary has an answer. */
  lemma SummariesExist(table: Table) returns (rows: seq<AccountRow>)
    ensures SelectsAccounts(table, rows)
  {
    var names := NamesExist(Accounts(table));
    rows := [];
    for i := 0 to |names|
      invariant |rows| == i && forall j | 0 <= j < i :: IsSummaryOf(rows[j], table) && rows[j].name == names[j]
    {
      assert names[i] in Accounts(table);
      var row := SummaryExists(table, names[i]);
      rows := rows + [row];
    }
    forall i, j | 0 <= i < j < |rows| ensures TextBefore(rows[i].name, rows[j].name) {
      TextBeforeTotal(names[i], names[j]);
    }
    forall name | name in Accounts(table) ensures exists i :: 0 <= i < |rows| && rows[i].name == name {
      var i :| 0 <= i < |names| && names[i] == name;
      assert rows[i].name == name;
    }
  }

  /** The summary of an account counts its trade query, and its times are those of the first and the last trade. */
  lemma SummaryAgreesWithTrades(table: Table, rows: seq<AccountRow>, i: nat, keys: seq<PrimaryKey>)
    requires SelectsAccounts(table, rows) && i < |rows| && rows[i].name != ""
    requires SelectsTrades(table, rows[i].name, 0, keys)
    ensures rows[i].tradeCount == |keys| && keys != []
    ensures rows[i].minTime == keys[0].time && rows[i].maxTime == keys[|keys| - 1].time
  {
    var row := rows[i];
    var mine := AccountKeys(table, row.name);
    assert IsSummaryOf(row, table);
    assert WantedKeys(table, row.name, 0) == mine;
    ListingLength(keys, mine);
    var youngest :| youngest in mine && youngest.time == row.maxTime;
    assert youngest in keys;
    forall k | k in mine ensures keys[0].time <= k.time <= keys[|keys| - 1].time {
      assert k in keys;
      var n :| 0 <= n < |keys| && keys[n] == k;
      assert keys[0] in mine && keys[|keys| - 1] in mine;
      TextBeforeTotal(row.name, row.name);
      assert 0 < n ==> NotAfter(keys[0], k);
      assert n < |keys| - 1 ==> NotAfter(k, keys[|keys| - 1]);
    }
    var times := set k | k in mine :: k.time;
    assert keys[0].time in times && keys[|keys| - 1].time in times;
  }

  ghost function TotalCount(rows: seq<AccountRow>): nat {
    if rows == [] then 0 else TotalCount(rows[..|rows| - 1]) + rows[|rows| - 1].tradeCount
  }

  ghost function Covered(table: Table, rows: seq<AccountRow>): set<PrimaryKey> {
    set k | k in table && exists i :: 0 <= i < |rows| && rows[i].name == k.account
  }

  /** One more account covers its own rows and no row twice. */
  lemma CoverOneMore(table: Table, rows: seq<AccountRow>)
    requires rows != []
    requires forall i, j | 0 <= i < j < |rows| :: TextBefore(rows[i].name, rows[j].name)
    ensures Covered(table, rows[..|rows| - 1]) !! AccountKeys(table, rows[|rows| - 1].name)
    ensures Covered(table, rows) == Covered(table, rows[..|rows| - 1]) + AccountKeys(table, rows[|rows| - 1].name)
  {
    var n := |rows| - 1;
    var init, last := rows[..n], rows[n];
    forall k | k in Covered(table, init) ensures k.account != last.name && k in Covered(table, rows) {
      var i :| 0 <= i < |init| && init[i].name == k.account;
      assert rows[i].name == k.account;
      assert TextBefore(rows[i].name, rows[n].name);
      TextBeforeTotal(last.name, last.name);
    }
    forall k | k in Covered(table, rows) ensures k in Covered(table, init) || k.account == last.name {
      var i :| 0 <= i < |rows| && rows[i].name == k.account;
      assert i < n ==> init[i].name == k.account;
    }
    forall k | k in AccountKeys(table, last.name) ensures k in Covered(table, rows) {
      assert rows[n].name == k.account;
    }
  }

  lemma {:induction false} CountsAddUp(table: Table, rows: seq<AccountRow>)
    requires forall i | 0 <= i < |rows| :: IsSummaryOf(rows[i], table)
    requires forall i, j | 0 <= i < j < |rows| :: TextBefore(rows[i].name, rows[j].name)
    ensures TotalCount(rows) == |Covered(table, rows)|
  {
    if rows == [] {
      assert Covered(table, rows) == {};
    } else {
      CountsAddUp(table, rows[..|rows| - 1]);
      CoverOneMore(table, rows);
    }
  }

  lemma EverythingIsCovered(table: Table, rows: seq<AccountRow>)
    requires SelectsAccounts(table, rows)
    ensures Covered(table, rows) == table.Keys
  {
    forall k | k in table ensures exists i :: 0 <= i < |rows| && rows[i].name == k.account {
      assert k.account in Accounts(table);
    }
  }

  /** Over all accounts, the counts sum to the size of the table. */
  lemma CountsCoverTable(table: Table, rows: seq<AccountRow>)
    requires SelectsAccounts(table, rows)
    ensures TotalCount(rows) == |table|
  {
    CountsAddUp(table, rows);
    EverythingIsCovered(table, rows);
    assert |table.Keys| == |table|;
  }
}
