/** The funds table: insert or replace, and the latest-per-key self-join with an optional filter. */
module FundsTables {
  import opened Types
  import opened Orders

  datatype Pair = Pair(account: string, currency: string)

  datatype FundsKey = FundsKey(pair: Pair, time: int)

  datatype FundsRow = FundsRow(balance: real, hold: real, externalAccount: string)

  type FundsTable = map<FundsKey, FundsRow>

  /** A time of zero means "now"; a missing hold means none. */
  datatype Funds = Funds(pair: Pair, balance: real, hold: Number, time: int, externalAccount: string)

  function TimeOf(item: Funds, now: int): int {
    if item.time != 0 then item.time else now
  }

  function RowOf(item: Funds): FundsRow {
    FundsRow(item.balance, if item.hold.NaN? then 0.0 else item.hold.value, item.externalAccount)
  }

  function Write(table: FundsTable, item: Funds, now: int): FundsTable {
    table[FundsKey(item.pair, TimeOf(item, now)) := RowOf(item)]
  }

  function WriteAll(table: FundsTable, items: seq<Funds>, now: int): FundsTable {
    if items == [] then table else Write(WriteAll(table, items[..|items| - 1], now), items[|items| - 1], now)
  }

  class Table {
    var rows: FundsTable

    constructor ()
      ensures rows == map[]
    {
      rows := map[];
    }

    method Insert(items: seq<Funds>, now: int)
      modifies this
      ensures rows == WriteAll(old(rows), items, now)
    {
      for i := 0 to |items|
        invariant rows == WriteAll(old(rows), items[..i], now)
      {
        assert items[..i + 1][..i] == items[..i];
        rows := rows[FundsKey(items[i].pair, TimeOf(items[i], now)) := RowOf(items[i])];
      }
      assert items[..|items|] == items;
    }
  }

  // ---- the query

  /** An empty account or currency does not filter. */
  predicate Wanted(pair: Pair, account: string, currency: string) {
    (account != "" ==> pair.account == account) && (currency != "" ==> pair.currency == currency)
  }

  /** The latest time per pair, over the rows that pass the filter: SELECT ..., MAX(time) WHERE ... GROUP BY ... */
  ghost predicate Groups(table: FundsTable, account: string, currency: string, pair: Pair, time: int) {
    && FundsKey(pair, time) in table && Wanted(pair, account, currency)
    && forall k <- table | k.pair == pair && Wanted(k.pair, account, currency) :: k.time <= time
  }

  /** The rows of the table joined to their group on account, currency and time. */
  ghost function Selected(table: FundsTable, account: string, currency: string): set<FundsKey> {
    set k | k in table && Groups(table, account, currency, k.pair, k.time)
  }

  predicate PairBefore(p: Pair, q: Pair) {
    TextBefore(p.account, q.account) || (p.account == q.account && TextBefore(p.currency, q.currency))
  }

  predicate KeyNotAfter(j: FundsKey, k: FundsKey) {
    !PairBefore(k.pair, j.pair)
  }

  /** `keys` are the selected rows, ordered by account and currency. */
  ghost predicate SelectsFunds(table: FundsTable, account: string, currency: string, keys: seq<FundsKey>) {
    Sorted(keys, Selected(table, account, currency), KeyNotAfter)
  }

  lemma PairBeforeTotal(p: Pair, q: Pair)
    ensures PairBefore(p, q) || p == q || PairBefore(q, p)
    ensures !(PairBefore(p, q) && PairBefore(q, p)) && !PairBefore(p, p)
  {
    TextBeforeTotal(p.account, q.account);
    TextBeforeTotal(p.account, p.account);
    TextBeforeTotal(p.currency, q.currency);
    TextBeforeTotal(p.currency, p.currency);
  }

  lemma PairBeforeTransitive(p: Pair, q: Pair, r: Pair)
    requires PairBefore(p, q) && PairBefore(q, r)
    ensures PairBefore(p, r)
  {
    if TextBefore(p.account, q.account) && TextBefore(q.account, r.account) {
      TextBeforeTransitive(p.account, q.account, r.account);
    } else if p.account == q.account == r.account {
      TextBeforeTransitive(p.currency, q.currency, r.currency);
    }
  }

  /** Every query has an answer. */
  lemma FundsExist(table: FundsTable, account: string, currency: string) returns (keys: seq<FundsKey>)
    ensures SelectsFunds(table, account, currency, keys)
  {
    forall j, k ensures KeyNotAfter(j, k) || KeyNotAfter(k, j) {
      PairBeforeTotal(j.pair, k.pair);
    }
    forall i, j, k | KeyNotAfter(i, j) && KeyNotAfter(j, k) ensures KeyNotAfter(i, k) {
      PairBeforeTotal(i.pair, j.pair);
      PairBeforeTotal(j.pair, k.pair);
      if PairBefore(k.pair, i.pair) && i.pair != j.pair && j.pair != k.pair {
        PairBeforeTransitive(i.pair, j.pair, k.pair);
        PairBeforeTotal(i.pair, k.pair);
      }
    }
    keys := SortExists(Selected(table, account, currency), KeyNotAfter);
  }

  // ---- the latest value per pair

  /** One insert with the clock it was made at. */
  datatype Written = Written(item: Funds, now: int)

  datatype Latest = Latest(time: int, row: FundsRow)

  function TableAfter(history: seq<Written>): FundsTable {
    if history == [] then map[]
    else Write(TableAfter(history[..|history| - 1]), history[|history| - 1].item, history[|history| - 1].now)
  }

  /** One batch is that many inserts at one clock value. */
  lemma {:induction false} BatchExtendsHistory(history: seq<Written>, items: seq<Funds>, now: int)
    ensures WriteAll(TableAfter(history), items, now)
         == TableAfter(history + seq(|items|, i requires 0 <= i < |items| => Written(items[i], now)))
  {
    var batch := seq(|items|, i requires 0 <= i < |items| => Written(items[i], now));
    if items == [] {
      assert history + batch == history;
    } else {
      var init := items[..|items| - 1];
      BatchExtendsHistory(history, init, now);
      assert (history + batch)[..|history + batch| - 1]
          == history + seq(|init|, i requires 0 <= i < |init| => Written(init[i], now));
    }
  }

  /** The value with the greatest time, the newest insert winning ties. */
  function LatestAfter(history: seq<Written>): map<Pair, Latest> {
    if history == [] then map[]
    else
      var before, last := LatestAfter(history[..|history| - 1]), history[|history| - 1];
      var pair, time := last.item.pair, TimeOf(last.item, last.now);
      if pair in before && time < before[pair].time then before else before[pair := Latest(time, RowOf(last.item))]
  }

  ghost predicate Tracks(table: FundsTable, latest: map<Pair, Latest>) {
    && (forall p <- latest :: FundsKey(p, latest[p].time) in table && table[FundsKey(p, latest[p].time)] == latest[p].row)
    && (forall k <- table :: k.pair in latest && k.time <= latest[k.pair].time)
  }

  lemma {:induction false} LatestTracksTable(history: seq<Written>)
    ensures Tracks(TableAfter(history), LatestAfter(history))
  {
    if history != [] {
      LatestTracksTable(history[..|history| - 1]);
    }
  }

  lemma SelectedIsLatest(table: FundsTable, latest: map<Pair, Latest>, account: string, currency: string)
    requires Tracks(table, latest)
    ensures Selected(table, account, currency) ==
              set p | p in latest && Wanted(p, account, currency) :: FundsKey(p, latest[p].time)
  {
    var right := set p | p in latest && Wanted(p, account, currency) :: FundsKey(p, latest[p].time);
    forall k | k in Selected(table, account, currency) ensures k in right {
      assert FundsKey(k.pair, latest[k.pair].time) in table;
      assert k == FundsKey(k.pair, latest[k.pair].time);
    }
    forall k | k in right ensures k in Selected(table, account, currency) {
      assert Groups(table, account, currency, k.pair, k.time);
    }
  }

  /**
   After any history of inserts and for every filter, the query returns exactly one row per matching pair, the latest
   one, in strictly increasing order of account and currency.
   */
  lemma FundsQueryIsLatest(history: seq<Written>, account: string, currency: string, keys: seq<FundsKey>)
    requires SelectsFunds(TableAfter(history), account, currency, keys)
    ensures forall p :: (exists i :: 0 <= i < |keys| && keys[i].pair == p) <==>
                        p in LatestAfter(history) && Wanted(p, account, currency)
    ensures forall i | 0 <= i < |keys| ::
              && keys[i] in TableAfter(history)
              && LatestAfter(history)[keys[i].pair] == Latest(keys[i].time, TableAfter(history)[keys[i]])
    ensures forall i, j | 0 <= i < j < |keys| :: PairBefore(keys[i].pair, keys[j].pair)
  {
    var table, latest := TableAfter(history), LatestAfter(history);
    LatestTracksTable(history);
    SelectedIsLatest(table, latest, account, currency);
    forall p | p in latest && Wanted(p, account, currency) ensures exists i :: 0 <= i < |keys| && keys[i].pair == p {
      assert FundsKey(p, latest[p].time) in keys;
    }
    forall i | 0 <= i < |keys|
      ensures keys[i].pair in latest && Wanted(keys[i].pair, account, currency)
      ensures keys[i] == FundsKey(keys[i].pair, latest[keys[i].pair].time)
    {
      assert keys[i] in Selected(table, account, currency);
    }
    forall i, j | 0 <= i < j < |keys| ensures PairBefore(keys[i].pair, keys[j].pair) {
      assert keys[i].pair != keys[j].pair && KeyNotAfter(keys[i], keys[j]);
      PairBeforeTotal(keys[i].pair, keys[j].pair);
    }
  }

  /** The time and the columns that an insert writes: a zero time stands for the clock, a NaN hold for none. */
  predicate Writes(w: Written, time: int, row: FundsRow) {
    && time == (if w.item.time != 0 then w.item.time else w.now)
    && row.balance == w.item.balance
    && row.hold == (if w.item.hold.NaN? then 0.0 else w.item.hold.value)
    && row.externalAccount == w.item.externalAccount
  }

  /** Insert `n` is the newest one with the greatest time for its pair. */
  ghost predicate NewestLatest(history: seq<Written>, n: nat, time: int, row: FundsRow) {
    && n < |history| && Writes(history[n], time, row)
    && forall m, t, r | 0 <= m < |history| && history[m].item.pair == history[n].item.pair && Writes(history[m], t, r) ::
         t <= time && (n < m ==> t < time)
  }

  /** Lexicographic order by account, and by currency for one account. */
  ghost predicate InOrder(p: Pair, q: Pair) {
    if p.account == q.account then exists n: nat :: DiffersAt(p.currency, q.currency, n)
    else exists n: nat :: DiffersAt(p.account, q.account, n)
  }

  lemma PairBeforeExactly(p: Pair, q: Pair)
    ensures PairBefore(p, q) <==> InOrder(p, q)
  {
    TextBeforeTotal(p.account, q.account);
    TextBeforeExactly(p.account, q.account);
    TextBeforeExactly(p.currency, q.currency);
  }

  lemma {:induction false} LatestIsNewest(history: seq<Written>, pair: Pair) returns (n: nat)
    requires pair in LatestAfter(history)
    ensures NewestLatest(history, n, LatestAfter(history)[pair].time, LatestAfter(history)[pair].row)
    ensures history[n].item.pair == pair
  {
    var init, last := history[..|history| - 1], history[|history| - 1];
    LatestTracksTable(init);
    if pair in LatestAfter(init) {
      n := LatestIsNewest(init, pair);
    }
    if last.item.pair == pair && !(pair in LatestAfter(init) && TimeOf(last.item, last.now) < LatestAfter(init)[pair].time) {
      if pair !in LatestAfter(init) {
        NeverWritten(init, pair);
      }
      n := |history| - 1;
    }
  }

  lemma {:induction false} NeverWritten(history: seq<Written>, pair: Pair)
    requires pair !in LatestAfter(history)
    ensures forall m | 0 <= m < |history| :: history[m].item.pair != pair
  {
    if history != [] {
      NeverWritten(history[..|history| - 1], pair);
    }
  }

  /** Every queried row is what the newest insert with the greatest time for its account and currency wrote. */
  lemma FundsRowIsNewest(history: seq<Written>, account: string, currency: string, keys: seq<FundsKey>, i: nat)
    returns (n: nat)
    requires SelectsFunds(TableAfter(history), account, currency, keys) && i < |keys|
    ensures account == "" || keys[i].pair.account == account
    ensures currency == "" || keys[i].pair.currency == currency
    ensures keys[i] in TableAfter(history)
    ensures NewestLatest(history, n, keys[i].time, TableAfter(history)[keys[i]]) && history[n].item.pair == keys[i].pair
  {
    FundsQueryIsLatest(history, account, currency, keys);
    assert keys[i] in Selected(TableAfter(history), account, currency);
    n := LatestIsNewest(history, keys[i].pair);
  }

  /** Every insert that passes the filter has a row for its account and currency. */
  lemma FundsAreCovered(history: seq<Written>, account: string, currency: string, keys: seq<FundsKey>, m: nat)
    requires SelectsFunds(TableAfter(history), account, currency, keys) && m < |history|
    requires account == "" || history[m].item.pair.account == account
    requires currency == "" || history[m].item.pair.currency == currency
    ensures exists i :: 0 <= i < |keys| && keys[i].pair == history[m].item.pair
  {
    FundsQueryIsLatest(history, account, currency, keys);
    if history[m].item.pair !in LatestAfter(history) {
      NeverWritten(history, history[m].item.pair);
    }
  }

  /** The rows are in lexicographic order of account and currency. */
  lemma FundsAreInOrder(history: seq<Written>, account: string, currency: string, keys: seq<FundsKey>, i: nat, j: nat)
    requires SelectsFunds(TableAfter(history), account, currency, keys) && i < j < |keys|
    ensures InOrder(keys[i].pair, keys[j].pair)
  {
    FundsQueryIsLatest(history, account, currency, keys);
    PairBeforeExactly(keys[i].pair, keys[j].pair);
  }

  /** Filtering inside the grouped sub-select is the same as filtering the unfiltered result. */
  lemma FilterInsideIsFilterOutside(table: FundsTable, account: string, currency: string)
    ensures Selected(table, account, currency) ==
              set k | k in Selected(table, "", "") && Wanted(k.pair, account, currency)
  {
    forall k | k in table && Wanted(k.pair, account, currency)
      ensures Groups(table, account, currency, k.pair, k.time) <==> Groups(table, "", "", k.pair, k.time)
    {
    }
  }
}
