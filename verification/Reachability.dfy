/** What every reachable state satisfies: interned ids, cached limits, netted positions and bounded dirty sets. */
module Reachability {
  import opened Types
  import opened Positions
  import opened Registries
  import opened Books
  import opened Ledger
  import opened Machine

  /**
   Position keys and dirty sets only mention known instruments, every position carries the limit configured for its
   owner and instrument, and every position is netted.
   */
  ghost predicate BookOk(b: BookState, r: RegistryState) {
    && b.owners.Keys == b.limits.Keys
    && (forall n <- b.owners, id <- b.owners[n] :: PositionOk(b, r, n, id))
    && (forall n <- b.dirty, id <- b.dirty[n] :: id in r.instruments)
  }

  ghost predicate PositionOk(b: BookState, r: RegistryState, n: string, id: nat)
    requires n in b.owners && id in b.owners[n]
  {
    && id in r.instruments
    && b.owners[n][id].limit == LimitFor(b.limits, n, r.instruments[id])
    && Netted(b.owners[n][id])
  }

  ghost predicate Ok(s: State) {
    Bijective(s.registry) && BookOk(s.accounts, s.registry) && BookOk(s.users, s.registry)
  }

  /** Positions are never dropped, fills never forgotten, and the owners and limits are fixed. */
  ghost predicate BookGrows(b: BookState, b': BookState) {
    && b.limits == b'.limits && b.owners.Keys == b'.owners.Keys
    && forall n <- b.owners, id <- b.owners[n] ::
         id in b'.owners[n] && b.owners[n][id].fills <= b'.owners[n][id].fills
  }

  ghost predicate Grows(s: State, s': State) {
    && Extends(s.registry, s'.registry)
    && BookGrows(s.accounts, s'.accounts) && BookGrows(s.users, s'.users)
    && |s.sessions| == |s'.sessions| && s.lastTime == s'.lastTime
  }

  // ---- one book

  lemma BookOkExtends(b: BookState, r: RegistryState, r': RegistryState)
    requires BookOk(b, r) && Extends(r, r')
    ensures BookOk(b, r')
  {
    forall n, id | n in b.owners && id in b.owners[n] ensures PositionOk(b, r', n, id) {
      assert PositionOk(b, r, n, id);
    }
  }

  lemma MarkOk(b: BookState, r: RegistryState, names: set<string>, ids: set<nat>)
    requires BookOk(b, r) && ids <= r.instruments.Keys
    ensures BookOk(MarkNames(b, names, ids), r) && BookGrows(b, MarkNames(b, names, ids))
  {
    var b' := MarkNames(b, names, ids);
    forall n, id | n in b'.owners && id in b'.owners[n] ensures PositionOk(b', r, n, id) {
      assert PositionOk(b, r, n, id);
    }
  }

  lemma MarkOneOk(b: BookState, r: RegistryState, name: string, ids: set<nat>)
    requires BookOk(b, r) && ids <= r.instruments.Keys
    ensures BookOk(Mark(b, name, ids), r) && BookGrows(b, Mark(b, name, ids))
  {
    MarkOk(b, r, {name}, ids);
    assert Mark(b, name, ids) == MarkNames(b, {name}, ids);
  }

  lemma DrainOk(b: BookState, r: RegistryState)
    requires BookOk(b, r)
    ensures BookOk(Drained(b), r) && BookGrows(b, Drained(b))
  {
    var b' := Drained(b);
    forall n, id | n in b'.owners && id in b'.owners[n] ensures PositionOk(b', r, n, id) {
      assert PositionOk(b, r, n, id);
    }
  }

  lemma TouchOk(b: BookState, r: RegistryState, names: set<string>, id: nat, key: InstrumentKey)
    requires BookOk(b, r) && id in r.instruments && r.instruments[id] == key
    ensures var b' := b.(owners := TouchNames(b.owners, b.limits, names, id, key)); BookOk(b', r) && BookGrows(b, b')
  {
    var b' := b.(owners := TouchNames(b.owners, b.limits, names, id, key));
    forall n, i | n in b'.owners && i in b'.owners[n] ensures PositionOk(b', r, n, i) {
      if i in b.owners[n] {
        assert PositionOk(b, r, n, i);
      }
    }
  }

  ghost function Replace(b: BookState, name: string, id: nat, p: PositionState): BookState
    requires name in b.owners
  {
    var o: OwnerState := b.owners[name][id := p];
    b.(owners := b.owners[name := o])
  }

  lemma ReplaceOk(b: BookState, r: RegistryState, name: string, id: nat, p: PositionState)
    requires BookOk(b, r) && name in b.owners && id in b.owners[name]
    requires Netted(p) && p.limit == b.owners[name][id].limit && b.owners[name][id].fills <= p.fills
    ensures var b' := Replace(b, name, id, p); BookOk(b', r) && BookGrows(b, b')
  {
    var b' := Replace(b, name, id, p);
    forall n, i | n in b'.owners && i in b'.owners[n] ensures PositionOk(b', r, n, i) {
      assert PositionOk(b, r, n, i);
    }
  }

  /** A counted update is: make sure of the position, replace it, mark it. */
  lemma TradeBookParts(b: BookState, name: string, id: nat, update: TradeUpdate)
    requires name in b.owners
    ensures var b1 := b.(owners := TouchNames(b.owners, b.limits, {name}, id, update.key));
            var q := CountFills(b1.owners[name][id], update.side, update.fills);
            TradeBook(b, name, id, update) == Mark(Replace(b1, name, id, q), name, {id})
  {
    var b1 := b.(owners := TouchNames(b.owners, b.limits, {name}, id, update.key));
    var q := CountFills(b1.owners[name][id], update.side, update.fills);
    assert TradeBook(b, name, id, update).owners == Replace(b1, name, id, q).owners;
  }

  lemma CountedOk(p: PositionState, update: TradeUpdate)
    requires Netted(p)
    ensures var q := CountFills(p, update.side, update.fills); Netted(q) && q.limit == p.limit && p.fills <= q.fills
  {
    CountFillsAddsFirstSeen(p, update.side, update.fills);
    CountFillsKeepsNetted(p, update.side, update.fills);
  }

  lemma TradeBookOk(b: BookState, r: RegistryState, name: string, id: nat, update: TradeUpdate)
    requires BookOk(b, r) && name in b.owners && id in r.instruments && r.instruments[id] == update.key
    ensures BookOk(TradeBook(b, name, id, update), r) && BookGrows(b, TradeBook(b, name, id, update))
  {
    TouchOk(b, r, {name}, id, update.key);
    var b1 := b.(owners := TouchNames(b.owners, b.limits, {name}, id, update.key));
    var p := b1.owners[name][id];
    assert PositionOk(b1, r, name, id);
    CountedOk(p, update);
    var q := CountFills(p, update.side, update.fills);
    ReplaceOk(b1, r, name, id, q);
    MarkOneOk(Replace(b1, name, id, q), r, name, {id});
    TradeBookParts(b, name, id, update);
  }

  lemma LoadBookOk(b: BookState, r: RegistryState, name: string, id: nat, key: InstrumentKey, long: real, short: real)
    requires BookOk(b, r) && name in b.owners && id in r.instruments && r.instruments[id] == key
    requires id in b.owners[name] ==> b.owners[name][id].fills == {}
    ensures BookOk(LoadBook(b, name, id, key, long, short), r)
  {
    TouchOk(b, r, {name}, id, key);
    var b1 := b.(owners := TouchNames(b.owners, b.limits, {name}, id, key));
    assert PositionOk(b1, r, name, id);
    var q := LoadPosition(b1.owners[name][id], long, short);
    ReplaceOk(b1, r, name, id, q);
    assert LoadBook(b, name, id, key, long, short).owners == Replace(b1, name, id, q).owners;
  }

  // ---- one step

  lemma TradeIntoOk(r: RegistryState, b: BookState, name: string, update: TradeUpdate)
    requires Bijective(r) && BookOk(b, r)
    ensures var (r', b') := TradeInto(r, b, name, update);
            Bijective(r') && BookOk(b', r') && Extends(r, r') && BookGrows(b, b')
  {
    if name in b.owners {
      InternKeepsBijection(r, update.key);
      var r' := Intern(r, update.key);
      BookOkExtends(b, r, r');
      TradeBookOk(b, r', name, r'.lookup[update.key], update);
    }
  }

  lemma PublishOk(s: State, source: nat)
    requires Ok(s)
    ensures Ok(PublishFrom(s, source)) && Grows(s, PublishFrom(s, source))
    decreases |s.sessions| - source
  {
    if source < |s.sessions| {
      DrainOk(s.accounts, s.registry);
      DrainOk(s.users, s.registry);
      PublishOk(if s.sessions[source].ready then DrainedState(s) else s, source + 1);
    }
  }

  lemma TradedOk(s: State, info: MessageInfo, update: TradeUpdate)
    requires Ok(s)
    ensures Ok(OnTraded(s, info, update)) && Grows(s, OnTraded(s, info, update))
  {
    var t := Stamp(s, info);
    if Accepted(t.lastTime, update) {
      TradeIntoOk(t.registry, t.accounts, update.account, update);
      var (r, accounts) := TradeInto(t.registry, t.accounts, update.account, update);
      BookOkExtends(t.users, t.registry, r);
      TradeIntoOk(r, t.users, update.user, update);
      var (r', users) := TradeInto(r, t.users, update.user, update);
      BookOkExtends(accounts, r, r');
    }
  }

  lemma ReferenceOk(s: State, key: InstrumentKey, minTradeVol: Number)
    requires Ok(s)
    ensures Ok(OnReferenceData(s, key, minTradeVol)) && Grows(s, OnReferenceData(s, key, minTradeVol))
  {
    InternKeepsBijection(s.registry, key);
    var r := Intern(s.registry, key);
    BookOkExtends(s.accounts, s.registry, r);
    BookOkExtends(s.users, s.registry, r);
    TouchOk(s.accounts, r, s.accounts.owners.Keys, r.lookup[key], key);
    TouchOk(s.users, r, s.users.owners.Keys, r.lookup[key], key);
  }

  lemma GrowsFromItself(b: BookState)
    ensures BookGrows(b, b)
  {
  }

  /** Only the accounts have changed. */
  lemma AccountsOk(s: State, t: State)
    requires Ok(s) && t.registry == s.registry && t.users == s.users && t.lastTime == s.lastTime
    requires |t.sessions| == |s.sessions| && BookOk(t.accounts, s.registry) && BookGrows(s.accounts, t.accounts)
    ensures Ok(t) && Grows(s, t)
  {
  }

  lemma DownloadEndOk(s: State, info: MessageInfo, account: string)
    requires Ok(s)
    ensures Ok(OnDownloadEnd(s, info, account)) && Grows(s, OnDownloadEnd(s, info, account))
  {
    MarkOneOk(s.accounts, s.registry, account, s.registry.instruments.Keys);
    GrowsFromItself(s.accounts);
    AccountsOk(s, OnDownloadEnd(s, info, account));
  }

  lemma ReadyOk(s: State, info: MessageInfo)
    requires Ok(s)
    ensures Ok(OnReady(s, info)) && Grows(s, OnReady(s, info))
  {
    MarkOk(s.users, s.registry, s.users.owners.Keys, s.registry.instruments.Keys);
    GrowsFromItself(s.accounts);
    GrowsFromItself(s.users);
  }

  /** Only the sessions and the table have changed. */
  lemma SessionsOk(s: State, t: State)
    requires Ok(s) && t.registry == s.registry && t.accounts == s.accounts && t.users == s.users
    requires |t.sessions| == |s.sessions| && t.lastTime == s.lastTime
    ensures Ok(t) && Grows(s, t)
  {
  }

  lemma NextOk(s: State, e: Event)
    requires Ok(s)
    ensures Ok(Next(s, e)) && Grows(s, Next(s, e))
  {
    match e
    case Timer => PublishOk(s, 0);
    case Traded(info, update) => TradedOk(s, info, update);
    case ReferenceData(key, minTradeVol) => ReferenceOk(s, key, minTradeVol);
    case DownloadEnd(info, account) => DownloadEndOk(s, info, account);
    case Ready(info) => ReadyOk(s, info);
    case _ => SessionsOk(s, Next(s, e));
  }

  lemma GrowsTransitive(s: State, t: State, u: State)
    requires Grows(s, t) && Grows(t, u)
    ensures Grows(s, u)
  {
  }

  // ---- every run

  lemma {:induction false} RunOk(s: State, es: seq<Event>, i: nat)
    requires Ok(s) && i <= |es|
    ensures Ok(At(s, es, i)) && Grows(s, At(s, es, i))
  {
    if i > 0 {
      RunOk(s, es, i - 1);
      NextOk(At(s, es, i - 1), es[i - 1]);
      GrowsTransitive(s, At(s, es, i - 1), At(s, es, i));
    }
  }

  lemma {:induction false} RunGrows(s: State, es: seq<Event>, i: nat, j: nat)
    requires Ok(s) && i <= j <= |es|
    ensures Grows(At(s, es, i), At(s, es, j))
    decreases j
  {
    RunOk(s, es, i);
    if i < j {
      RunGrows(s, es, i, j - 1);
      RunOk(s, es, j - 1);
      NextOk(At(s, es, j - 1), es[j - 1]);
      GrowsTransitive(At(s, es, i), At(s, es, j - 1), At(s, es, j));
    }
  }

  /**
   In every run, draining an owner finds the instrument of every waiting id and the owner itself: the only ids left out
   are those in which the owner has no position.
   */
  lemma DrainSkipsNothing(s: State, es: seq<Event>, i: nat, kind: Kind, name: string)
    requires Ok(s) && i <= |es| && name in BookOf(s, kind).owners
    ensures var t := At(s, es, i);
            var b := BookOf(t, kind);
            && name in b.owners && DirtyOf(b, name) <= t.registry.instruments.Keys
            && Outgoing(b, t.registry.instruments, name).Keys == DirtyOf(b, name) * b.owners[name].Keys
            && forall id <- Outgoing(b, t.registry.instruments, name) ::
                 var key := Outgoing(b, t.registry.instruments, name)[id].key;
                 key in t.registry.lookup && t.registry.lookup[key] == id
  {
    RunOk(s, es, i);
  }

  // ---- start-up

  /** Nothing is counted while positions are loaded. */
  ghost predicate NoFills(b: BookState) {
    && b.dirty == map[]
    && forall n <- b.owners, id <- b.owners[n] :: b.owners[n][id].fills == {}
  }

  lemma LoadIntoOk(r: RegistryState, b: BookState, name: string, row: LoadedRow)
    requires Bijective(r) && BookOk(b, r) && NoFills(b)
    ensures var (r', b') := LoadInto(r, b, name, row);
            Bijective(r') && BookOk(b', r') && NoFills(b') && Extends(r, r') && b'.limits == b.limits
  {
    if name != "" && name in b.owners {
      InternKeepsBijection(r, row.key);
      var r' := Intern(r, row.key);
      BookOkExtends(b, r, r');
      LoadBookOk(b, r', name, r'.lookup[row.key], row.key, row.long, row.short);
    }
  }

  lemma {:induction false} LoadRowsOk(s: State, rows: seq<LoadedRow>)
    requires Ok(s) && NoFills(s.accounts) && NoFills(s.users)
    ensures var t := LoadRows(s, rows);
            && Ok(t) && NoFills(t.accounts) && NoFills(t.users)
            && t.sessions == s.sessions && t.table == s.table && s.lastTime <= t.lastTime
            && t.accounts.limits == s.accounts.limits && t.users.limits == s.users.limits
            && forall i | 0 <= i < |rows| :: rows[i].time <= t.lastTime
  {
    if rows != [] {
      var init, row := rows[..|rows| - 1], rows[|rows| - 1];
      LoadRowsOk(s, init);
      var t := LoadRows(s, init);
      LoadIntoOk(t.registry, t.users, row.user, row);
      var (r, users) := LoadInto(t.registry, t.users, row.user, row);
      BookOkExtends(t.accounts, t.registry, r);
      LoadIntoOk(r, t.accounts, row.account, row);
      var (r', accounts) := LoadInto(r, t.accounts, row.account, row);
      BookOkExtends(users, r, r');
      forall i | 0 <= i < |rows| ensures rows[i].time <= LoadRows(s, rows).lastTime {
        assert i < |init| ==> rows[i] == init[i];
      }
    }
  }

  lemma InitialOk(accounts: Limits, users: Limits, sources: nat, table: Table, rows: seq<LoadedRow>)
    ensures var s := Initial(accounts, users, sources, table, rows);
            && Ok(s) && NoFills(s.accounts) && NoFills(s.users)
            && s.accounts.limits == accounts && s.users.limits == users
            && |s.sessions| == sources && (forall i | 0 <= i < sources :: s.sessions[i] == NO_SESSION)
            && s.table == table
            && forall i | 0 <= i < |rows| :: rows[i].time <= s.lastTime
  {
    LoadRowsOk(Empty(accounts, users, sources, table), rows);
  }
}
