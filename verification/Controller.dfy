/** The controller object: event handlers over the object graph, each proved to be the matching step of the machine. */
module Controllers {
  import opened Types
  import opened Registries
  import opened Books
  import opened Ledger
  import opened Machine

  /** A message as it is handed to the dispatcher: the limits are in no particular order. */
  datatype Message = Message(
    source: nat,
    kind: Kind,
    owner: string,
    limits: seq<RiskLimit>,
    sessionId: nat,
    seqno: nat)

  ghost predicate Carries(m: Message, x: Send) {
    && m.source == x.source && m.kind == x.kind && m.owner == x.owner
    && m.sessionId == x.sessionId && m.seqno == x.seqno
    && Lists(m.limits, x.limits)
  }

  /** `ms` carries every message of `xs` exactly once, in some order. */
  ghost predicate Batch(ms: seq<Message>, xs: set<Send>) {
    exists order: seq<Send> :: BatchIn(ms, xs, order)
  }

  ghost predicate BatchIn(ms: seq<Message>, xs: set<Send>, order: seq<Send>) {
    && Visits(order, xs)
    && |ms| == |order|
    && forall i | 0 <= i < |order| :: Carries(ms[i], order[i])
  }

  lemma BatchEmpty()
    ensures Batch([], {})
  {
    assert BatchIn([], {}, []);
  }

  lemma BatchOne(m: Message, x: Send)
    requires Carries(m, x)
    ensures Batch([m], {x})
  {
    assert BatchIn([m], {x}, [x]);
  }

  lemma BatchConcat(ms: seq<Message>, xs: set<Send>, ms': seq<Message>, xs': set<Send>)
    requires Batch(ms, xs) && Batch(ms', xs') && xs !! xs'
    ensures Batch(ms + ms', xs + xs')
  {
    var order :| BatchIn(ms, xs, order);
    var order' :| BatchIn(ms', xs', order');
    forall i, j | 0 <= i < j < |order + order'| ensures (order + order')[i] != (order + order')[j] {
      if i < |order| <= j {
        assert order[i] in xs && order'[j - |order|] in xs';
      }
    }
    assert BatchIn(ms + ms', xs + xs', order + order');
  }

  /** The messages of one book, restricted to the owners in `names`. */
  ghost function NamedSends(b: BookState, instruments: map<nat, InstrumentKey>, kind: Kind, source: nat,
                            session: Session, names: set<string>): set<Send>
  {
    set n | n in names && Outgoing(b, instruments, n) != map[] ::
      Send(source, kind, n, Outgoing(b, instruments, n), session.sessionId, session.seqno)
  }

  lemma NamedSendsAdd(b: BookState, instruments: map<nat, InstrumentKey>, kind: Kind, source: nat, session: Session,
                      names: set<string>, n: string)
    requires n !in names
    ensures var x := Send(source, kind, n, Outgoing(b, instruments, n), session.sessionId, session.seqno);
            var xs := NamedSends(b, instruments, kind, source, session, names);
            && x !in xs
            && NamedSends(b, instruments, kind, source, session, names + {n}) ==
                 if Outgoing(b, instruments, n) == map[] then xs else xs + {x}
  {
  }

  lemma NamedSendsOne(b: BookState, instruments: map<nat, InstrumentKey>, kind: Kind, source: nat, session: Session,
                      n: string)
    ensures NamedSends(b, instruments, kind, source, session, {}) == {}
    ensures NamedSends(b, instruments, kind, source, session, {n}) ==
              if Outgoing(b, instruments, n) == map[] then {}
              else {Send(source, kind, n, Outgoing(b, instruments, n), session.sessionId, session.seqno)}
  {
  }

  lemma ClearOneMore(b: BookState, instruments: map<nat, InstrumentKey>, names: set<string>, n: string)
    requires n !in names
    ensures Cleared(Cleared(b.dirty, names), {n}) == Cleared(b.dirty, names + {n})
    ensures Outgoing(b.(dirty := Cleared(b.dirty, names)), instruments, n) == Outgoing(b, instruments, n)
  {
  }

  /** Draining one more owner adds its message and clears its set, whatever was drained before. */
  lemma NamedSendsStep(b: BookState, instruments: map<nat, InstrumentKey>, kind: Kind, source: nat, session: Session,
                       done: set<string>, n: string)
    requires n !in done
    ensures var now := b.(dirty := Cleared(b.dirty, done));
            var xs := NamedSends(b, instruments, kind, source, session, done);
            var x := NamedSends(now, instruments, kind, source, session, {n});
            && xs !! x
            && NamedSends(b, instruments, kind, source, session, done + {n}) == xs + x
            && Cleared(now.dirty, {n}) == Cleared(b.dirty, done + {n})
  {
    ClearOneMore(b, instruments, done, n);
    NamedSendsAdd(b, instruments, kind, source, session, done, n);
    NamedSendsOne(b.(dirty := Cleared(b.dirty, done)), instruments, kind, source, session, n);
  }

  lemma ListsEmpty(out: seq<RiskLimit>, m: map<nat, RiskLimit>)
    requires Lists(out, m)
    ensures out == [] <==> m == map[]
  {
    var order :| ListsIn(out, m, order);
    assert forall id <- m :: id in order;
    if out != [] {
      assert order[0] in m;
    }
  }

  /** One message if the owner has anything waiting, none otherwise. */
  method PublishOwner(b: Book, kind: Kind, instruments: map<nat, InstrumentKey>, source: nat, session: Session, n: string)
    returns (out: seq<Message>)
    requires b.Valid()
    modifies b`dirty
    ensures b.Valid() && b.View() == old(b.View()).(dirty := Cleared(old(b.dirty), {n}))
    ensures Batch(out, NamedSends(old(b.View()), instruments, kind, source, session, {n}))
  {
    ghost var m := Outgoing(b.View(), instruments, n);
    NamedSendsOne(b.View(), instruments, kind, source, session, n);
    var limits := b.DrainOwner(n, instruments);
    ListsEmpty(limits, m);
    BatchEmpty();
    out := [];
    if limits != [] {
      var message := Message(source, kind, n, limits, session.sessionId, session.seqno);
      BatchOne(message, Send(source, kind, n, m, session.sessionId, session.seqno));
      out := [message];
    }
  }

  /** Drains every owner of a book, in any order, into one message each. */
  method PublishBook(b: Book, kind: Kind, instruments: map<nat, InstrumentKey>, source: nat, session: Session)
    returns (out: seq<Message>)
    requires b.Valid()
    modifies b`dirty
    ensures b.Valid() && b.View() == Drained(old(b.View()))
    ensures Batch(out, NamedSends(old(b.View()), instruments, kind, source, session, old(b.View()).owners.Keys))
  {
    out := [];
    BatchEmpty();
    ghost var before := b.View();
    ghost var done: set<string> := {};
    var names := b.owners.Keys;
    var todo := names;
    assert Cleared(before.dirty, done) == before.dirty;
    assert NamedSends(before, instruments, kind, source, session, done) == {};
    while todo != {}
      invariant Progress(names, todo, done)
      invariant b.Valid() && b.View() == before.(dirty := Cleared(before.dirty, done))
      invariant Batch(out, NamedSends(before, instruments, kind, source, session, done))
    {
      var n :| n in todo;
      OneMore(names, todo, done, n);
      NamedSendsStep(before, instruments, kind, source, session, done, n);
      var more := PublishOwner(b, kind, instruments, source, session, n);
      BatchConcat(out, NamedSends(before, instruments, kind, source, session, done), more,
                  NamedSends(before.(dirty := Cleared(before.dirty, done)), instruments, kind, source, session, {n}));
      out := out + more;
      todo, done := todo - {n}, done + {n};
    }
    assert done == before.owners.Keys;
  }

  method DispatchPosition(registry: Registry, b: Book, name: string, row: LoadedRow)
    requires b.Valid()
    modifies registry, b, b.Members, b.Repr
    ensures b.Valid() && fresh(b.Repr - old(b.Repr))
    ensures (registry.View(), b.View()) == LoadInto(old(registry.View()), old(b.View()), name, row)
  {
    if name != "" && name in b.owners {
      var id := registry.GetInstrument(row.key);
      b.Kept();
      b.OnDatabasePosition(name, id, row.key, row.long, row.short);
    }
  }

  method DispatchTrade(registry: Registry, b: Book, name: string, update: TradeUpdate)
    requires b.Valid()
    modifies registry, b, b.Members, b.Repr
    ensures b.Valid() && fresh(b.Repr - old(b.Repr))
    ensures (registry.View(), b.View()) == TradeInto(old(registry.View()), old(b.View()), name, update)
  {
    if name in b.owners {
      var id := registry.GetInstrument(update.key);
      b.Kept();
      b.OnTradeUpdate(name, id, update);
    }
  }

  /** A timer that has served the sources before `source` is at state `now` and has sent `sent`. */
  ghost predicate TimerAt(start: State, now: State, source: nat, sent: set<Send>) {
    && |now.sessions| == |start.sessions|
    && PublishFrom(now, source) == PublishFrom(start, 0)
    && SendsFrom(start, 0) == sent + SendsFrom(now, source)
    && forall x <- sent :: x.source < source
  }

  lemma TimerMoves(start: State, now: State, source: nat, sent: set<Send>)
    requires TimerAt(start, now, source, sent) && source < |now.sessions|
    ensures if now.sessions[source].ready
            then
              && sent !! SourceSends(now, source)
              && TimerAt(start, DrainedState(now), source + 1, sent + SourceSends(now, source))
            else TimerAt(start, now, source + 1, sent)
  {
    if now.sessions[source].ready {
      assert sent + SendsFrom(now, source)
          == sent + SourceSends(now, source) + SendsFrom(DrainedState(now), source + 1);
    }
  }

  lemma TimerStarts(start: State)
    ensures TimerAt(start, start, 0, {})
  {
    assert {} + SendsFrom(start, 0) == SendsFrom(start, 0);
  }

  lemma TimerEnds(start: State, now: State, sent: set<Send>)
    requires TimerAt(start, now, |now.sessions|, sent)
    ensures now == Next(start, Timer) && sent == Sends(start, Timer)
  {
    assert sent + {} == sent;
  }

  class Controller {
    const registry: Registry
    const accounts: Book
    const users: Book
    const database: TradeTable
    var sessions: seq<Session>
    var lastTime: int

    ghost predicate Valid()
      reads this, accounts`Repr, accounts.Members, users`Repr, users.Members
    {
      accounts.Valid() && users.Valid() && accounts.kind == ByAccount && users.kind == ByUser
    }

    ghost function View(): State
      requires Valid()
      reads this, registry, database, accounts, accounts.Members, accounts.Repr, users, users.Members, users.Repr
    {
      State(registry.View(), accounts.View(), users.View(), sessions, lastTime, database.rows)
    }

    constructor Over(registry: Registry, accounts: Book, users: Book, database: TradeTable, sources: nat)
      ensures this.registry == registry && this.accounts == accounts && this.users == users
      ensures this.database == database && sessions == NoSessions(sources) && lastTime == 0
    {
      this.registry, this.accounts, this.users, this.database := registry, accounts, users, database;
      sessions := NoSessions(sources);
      lastTime := 0;
    }

    /** A controller over `table`; `rows` are the positions that the database reports for it. */
    static method Create(accountLimits: Limits, userLimits: Limits, sources: nat, table: Table, rows: seq<LoadedRow>)
      returns (c: Controller)
      ensures c.Valid() && c.View() == Initial(accountLimits, userLimits, sources, table, rows)
      ensures fresh({c, c.registry, c.database, c.accounts, c.users})
      ensures fresh(c.accounts.Members + c.users.Members) && fresh(c.accounts.Repr + c.users.Repr)
    {
      var registry := new Registry();
      var database := new TradeTable(table);
      var accounts := new Book(accountLimits, ByAccount);
      label Accounts:
      var users := new Book(userLimits, ByUser);
      accounts.Kept@Accounts();
      label Users:
      c := new Controller.Over(registry, accounts, users, database, sources);
      accounts.Kept@Users();
      users.Kept@Users();
      c.LoadPositions(rows);
    }

    method LoadPositions(rows: seq<LoadedRow>)
      requires Valid()
      modifies this, registry, accounts, accounts.Members, accounts.Repr, users, users.Members, users.Repr
      ensures Valid() && fresh(accounts.Repr - old(accounts.Repr)) && fresh(users.Repr - old(users.Repr))
      ensures View() == LoadRows(old(View()), rows)
    {
      for i := 0 to |rows|
        invariant Valid() && fresh(accounts.Repr - old(accounts.Repr)) && fresh(users.Repr - old(users.Repr))
        invariant View() == LoadRows(old(View()), rows[..i])
      {
        assert rows[..i + 1][..i] == rows[..i];
        LoadPosition(rows[i]);
      }
      assert rows[..|rows|] == rows;
    }

    method LoadPosition(row: LoadedRow)
      requires Valid()
      modifies this, registry, accounts, accounts.Members, accounts.Repr, users, users.Members, users.Repr
      ensures Valid() && fresh(accounts.Repr - old(accounts.Repr)) && fresh(users.Repr - old(users.Repr))
      ensures View() == LoadRow(old(View()), row)
    {
      SetLastTime(row.time);
      LoadBoth(row);
    }

    method SetLastTime(time: int)
      requires Valid()
      modifies this
      ensures Valid() && View() == old(View()).(lastTime := if old(lastTime) < time then time else old(lastTime))
    {
      lastTime := if lastTime < time then time else lastTime;
    }

    method LoadBoth(row: LoadedRow)
      requires Valid()
      modifies registry, accounts, accounts.Members, accounts.Repr, users, users.Members, users.Repr
      ensures Valid() && fresh(accounts.Repr - old(accounts.Repr)) && fresh(users.Repr - old(users.Repr))
      ensures var (r, u) := LoadInto(old(registry.View()), old(users.View()), row.user, row);
              var (r', a) := LoadInto(r, old(accounts.View()), row.account, row);
              View() == old(View()).(registry := r', accounts := a, users := u)
    {
      DispatchPosition(registry, users, row.user, row);
      accounts.Kept();
      label Users:
      DispatchPosition(registry, accounts, row.account, row);
      users.Kept@Users();
    }

    // ---- handlers

    method SetMessageInfo(info: MessageInfo)
      requires Valid() && info.source < |sessions|
      modifies this
      ensures Valid() && View() == Stamp(old(View()), info)
    {
      SetSession(info.source, sessions[info.source].(sessionId := info.sessionId, seqno := info.seqno));
    }

    method SetSession(source: nat, session: Session)
      requires Valid() && source < |sessions|
      modifies this
      ensures Valid() && View() == old(View()).(sessions := old(sessions)[source := session])
    {
      sessions := sessions[source := session];
    }

    method PublishAccount(account: string)
      requires Valid()
      modifies accounts`dirty
      ensures Valid()
      ensures View() == old(View()).(accounts := Mark(old(accounts.View()), account, old(registry.instruments.Keys)))
    {
      accounts.PublishAll(account, registry.instruments);
      users.Kept();
    }

    method PublishUsers()
      requires Valid()
      modifies users`dirty
      ensures Valid()
      ensures View() == old(View()).(users := MarkOwners(old(users.View()), old(registry.instruments.Keys)))
    {
      users.PublishAllOwners(registry.instruments);
      accounts.Kept();
    }

    method OnDisconnected(source: nat)
      requires Valid() && source < |sessions|
      modifies this
      ensures Valid() && View() == Next(old(View()), Disconnected(source))
    {
      SetSession(source, NO_SESSION);
    }

    method OnDownloadBegin(info: MessageInfo, account: string)
      requires Valid() && info.source < |sessions|
      modifies this
      ensures Valid() && View() == Next(old(View()), DownloadBegin(info, account))
    {
      SetMessageInfo(info);
    }

    method OnDownloadEnd(info: MessageInfo, account: string)
      requires Valid() && info.source < |sessions|
      modifies this, accounts`dirty
      ensures Valid() && View() == Next(old(View()), DownloadEnd(info, account))
    {
      SetMessageInfo(info);
      if account == "" {
        return;
      }
      var session := sessions[info.source];
      if account !in session.latch {
        SetSession(info.source, session.(latch := session.latch + {account}));
        PublishAccount(account);
      }
    }

    method OnReady(info: MessageInfo)
      requires Valid() && info.source < |sessions|
      modifies this, users`dirty
      ensures Valid() && View() == Next(old(View()), Event.Ready(info))
    {
      SetMessageInfo(info);
      if sessions[info.source].ready {
        return;
      }
      SetSession(info.source, sessions[info.source].(ready := true));
      PublishUsers();
    }

    method OnReferenceData(key: InstrumentKey, minTradeVol: Number)
      requires Valid()
      modifies registry, accounts`Repr, accounts.Members, users`Repr, users.Members
      ensures Valid() && fresh(accounts.Repr - old(accounts.Repr)) && fresh(users.Repr - old(users.Repr))
      ensures View() == Next(old(View()), ReferenceData(key, minTradeVol))
    {
      var id := registry.GetInstrument(key);
      accounts.Kept();
      users.Kept();
      if minTradeVol.NaN? {
        return;
      }
      CreatePositions(id, key);
    }

    method CreatePositions(id: nat, key: InstrumentKey)
      requires Valid()
      modifies accounts`Repr, accounts.Members, users`Repr, users.Members
      ensures Valid() && fresh(accounts.Repr - old(accounts.Repr)) && fresh(users.Repr - old(users.Repr))
      ensures accounts.View() == ReferenceBook(old(accounts.View()), id, key)
      ensures users.View() == ReferenceBook(old(users.View()), id, key)
    {
      accounts.OnReferenceData(id, key);
      users.Kept();
      label Accounts:
      users.OnReferenceData(id, key);
      accounts.Kept@Accounts();
    }

    /** The trades handed to the subscribers are those handed to the database. */
    method OnTradeUpdate(info: MessageInfo, update: TradeUpdate) returns (trades: seq<Trade>)
      requires Valid() && info.source < |sessions|
      modifies this, registry, database, accounts, accounts.Members, accounts.Repr, users, users.Members, users.Repr
      ensures Valid() && fresh(accounts.Repr - old(accounts.Repr)) && fresh(users.Repr - old(users.Repr))
      ensures View() == Next(old(View()), Traded(info, update))
      ensures trades == if old(lastTime) < update.createTime then TradesOf(update) else []
    {
      SetMessageInfo(info);
      trades := [];
      if update.createTime <= lastTime {
        return;
      }
      CountTrade(update);
      for i := 0 to |update.fills|
        invariant trades == TradesOf(update)[..i]
      {
        trades := trades + [TradeOf(update, update.fills[i])];
      }
      assert trades == TradesOf(update);
      label Counted:
      database.Insert(trades);
      accounts.Kept@Counted();
      users.Kept@Counted();
    }

    /** Corrections from the control service go to the same database and nowhere else. */
    method Correct(corrections: seq<Correction>, now: int)
      requires Valid()
      modifies database
      ensures Valid() && View() == Next(old(View()), Corrected(corrections, now))
    {
      database.Correct(corrections, now);
      accounts.Kept();
      users.Kept();
    }

    method CountTrade(update: TradeUpdate)
      requires Valid()
      modifies registry, accounts, accounts.Members, accounts.Repr, users, users.Members, users.Repr
      ensures Valid() && fresh(accounts.Repr - old(accounts.Repr)) && fresh(users.Repr - old(users.Repr))
      ensures var (r, a) := TradeInto(old(registry.View()), old(accounts.View()), update.account, update);
              var (r', u) := TradeInto(r, old(users.View()), update.user, update);
              View() == old(View()).(registry := r', accounts := a, users := u)
    {
      DispatchTrade(registry, accounts, update.account, update);
      users.Kept();
      label Accounts:
      DispatchTrade(registry, users, update.user, update);
      accounts.Kept@Accounts();
    }

    method OnTimer() returns (out: seq<Message>)
      requires Valid()
      modifies accounts`dirty, users`dirty
      ensures Valid() && View() == Next(old(View()), Timer)
      ensures Batch(out, Sends(old(View()), Timer))
    {
      out := [];
      BatchEmpty();
      ghost var start, sent := View(), {};
      TimerStarts(start);
      for source := 0 to |sessions|
        invariant Valid() && TimerAt(start, View(), source, sent) && Batch(out, sent)
      {
        out, sent := ServeSource(source, out, start, sent);
      }
      TimerEnds(start, View(), sent);
    }

    /** Publishes to one more source, if it is ready. */
    method ServeSource(source: nat, before: seq<Message>, ghost start: State, ghost sent: set<Send>)
      returns (out: seq<Message>, ghost sent': set<Send>)
      requires Valid() && source < |sessions| && TimerAt(start, View(), source, sent) && Batch(before, sent)
      modifies accounts`dirty, users`dirty
      ensures Valid() && TimerAt(start, View(), source + 1, sent') && Batch(out, sent')
    {
      TimerMoves(start, View(), source, sent);
      if !sessions[source].ready {
        return before, sent;
      }
      ghost var xs := SourceSends(View(), source);
      var more := PublishSource(source);
      BatchConcat(before, sent, more, xs);
      out, sent' := before + more, sent + xs;
    }

    method PublishSource(source: nat) returns (out: seq<Message>)
      requires Valid() && source < |sessions|
      modifies accounts`dirty, users`dirty
      ensures Valid() && View() == DrainedState(old(View()))
      ensures Batch(out, SourceSends(old(View()), source))
    {
      ghost var s := View();
      BookSendsAreNamed(s, ByAccount, source);
      BookSendsAreNamed(s, ByUser, source);
      out := PublishBook(accounts, ByAccount, registry.instruments, source, sessions[source]);
      users.Kept();
      label Accounts:
      var more := PublishBook(users, ByUser, registry.instruments, source, sessions[source]);
      accounts.Kept@Accounts();
      BatchConcat(out, BookSends(s, ByAccount, source), more, BookSends(s, ByUser, source));
      out := out + more;
    }
  }

  lemma BookSendsAreNamed(s: State, kind: Kind, source: nat)
    requires source < |s.sessions|
    ensures BookSends(s, kind, source)
         == NamedSends(BookOf(s, kind), s.registry.instruments, kind, source, s.sessions[source],
                       BookOf(s, kind).owners.Keys)
  {
  }
}
