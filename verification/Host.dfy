/** A controller with its history: what is proved of every run of the machine holds of every controller object. */
module Hosts {
  import opened Types
  import opened Ledger
  import opened Machine
  import opened Controllers
  import opened Reachability
  import opened Gating
  import opened Tracking
  import opened Composition
  import opened Agreement

  /** Events only come from sources that the controller was created for. */
  predicate FromSource(e: Event, sources: nat) {
    match e
    case Timer => true
    case Connected(source) => source < sources
    case Disconnected(source) => source < sources
    case DownloadBegin(info, _) => info.source < sources
    case DownloadEnd(info, _) => info.source < sources
    case Ready(info) => info.source < sources
    case ReferenceData(_, _) => true
    case Traded(info, _) => info.source < sources
    case Corrected(_, _) => true
  }

  /** `view` is where `trace` leads from `start`, and each event sent what the machine says it sends. */
  ghost predicate History(start: State, trace: seq<Event>, sent: seq<seq<Message>>, view: State) {
    && view == At(start, trace, |trace|)
    && |sent| == |trace|
    && forall i | 0 <= i < |trace| :: Batch(sent[i], SendsAt(start, trace, i))
  }

  lemma HistoryGrows(start: State, trace: seq<Event>, sent: seq<seq<Message>>, view: State, e: Event, out: seq<Message>)
    requires History(start, trace, sent, view) && Batch(out, Sends(view, e))
    ensures History(start, trace + [e], sent + [out], Next(view, e))
  {
    forall i | 0 <= i <= |trace| ensures At(start, trace + [e], i) == At(start, trace, i) {
      AtPrefix(start, trace, trace + [e], i);
    }
    forall i | 0 <= i < |trace + [e]| ensures Batch((sent + [out])[i], SendsAt(start, trace + [e], i)) {
    }
  }

  class Host {
    const controller: Controller
    ghost const start: State
    ghost var trace: seq<Event>
    ghost var sent: seq<seq<Message>>
    ghost var Repr: set<object>

    ghost function Objects(): set<object>
      reads controller.accounts, controller.users
    {
      {controller, controller.registry, controller.database, controller.accounts, controller.users}
      + controller.accounts.Members + controller.accounts.Repr + controller.users.Members + controller.users.Repr
    }

    /** All objects of the controller are tracked, and it is where its history leads. */
    ghost predicate Valid()
      reads this, Repr
    {
      && this !in Repr && {controller.accounts, controller.users} <= Repr && Objects() <= Repr
      && controller.Valid() && Uncounted(start) && Fresh(start)
      && History(start, trace, sent, controller.View())
    }

    constructor (accounts: Limits, users: Limits, sources: nat, table: Table, rows: seq<LoadedRow>)
      ensures Valid() && fresh(Repr)
      ensures start == Initial(accounts, users, sources, table, rows) && trace == [] && sent == []
      ensures controller.View() == start
    {
      var c := Controller.Create(accounts, users, sources, table, rows);
      controller := c;
      start := Initial(accounts, users, sources, table, rows);
      trace := [];
      sent := [];
      Repr := {c, c.registry, c.database, c.accounts, c.users}
              + c.accounts.Members + c.accounts.Repr + c.users.Members + c.users.Repr;
      InitialOk(accounts, users, sources, table, rows);
    }

    /** The handler of each event is the matching step. */
    method Handle(e: Event) returns (out: seq<Message>, trades: seq<Trade>)
      requires controller.Valid() && FromSource(e, |controller.sessions|)
      modifies Objects()
      ensures controller.Valid() && controller.View() == Next(old(controller.View()), e)
      ensures fresh(controller.accounts.Repr - old(controller.accounts.Repr))
      ensures fresh(controller.users.Repr - old(controller.users.Repr))
      ensures Batch(out, Sends(old(controller.View()), e)) && trades == Handed(old(controller.View()), e)
    {
      BatchEmpty();
      out, trades := [], [];
      match e
      case Timer => out := controller.OnTimer();
      case Connected(_) =>
      case Disconnected(source) => controller.OnDisconnected(source);
      case DownloadBegin(info, account) => controller.OnDownloadBegin(info, account);
      case DownloadEnd(info, account) => controller.OnDownloadEnd(info, account);
      case Ready(info) => controller.OnReady(info);
      case ReferenceData(key, minTradeVol) => controller.OnReferenceData(key, minTradeVol);
      case Traded(info, update) => trades := controller.OnTradeUpdate(info, update);
      case Corrected(corrections, now) => controller.Correct(corrections, now);
    }

    /** The messages go to the dispatcher, the trades to the control service. */
    method Dispatch(e: Event) returns (out: seq<Message>, trades: seq<Trade>)
      requires Valid() && FromSource(e, |start.sessions|)
      modifies this, Repr
      ensures Valid() && fresh(Repr - old(Repr))
      ensures trace == old(trace) + [e] && sent == old(sent) + [out]
      ensures controller.View() == Next(old(controller.View()), e)
      ensures Batch(out, Sends(old(controller.View()), e)) && trades == Handed(old(controller.View()), e)
    {
      SourcesAreFixed();
      out, trades := Handle(e);
      HistoryGrows(start, trace, sent, old(controller.View()), e, out);
      Record(e, out);
    }

    ghost method Record(e: Event, out: seq<Message>)
      requires controller.Valid()
      modifies this
      ensures trace == old(trace) + [e] && sent == old(sent) + [out] && Repr == old(Repr) + Objects()
      ensures controller.Valid() && controller.View() == old(controller.View())
    {
      trace := trace + [e];
      sent := sent + [out];
      Repr := Repr + Objects();
    }

    /** A controller is what its own objects make it. */
    twostate lemma Kept()
      requires old(Valid())
      requires unchanged(this) && unchanged(old(Repr))
      ensures Valid() && controller.View() == old(controller.View())
    {
    }

    /** Each event has sent the machine's messages, each once. */
    lemma SentAsTheMachine()
      requires Valid()
      ensures |sent| == |trace| && forall i | 0 <= i < |trace| :: Batch(sent[i], SendsAt(start, trace, i))
    {
    }

    /** The number of sources never changes. */
    lemma SourcesAreFixed()
      requires Valid()
      ensures |controller.sessions| == |start.sessions|
    {
      SessionCount(start, trace, |trace|);
    }

    /** Any controller object, after any events: instruments, limits, positions and dirty sets are in order. */
    lemma AlwaysOk()
      requires Valid()
      ensures Ok(controller.View())
    {
      RunOk(start, trace, |trace|);
    }

    /** Any controller object, after any events: its table holds the live quantity and what is retained. */
    lemma AlwaysAgreesWithLedger(kind: Kind, name: string, key: InstrumentKey)
      requires Valid() && name in BookOf(start, kind).owners
      requires Identified(Occurrences(start.lastTime, trace) + YoungOccurrences(start))
      ensures Net(controller.database.rows, kind, name, key)
           == PositionOf(controller.View(), kind, name, key).quantity
              + Retained(start, trace, |trace|, kind, name, key)
    {
      LedgerNet(start, trace, |trace|, kind, name, key);
    }
  }
}
