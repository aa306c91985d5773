/** When messages are sent, to whom, and how they are stamped, over runs with any number of sources. */
module Gating {
  import opened Types
  import opened Books
  import opened Machine

  predicate Disconnects(e: Event, source: nat) {
    e.Disconnected? && e.source == source
  }

  predicate MakesReady(e: Event, source: nat) {
    e.Ready? && e.info.source == source
  }

  /** The events that carry a session id and a sequence number from `source`. */
  predicate Stamps(e: Event, source: nat) {
    (e.DownloadBegin? || e.DownloadEnd? || e.Ready? || e.Traded?) && e.info.source == source
  }

  // ---- a timer reaches the first ready source only

  function FirstReady(s: State, source: nat): (r: nat)
    ensures r >= source
    ensures r < |s.sessions| ==> s.sessions[r].ready
    ensures forall k | source <= k < r && k < |s.sessions| :: !s.sessions[k].ready
    decreases |s.sessions| - source
  {
    if source >= |s.sessions| || s.sessions[source].ready then source else FirstReady(s, source + 1)
  }

  lemma DrainedIsEmpty(b: BookState, instruments: map<nat, InstrumentKey>)
    ensures Drained(Drained(b)) == Drained(b)
    ensures forall n <- b.owners :: Outgoing(Drained(b), instruments, n) == map[]
  {
    assert Cleared(Drained(b).dirty, b.owners.Keys) == Drained(b).dirty;
  }

  lemma NothingLeft(s: State, source: nat)
    requires source < |s.sessions|
    ensures SourceSends(DrainedState(s), source) == {}
    ensures DrainedState(DrainedState(s)) == DrainedState(s)
  {
    DrainedIsEmpty(s.accounts, s.registry.instruments);
    DrainedIsEmpty(s.users, s.registry.instruments);
  }

  lemma {:induction false} DrainedPublishesNothing(s: State, source: nat)
    ensures SendsFrom(DrainedState(s), source) == {}
    ensures PublishFrom(DrainedState(s), source) == DrainedState(s)
    decreases |s.sessions| - source
  {
    if source < |s.sessions| {
      NothingLeft(s, source);
      DrainedPublishesNothing(s, source + 1);
    }
  }

  /** The first ready source drains everything; later sources get nothing from the same timer. */
  lemma {:induction false} FirstReadyGetsAll(s: State, source: nat)
    ensures var r := FirstReady(s, source);
            if r < |s.sessions| then SendsFrom(s, source) == SourceSends(s, r) && PublishFrom(s, source) == DrainedState(s)
            else SendsFrom(s, source) == {} && PublishFrom(s, source) == s
    decreases |s.sessions| - source
  {
    if source < |s.sessions| {
      if s.sessions[source].ready {
        DrainedPublishesNothing(s, source + 1);
      } else {
        FirstReadyGetsAll(s, source + 1);
      }
    }
  }

  // ---- sessions follow their events

  /** How one event changes what is known of one source. */
  function SessionAfter(session: Session, e: Event, source: nat): Session {
    if Disconnects(e, source) then NO_SESSION
    else if !Stamps(e, source) then session
    else Session(e.info.sessionId, e.info.seqno, session.ready || e.Ready?,
                 session.latch + if e.DownloadEnd? && e.account != "" then {e.account} else {})
  }

  lemma SessionStep(s: State, e: Event, source: nat)
    requires source < |s.sessions|
    ensures |Next(s, e).sessions| == |s.sessions|
    ensures Next(s, e).sessions[source] == SessionAfter(s.sessions[source], e, source)
  {
    var session := s.sessions[source];
    assert session.latch + {} == session.latch;
    match e
    case Timer => FirstReadyGetsAll(s, 0);
    case DownloadEnd(info, account) => assert account in session.latch ==> session.latch + {account} == session.latch;
    case _ =>
  }

  /**
   A ready source has seen Ready at some event `r` with no Disconnected since, and its stamp is that of the latest
   stamping event `q`, which is not before `r`.
   */
  ghost predicate ReadySince(es: seq<Event>, i: nat, source: nat, r: nat, q: nat)
    requires i <= |es|
  {
    && r <= q < i && MakesReady(es[r], source) && Stamps(es[q], source)
    && (forall k | r < k < i :: !Disconnects(es[k], source))
    && (forall k | q < k < i :: !Stamps(es[k], source))
  }

  ghost predicate Fresh(s: State) {
    forall k | 0 <= k < |s.sessions| :: s.sessions[k] == NO_SESSION
  }

  lemma {:induction false} SessionCount(s: State, es: seq<Event>, i: nat)
    requires i <= |es|
    ensures |At(s, es, i).sessions| == |s.sessions|
  {
    if i > 0 {
      SessionCount(s, es, i - 1);
      var t := At(s, es, i - 1);
      if |t.sessions| > 0 {
        SessionStep(t, es[i - 1], 0);
      } else if es[i - 1].Timer? {
        FirstReadyGetsAll(t, 0);
      }
    }
  }

  lemma {:induction false} ReadyHasWitness(s: State, es: seq<Event>, i: nat, source: nat) returns (r: nat, q: nat)
    requires i <= |es| && source < |s.sessions| && Fresh(s)
    requires |At(s, es, i).sessions| == |s.sessions| && At(s, es, i).sessions[source].ready
    ensures ReadySince(es, i, source, r, q)
    ensures At(s, es, i).sessions[source].sessionId == es[q].info.sessionId
    ensures At(s, es, i).sessions[source].seqno == es[q].info.seqno
  {
    SessionCount(s, es, i - 1);
    var t := At(s, es, i - 1);
    SessionStep(t, es[i - 1], source);
    if t.sessions[source].ready {
      r, q := ReadyHasWitness(s, es, i - 1, source);
      if Stamps(es[i - 1], source) {
        q := i - 1;
      }
    } else {
      r, q := i - 1, i - 1;
    }
  }

  lemma {:induction false} WitnessIsReady(s: State, es: seq<Event>, i: nat, source: nat, r: nat)
    requires r < i <= |es| && source < |s.sessions|
    requires MakesReady(es[r], source) && forall k | r < k < i :: !Disconnects(es[k], source)
    ensures |At(s, es, i).sessions| == |s.sessions| && At(s, es, i).sessions[source].ready
  {
    SessionCount(s, es, i);
    SessionCount(s, es, i - 1);
    SessionStep(At(s, es, i - 1), es[i - 1], source);
    if r < i - 1 {
      WitnessIsReady(s, es, i - 1, source, r);
    }
  }

  /** A source is ready exactly when the latest of its Ready and Disconnected events is Ready. */
  lemma ReadyExactly(s: State, es: seq<Event>, i: nat, source: nat)
    requires i <= |es| && source < |s.sessions| && Fresh(s)
    ensures |At(s, es, i).sessions| == |s.sessions|
    ensures At(s, es, i).sessions[source].ready <==>
              exists r :: 0 <= r < i && MakesReady(es[r], source) && forall k | r < k < i :: !Disconnects(es[k], source)
  {
    SessionCount(s, es, i);
    if At(s, es, i).sessions[source].ready {
      var r, q := ReadyHasWitness(s, es, i, source);
    }
    forall r | 0 <= r < i && MakesReady(es[r], source) && forall k | r < k < i :: !Disconnects(es[k], source)
      ensures At(s, es, i).sessions[source].ready
    {
      WitnessIsReady(s, es, i, source, r);
    }
  }

  /** Every message goes to a ready source, stamped with the latest event of that source on this connection. */
  lemma SendsAreGated(s: State, es: seq<Event>, i: nat, x: Send)
    requires i < |es| && Fresh(s) && x in SendsAt(s, es, i)
    ensures x.source < |s.sessions| && es[i].Timer?
    ensures exists r: nat, q: nat :: ReadySince(es, i, x.source, r, q)
                      && x.sessionId == es[q].info.sessionId && x.seqno == es[q].info.seqno
    ensures forall k: nat, r: nat, q: nat | k < x.source :: !ReadySince(es, i, k, r, q)
  {
    SessionCount(s, es, i);
    var t := At(s, es, i);
    FirstReadyGetsAll(t, 0);
    var r, q := ReadyHasWitness(s, es, i, x.source);
    forall k: nat, r': nat, q': nat | k < x.source && ReadySince(es, i, k, r', q') ensures false {
      WitnessIsReady(s, es, i, k, r');
    }
  }
}
