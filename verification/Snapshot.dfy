/** After a reconnect of the one source, the first timer following Ready sends a full snapshot. */
module Snapshots {
  import opened Types
  import opened Machine
  import opened Reachability
  import opened Gating
  import opened Publication

  /** Events `c` up to `d` are one connection of source 0, from its start. */
  ghost predicate Connection(es: seq<Event>, c: nat, d: nat) {
    && c <= d <= |es|
    && (c == 0 || Disconnects(es[c - 1], 0))
    && forall k | c <= k < d :: !Disconnects(es[k], 0)
  }

  predicate Downloads(e: Event, account: string) {
    e.DownloadEnd? && e.info.source == 0 && e.account == account
  }

  /** A session knows of nothing but the events of its own connection. */
  lemma {:induction false} SessionOfConnection(s: State, es: seq<Event>, c: nat, k: nat, account: string)
    requires Fresh(s) && |s.sessions| == 1 && c <= k && Connection(es, c, k)
    ensures |At(s, es, k).sessions| == 1
    ensures (forall j | c <= j < k :: !MakesReady(es[j], 0)) ==> !At(s, es, k).sessions[0].ready
    ensures (forall j | c <= j < k :: !Downloads(es[j], account)) ==> account !in At(s, es, k).sessions[0].latch
  {
    SessionCount(s, es, k);
    if k > 0 {
      SessionCount(s, es, k - 1);
      SessionStep(At(s, es, k - 1), es[k - 1], 0);
      if k > c {
        SessionOfConnection(s, es, c, k - 1, account);
      }
    }
  }

  /** What waits keeps waiting until a timer finds a ready source. */
  lemma {:induction false} WaitsUntil(s: State, es: seq<Event>, i: nat, t: nat, kind: Kind, name: string, id: nat)
    requires Ok(s) && i <= t <= |es|
    requires HasPosition(At(s, es, i), kind, name, id) && Waiting(At(s, es, i), kind, name, id)
    requires forall k | i <= k < t && es[k].Timer? :: !AnyReady(At(s, es, k))
    ensures HasPosition(At(s, es, t), kind, name, id) && Waiting(At(s, es, t), kind, name, id)
    decreases t
  {
    if i < t {
      WaitsUntil(s, es, i, t - 1, kind, name, id);
      RunOk(s, es, t - 1);
      if es[t - 1].Timer? {
        TimerStep(At(s, es, t - 1), kind, name, id);
      } else {
        QuietStep(At(s, es, t - 1), es[t - 1], kind, name, id);
      }
    }
  }

  /**
   `r` is the first Ready of the connection that starts at `c`, and `t` the first timer after it, still on that
   connection.
   */
  ghost predicate FirstTimer(es: seq<Event>, c: nat, r: nat, t: nat) {
    && c <= r < t < |es| && Connection(es, c, t)
    && MakesReady(es[r], 0) && (forall k | c <= k < r :: !MakesReady(es[k], 0))
    && es[t].Timer? && (forall k | r < k < t :: !es[k].Timer?)
  }

  lemma NotReadyBefore(s: State, es: seq<Event>, c: nat, r: nat, t: nat, k: nat)
    requires Fresh(s) && |s.sessions| == 1 && FirstTimer(es, c, r, t) && c <= k < t && es[k].Timer?
    ensures !AnyReady(At(s, es, k))
  {
    assert k < r;
    SessionOfConnection(s, es, c, k, "");
  }

  lemma ReadyAfter(s: State, es: seq<Event>, r: nat, t: nat)
    requires |s.sessions| == 1 && r < t <= |es| && MakesReady(es[r], 0)
    requires forall k | r < k < t :: !Disconnects(es[k], 0)
    ensures AnyReady(At(s, es, t))
  {
    WitnessIsReady(s, es, t, 0, r);
  }

  /** The message to source 0 at event `t` reports the position as it stands then. */
  ghost predicate Snapshot(s: State, es: seq<Event>, t: nat, kind: Kind, name: string, id: nat)
    requires t < |es|
  {
    && HasPosition(At(s, es, t), kind, name, id)
    && exists x <- SendsAt(s, es, t) ::
         x.source == 0 && Addresses(x, kind, name, id) && Reports(x, id, PositionAt(At(s, es, t), kind, name, id))
  }

  /** What waits anywhere on the connection before the first timer is sent by it, as it then stands. */
  lemma FirstTimerSends(s: State, es: seq<Event>, c: nat, r: nat, t: nat, i: nat, kind: Kind, name: string, id: nat)
    requires Ok(s) && Fresh(s) && |s.sessions| == 1 && FirstTimer(es, c, r, t) && c <= i <= t
    requires HasPosition(At(s, es, i), kind, name, id) && Waiting(At(s, es, i), kind, name, id)
    ensures Snapshot(s, es, t, kind, name, id)
  {
    forall k | i <= k < t && es[k].Timer? ensures !AnyReady(At(s, es, k)) {
      NotReadyBefore(s, es, c, r, t, k);
    }
    WaitsUntil(s, es, i, t, kind, name, id);
    RunOk(s, es, t);
    ReadyAfter(s, es, r, t);
    var x := WaitingIsSent(s, es, t, kind, name, id);
    SendsAreGated(s, es, t, x);
  }

  lemma DownloadMarks(s: State, e: Event, account: string, id: nat)
    requires Ok(s) && |s.sessions| == 1 && Downloads(e, account) && account != "" && account !in s.sessions[0].latch
    requires HasPosition(s, ByAccount, account, id)
    ensures HasPosition(Next(s, e), ByAccount, account, id) && Waiting(Next(s, e), ByAccount, account, id)
  {
    assert PositionOk(s.accounts, s.registry, account, id);
  }

  lemma AccountWaits(s: State, es: seq<Event>, c: nat, q: nat, account: string, id: nat)
    requires Ok(s) && Fresh(s) && |s.sessions| == 1 && Connection(es, c, q) && q < |es|
    requires account != "" && Downloads(es[q], account)
    requires forall k | c <= k < q :: !Downloads(es[k], account)
    requires HasPosition(At(s, es, q), ByAccount, account, id)
    ensures HasPosition(At(s, es, q + 1), ByAccount, account, id) && Waiting(At(s, es, q + 1), ByAccount, account, id)
  {
    RunOk(s, es, q);
    SessionOfConnection(s, es, c, q, account);
    DownloadMarks(At(s, es, q), es[q], account, id);
  }

  /**
   Every position that an account has at its first DownloadEnd of a connection is sent by the first timer after that
   connection's Ready.
   */
  lemma FullAccountSnapshot(s: State, es: seq<Event>, c: nat, q: nat, r: nat, t: nat, account: string, id: nat)
    requires Ok(s) && Fresh(s) && |s.sessions| == 1 && FirstTimer(es, c, r, t)
    requires c <= q < t && account != "" && Downloads(es[q], account)
    requires forall k | c <= k < q :: !Downloads(es[k], account)
    requires HasPosition(At(s, es, q), ByAccount, account, id)
    ensures Snapshot(s, es, t, ByAccount, account, id)
  {
    AccountWaits(s, es, c, q, account, id);
    FirstTimerSends(s, es, c, r, t, q + 1, ByAccount, account, id);
  }

  lemma ReadyMarks(s: State, e: Event, user: string, id: nat)
    requires Ok(s) && |s.sessions| == 1 && MakesReady(e, 0) && !s.sessions[0].ready
    requires HasPosition(s, ByUser, user, id)
    ensures HasPosition(Next(s, e), ByUser, user, id) && Waiting(Next(s, e), ByUser, user, id)
  {
    assert PositionOk(s.users, s.registry, user, id);
  }

  lemma UserWaits(s: State, es: seq<Event>, c: nat, r: nat, user: string, id: nat)
    requires Ok(s) && Fresh(s) && |s.sessions| == 1 && Connection(es, c, r) && r < |es|
    requires MakesReady(es[r], 0) && forall k | c <= k < r :: !MakesReady(es[k], 0)
    requires HasPosition(At(s, es, r), ByUser, user, id)
    ensures HasPosition(At(s, es, r + 1), ByUser, user, id) && Waiting(At(s, es, r + 1), ByUser, user, id)
  {
    RunOk(s, es, r);
    SessionOfConnection(s, es, c, r, "");
    ReadyMarks(At(s, es, r), es[r], user, id);
  }

  /** Every position that a user has at Ready is sent by the first timer after it. */
  lemma FullUserSnapshot(s: State, es: seq<Event>, c: nat, r: nat, t: nat, user: string, id: nat)
    requires Ok(s) && Fresh(s) && |s.sessions| == 1 && FirstTimer(es, c, r, t)
    requires HasPosition(At(s, es, r), ByUser, user, id)
    ensures Snapshot(s, es, t, ByUser, user, id)
  {
    UserWaits(s, es, c, r, user, id);
    FirstTimerSends(s, es, c, r, t, r + 1, ByUser, user, id);
  }
}
