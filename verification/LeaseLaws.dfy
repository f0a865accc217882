/** What leases promise over every history of store calls
  (engine/core/src/run_store.cpp). */
module LeaseLaws {
  import opened Ids
  import opened LedgerKeys
  import opened Storage

  /** ds[i + 1] is ds[i] after call ws[i]; the clock never goes back. */
  ghost predicate IsHistory(ds: seq<Disk>, ws: seq<Write>) {
    && |ds| == |ws| + 1
    && (forall i {:trigger ws[i]} :: 0 <= i < |ws| ==> ds[i + 1] == Applied(ds[i], ws[i]))
    && (forall i, j :: 0 <= i < j < |ws| && ws[i].AcquireLease? && ws[j].AcquireLease? ==> ws[i].now <= ws[j].now)
  }

  /** The call grants a to worker w. */
  predicate Grants(d: Disk, call: Write, a: Attempt, w: string) {
    && Accepted(d, call)
    && ((call.AcquireLease? && call.attempt == a && call.worker == w) ||
        (call.RenewLease? && call.attempt == a && call.worker == w))
  }

  /** Until when w may take a for its own, after the first i calls: the expiry
    last granted to it. A worker hears of nothing else. */
  ghost function Believes(ds: seq<Disk>, ws: seq<Write>, i: nat, a: Attempt, w: string): Option<int>
    requires |ds| == |ws| + 1 && i <= |ws|
  {
    if i == 0 then None
    else if Grants(ds[i - 1], ws[i - 1], a, w) then Some(ws[i - 1].expires)
    else Believes(ds, ws, i - 1, a, w)
  }

  ghost predicate BelievesPast(ds: seq<Disk>, ws: seq<Write>, i: nat, a: Attempt, w: string, t: int)
    requires |ds| == |ws| + 1 && i <= |ws|
  {
    Believes(ds, ws, i, a, w).Some? && Believes(ds, ws, i, a, w).value > t
  }

  /** No acquisition among the first i calls is later than t. */
  ghost predicate NotBefore(ws: seq<Write>, i: nat, t: int) {
    forall j :: 0 <= j < i && j < |ws| && ws[j].AcquireLease? ==> ws[j].now <= t
  }

  /** A worker that still believes in its lease is the recorded holder, and an
    open lease expires when its holder believes. */
  lemma {:induction false} BelieverHolds(ds: seq<Disk>, ws: seq<Write>, i: nat, a: Attempt, w: string, t: int)
    requires IsHistory(ds, ws) && a !in ds[0].leases && i <= |ws| && w != ""
    requires NotBefore(ws, i, t) && BelievesPast(ds, ws, i, a, w, t)
    ensures a in ds[i].leases && ds[i].leases[a].worker == w
    ensures LeaseOpen(ds[i], a) ==> ds[i].leases[a].expires == Believes(ds, ws, i, a, w).value
  {
    hide Applied, Accepted;
    if i > 0 {
      var d, call := ds[i - 1], ws[i - 1];
      assert ds[i] == Applied(d, call);
      if Grants(d, call, a, w) {
        GrantHolds(d, call, a, w);
      } else {
        BelieverHolds(ds, ws, i - 1, a, w, t);
        HolderStays(d, call, a, w, Believes(ds, ws, i - 1, a, w).value, t);
      }
    }
  }

  lemma GrantHolds(d: Disk, call: Write, a: Attempt, w: string)
    requires Grants(d, call, a, w)
    ensures a in Applied(d, call).leases && Applied(d, call).leases[a].worker == w
    ensures Applied(d, call).leases[a].expires == call.expires
  {
  }

  lemma HolderStays(d: Disk, call: Write, a: Attempt, w: string, e: int, t: int)
    requires a in d.leases && d.leases[a].worker == w != "" && (LeaseOpen(d, a) ==> d.leases[a].expires == e) && e > t
    requires call.AcquireLease? ==> call.now <= t
    requires !Grants(d, call, a, w)
    ensures var d' := Applied(d, call);
      a in d'.leases && d'.leases[a].worker == w && (LeaseOpen(d', a) ==> d'.leases[a].expires == e)
  {
  }

  /** At most one worker at a time believes that it holds an attempt. */
  lemma OneBeliever(ds: seq<Disk>, ws: seq<Write>, i: nat, a: Attempt, w: string, w': string, t: int)
    requires IsHistory(ds, ws) && a !in ds[0].leases && i <= |ws| && w != "" && w' != ""
    requires NotBefore(ws, i, t)
    requires BelievesPast(ds, ws, i, a, w, t) && BelievesPast(ds, ws, i, a, w', t)
    ensures w == w'
  {
    BelieverHolds(ds, ws, i, a, w, t);
    BelieverHolds(ds, ws, i, a, w', t);
  }

  /** No other worker acquires the attempt before the holder's current expiry. */
  lemma NoEarlySteal(ds: seq<Disk>, ws: seq<Write>, i: nat, a: Attempt, w: string)
    requires IsHistory(ds, ws) && a !in ds[0].leases && i < |ws| && w != ""
    requires ws[i].AcquireLease? && ws[i].attempt == a && ws[i].worker != w
    requires BelievesPast(ds, ws, i, a, w, ws[i].now)
    ensures !Accepted(ds[i], ws[i])
  {
    var call := ws[i];
    BelieverHolds(ds, ws, i, a, w, call.now);
  }

  lemma {:induction false} HistoryGrows(ds: seq<Disk>, ws: seq<Write>, i: nat, j: nat)
    requires IsHistory(ds, ws) && i <= j <= |ws|
    ensures Grows(ds[i], ds[j])
    decreases j - i
  {
    hide Grows, Applied;
    if i == j {
      GrowsReflexive(ds[i]);
    } else {
      HistoryGrows(ds, ws, i, j - 1);
      var call := ws[j - 1];
      AppliedGrows(ds[j - 1], call);
      GrowsTransitive(ds[i], ds[j - 1], ds[j]);
    }
  }

  /** A closed lease keeps its verdict and is never granted again. */
  lemma ClosedForGood(ds: seq<Disk>, ws: seq<Write>, i: nat, j: nat, a: Attempt, w: string)
    requires IsHistory(ds, ws) && i <= j < |ws| && a in ds[i].leases && !LeaseOpen(ds[i], a)
    ensures a in ds[j].leases && ds[j].leases[a].status == ds[i].leases[a].status && !Grants(ds[j], ws[j], a, w)
  {
    HistoryGrows(ds, ws, i, j);
  }

  /** The call closes a's lease: a completion or a reap. */
  predicate Closes(d: Disk, call: Write, a: Attempt) {
    LeaseOpen(d, a) && !LeaseOpen(Applied(d, call), a)
  }

  lemma OnlyFinishOrReapCloses(d: Disk, call: Write, a: Attempt)
    ensures Closes(d, call, a) <==>
            LeaseOpen(d, a) && Accepted(d, call) && (call.FinishAttempt? || call.ExpireLease?) && call.attempt == a
  {
  }

  /** Of a completion and a reap, only one closes the lease. */
  lemma ClosedOnce(ds: seq<Disk>, ws: seq<Write>, i: nat, j: nat, a: Attempt)
    requires IsHistory(ds, ws) && i < |ws| && j < |ws| && Closes(ds[i], ws[i], a) && Closes(ds[j], ws[j], a)
    ensures i == j
  {
    if i < j {
      ClosedStays(ds, ws, i, j, a);
    } else if j < i {
      ClosedStays(ds, ws, j, i, a);
    }
  }

  lemma ClosedStays(ds: seq<Disk>, ws: seq<Write>, i: nat, j: nat, a: Attempt)
    requires IsHistory(ds, ws) && i < j < |ws| && Closes(ds[i], ws[i], a)
    ensures !LeaseOpen(ds[j], a)
  {
    var call := ws[i];
    LeaseStays(ds[i], call, a);
    HistoryGrows(ds, ws, i + 1, j);
  }

  lemma LeaseStays(d: Disk, call: Write, a: Attempt)
    requires a in d.leases
    ensures a in Applied(d, call).leases
  {
  }
}
