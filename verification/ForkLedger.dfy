/** The admission ledger of one Snapshot, as internal/forklimit/pool.go keeps it: which leases occupy a slot. */
module ForkLedger {
  import NatSets

  type LeaseId = nat

  datatype Lease = Lease(active: bool, debt: bool, tracking: bool)

  datatype Ledger = Ledger(limit: nat, closed: bool, blocked: bool, leases: map<LeaseId, Lease>)

  /** Which settled-but-unconfirmed leases stop admission. */
  ghost predicate InDebt(p: Ledger) { exists l :: l in p.leases && p.leases[l].debt }

  /** Does acquireLocked hand out a lease? Recovery reopens a blocked pool only when no lease is in debt. */
  ghost predicate Admits(p: Ledger, recover: bool) {
    && !p.closed
    && (p.blocked ==> recover && !InDebt(p))
    && |p.leases| < p.limit
  }

  function Acquire(p: Ledger, l: LeaseId): Ledger {
    p.(blocked := false, leases := p.leases[l := Lease(false, false, false)])
  }

  predicate Activates(p: Ledger, l: LeaseId) {
    !p.closed && l in p.leases && !p.leases[l].active && !p.blocked
  }

  function Activate(p: Ledger, l: LeaseId): Ledger
    requires Activates(p, l)
  {
    p.(leases := p.leases[l := p.leases[l].(active := true)])
  }

  function Cancel(p: Ledger, l: LeaseId): Ledger {
    if l in p.leases && !p.leases[l].active then p.(leases := p.leases - {l}) else p
  }

  /** Settle(nil): disposal is confirmed. */
  function Confirm(p: Ledger, l: LeaseId): Ledger { p.(leases := p.leases - {l}) }

  /** Settle(err): the slot is kept and admission stops. */
  function Retain(p: Ledger, l: LeaseId): Ledger {
    if l !in p.leases then p
    else p.(blocked := true, leases := p.leases[l := p.leases[l].(active := true, debt := true)])
  }

  /** TrackCleanup(err): like a retained error, but a watcher confirms once the owners are done. */
  function Track(p: Ledger, l: LeaseId): Ledger {
    if l !in p.leases || p.leases[l].tracking then p
    else p.(blocked := true,
            leases := p.leases[l := p.leases[l].(active := true, debt := true, tracking := true)])
  }

  function Revoke(leases: map<LeaseId, Lease>): map<LeaseId, Lease> {
    map l | l in leases && leases[l].active :: leases[l]
  }

  /** Close revokes unused reservations; active leases stay owned. */
  function CloseLedger(p: Ledger): Ledger {
    if p.closed then p else p.(closed := true, leases := Revoke(p.leases))
  }

  ghost predicate Bounded(p: Ledger) { |p.leases| <= p.limit }

  lemma KeySubset(a: map<LeaseId, Lease>, b: map<LeaseId, Lease>)
    requires a.Keys <= b.Keys
    ensures |a| <= |b|
    decreases |a.Keys|
  {
    NatSets.SubsetSize(a.Keys, b.Keys);
    assert |a| == |a.Keys| && |b| == |b.Keys|;
  }

  /** No operation but an admitted acquisition takes a slot, and that one stays within the limit. */
  lemma SlotsStayBounded(p: Ledger, l: LeaseId, recover: bool)
    requires Bounded(p)
    ensures Admits(p, recover) && l !in p.leases ==> Bounded(Acquire(p, l))
    ensures Activates(p, l) ==> Bounded(Activate(p, l))
    ensures Bounded(Cancel(p, l)) && Bounded(Confirm(p, l)) && Bounded(Retain(p, l)) && Bounded(Track(p, l))
    ensures Bounded(CloseLedger(p))
  {
    KeySubset(Cancel(p, l).leases, p.leases);
    KeySubset(Confirm(p, l).leases, p.leases);
    KeySubset(Retain(p, l).leases, p.leases);
    KeySubset(Track(p, l).leases, p.leases);
    KeySubset(CloseLedger(p).leases, p.leases);
    if Activates(p, l) { KeySubset(Activate(p, l).leases, p.leases); }
    assert |p.leases[l := Lease(false, false, false)]| <= |p.leases| + 1;
  }
}
