/** How often a lease can be granted at one position, whatever the clients do: at most once
    more than it was released, plus once per shortest effective lease that went by. */
module GrantBound {
  import opened Wrappers
  import opened LeaseTime
  import opened Protocol
  import opened History

  /** One server clock that never goes back and stays below the `i64` maximum. */
  ghost predicate Clocked(cs: seq<Handling>) {
    && (forall i :: 0 <= i < |cs| ==> 0 <= cs[i].now < I64_MAX)
    && (forall i, j :: 0 <= i <= j < |cs| ==> cs[i].now <= cs[j].now)
  }

  ghost predicate GrantedAt(ws: seq<Workflow>, cs: seq<Handling>, i: nat, p: int)
    requires IsRun(ws, cs) && i < |cs|
  {
    cs[i].request.Lease? && cs[i].request.position == p && ReplyAt(ws, cs, i).Granted?
  }

  ghost function Grants(ws: seq<Workflow>, cs: seq<Handling>, n: nat, p: int): nat
    requires IsRun(ws, cs) && n <= |cs|
  {
    if n == 0 then 0 else Grants(ws, cs, n - 1, p) + (if GrantedAt(ws, cs, n - 1, p) then 1 else 0)
  }

  ghost function Releases(cs: seq<Handling>, n: nat, p: int): nat
    requires n <= |cs|
  {
    if n == 0 then 0 else Releases(cs, n - 1, p) + (if cs[n - 1].request == Release(p) then 1 else 0)
  }

  /** Lease time granted less lease time given back, at `unit` a lease. */
  ghost function Owed(ws: seq<Workflow>, cs: seq<Handling>, n: nat, p: int, unit: nat): int
    requires IsRun(ws, cs) && n <= |cs|
  {
    if n == 0 then 0
    else Owed(ws, cs, n - 1, p, unit)
         + (if GrantedAt(ws, cs, n - 1, p) then unit else 0)
         - (if cs[n - 1].request == Release(p) then unit else 0)
  }

  lemma {:induction false} OwedCounts(ws: seq<Workflow>, cs: seq<Handling>, n: nat, p: int, unit: nat)
    requires IsRun(ws, cs) && n <= |cs|
    ensures Owed(ws, cs, n, p, unit) == unit * (Grants(ws, cs, n, p) - Releases(cs, n, p))
  {
    hide Handle, GrantedAt;
    if n > 0 {
      OwedCounts(ws, cs, n - 1, p, unit);
      var d := Grants(ws, cs, n - 1, p) - Releases(cs, n - 1, p);
      assert unit * (d + 1) == unit * d + unit && unit * (d - 1) == unit * d - unit;
    }
  }

  /** The debt is covered by elapsed time, up to the lease that is still out. */
  ghost predicate Covered(w: Workflow, p: int, owed: int, unit: nat, elapsed: int, now: int) {
    && owed - unit <= elapsed
    && (p !in w.rows ==>
          if p in w.leases then
            owed <= 0 ||
            (owed - unit <= elapsed - (now - w.leases[p].createdAt) && EffectiveLength(w.leases[p].timeout) >= unit)
          else owed <= elapsed)
  }

  lemma CoveredLater(w: Workflow, p: int, owed: int, unit: nat, elapsed: int, now: int, now': int)
    requires Covered(w, p, owed, unit, elapsed, now) && now <= now'
    ensures Covered(w, p, owed, unit, elapsed + (now' - now), now')
  {
  }

  lemma HandlingKeepsCovered(w: Workflow, p: int, owed: int, unit: nat, elapsed: int, now: int, q: Request)
    requires Covered(w, p, owed, unit, elapsed, now) && elapsed >= 0 && w.token.Some? && 0 <= now < I64_MAX
    requires var out := Handle(w, now, q);
             && out.after.token.Some?
             && (q.Lease? && q.position == p && out.reply.Granted? ==> EffectiveLength(q.timeout) >= unit)
    ensures var out := Handle(w, now, q);
            var owed' := owed + (if q.Lease? && q.position == p && out.reply.Granted? then unit else 0)
                              - (if q == Release(p) then unit else 0);
            Covered(out.after, p, owed', unit, elapsed, now)
  {
  }

  lemma {:induction false} AlwaysCovered(ws: seq<Workflow>, cs: seq<Handling>, n: nat, p: int, unit: nat)
    requires IsRun(ws, cs) && 0 < n <= |cs| && SameIncarnation(ws, 0, n) && Clocked(cs)
    requires forall i :: 0 <= i < |cs| && GrantedAt(ws, cs, i, p) ==> EffectiveLength(cs[i].request.timeout) >= unit
    ensures Covered(ws[n], p, Owed(ws, cs, n, p, unit), unit, cs[n - 1].now - cs[0].now, cs[n - 1].now)
  {
    var k := n - 1;
    if k > 0 {
      AlwaysCovered(ws, cs, k, p, unit);
      CoveredLater(ws[k], p, Owed(ws, cs, k, p, unit), unit, cs[k - 1].now - cs[0].now, cs[k - 1].now, cs[k].now);
    }
    assert GrantedAt(ws, cs, k, p) ==> EffectiveLength(cs[k].request.timeout) >= unit;
    assert ws[k].token.Some? && ws[n].token.Some?;
    HandlingKeepsCovered(ws[k], p, Owed(ws, cs, k, p, unit), unit, cs[k].now - cs[0].now, cs[k].now, cs[k].request);
    assert ws[n] == Handle(ws[k], cs[k].now, cs[k].request).after;
  }

  /** The grant bound: within an incarnation, starting from any cache content, and with no
      assumption on who asks, releases or checkpoints when. */
  lemma GrantsAreBounded(ws: seq<Workflow>, cs: seq<Handling>, p: int, unit: nat)
    requires IsRun(ws, cs) && cs != [] && SameIncarnation(ws, 0, |cs|) && Clocked(cs) && unit > 0
    requires forall i :: 0 <= i < |cs| && GrantedAt(ws, cs, i, p) ==> EffectiveLength(cs[i].request.timeout) >= unit
    ensures Grants(ws, cs, |cs|, p) <=
            1 + Releases(cs, |cs|, p) + (cs[|cs| - 1].now - cs[0].now) / unit
  {
    var n := |cs|;
    var elapsed := cs[n - 1].now - cs[0].now;
    AlwaysCovered(ws, cs, n, p, unit);
    OwedCounts(ws, cs, n, p, unit);
    BoundFromProduct(Grants(ws, cs, n, p) - Releases(cs, n, p), unit, elapsed);
  }

  /** Neither released nor checkpointed, a granted lease stays in the cache as granted up to
      its effective end, whatever else is asked for. */
  lemma {:induction false} LeaseStands(ws: seq<Workflow>, cs: seq<Handling>, i: nat, k: nat, p: int)
    requires IsRun(ws, cs) && Clocked(cs) && i < k <= |cs| && GrantedAt(ws, cs, i, p)
    requires forall l :: i < l < k ==> !EndsLease(cs[l].request, p)
    requires cs[k - 1].now < EffectiveEnd(LeaseEntry(cs[i].now, cs[i].request.timeout))
    ensures p in ws[k].leases && ws[k].leases[p] == LeaseEntry(cs[i].now, cs[i].request.timeout)
    decreases k
  {
    var h := cs[k - 1];
    assert ws[k] == Handle(ws[k - 1], h.now, h.request).after;
    if i + 1 < k {
      assert cs[k - 2].now <= h.now;
      LeaseStands(ws, cs, i, k - 1, p);
      assert !EndsLease(h.request, p);
      GoodLeaseStays(ws[k - 1], h.now, h.request, p);
      hide Handle, GrantedAt;
    }
  }

  predicate EndsLease(q: Request, p: int) {
    (q.Release? || q.Checkpoint?) && q.position == p
  }

  /** Without a release or checkpoint there, a position is granted again no sooner than the
      effective end of the lease granted before. */
  lemma NoSecondGrantBeforeEffectiveEnd(ws: seq<Workflow>, cs: seq<Handling>, i: nat, j: nat, p: int)
    requires IsRun(ws, cs) && Clocked(cs) && i < j < |cs| && GrantedAt(ws, cs, i, p) && GrantedAt(ws, cs, j, p)
    requires forall l :: i < l < j ==> !EndsLease(cs[l].request, p)
    ensures cs[j].now >= EffectiveEnd(LeaseEntry(cs[i].now, cs[i].request.timeout))
  {
    var entry := LeaseEntry(cs[i].now, cs[i].request.timeout);
    if cs[j - 1].now < EffectiveEnd(entry) {
      LeaseStands(ws, cs, i, j, p);
      if cs[j].now < EffectiveEnd(entry) {
        ProtectedUntilEffectiveEnd(entry, cs[j].now);
        assert false;
      }
    }
  }

  lemma BoundFromProduct(d: int, unit: int, elapsed: int)
    requires unit > 0 && unit * d - unit <= elapsed
    ensures d <= 1 + elapsed / unit
  {
    var q := elapsed / unit;
    assert elapsed < unit * q + unit;
    Scale(d, q + 2, unit);
    assert unit * (q + 2) == unit * q + unit + unit;
  }

  lemma Scale(x: int, y: int, unit: int)
    requires unit >= 0
    ensures x >= y ==> unit * x >= unit * y
  {
  }
}
