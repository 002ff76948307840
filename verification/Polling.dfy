/** The waiting side of the lease loop: how often a waiter asks before the lease it waits
    for is over. */
module Polling {
  import opened LeaseTime
  import opened Protocol
  import opened History
  import opened GrantBound

  /** `waitFor(remaining / 10)`: a timer takes whole milliseconds and at least one. */
  function PollWait(remaining: int): int {
    if remaining / 10 > 1 then remaining / 10 else 1
  }

  /** The number of polls on a lease with that much time left if nothing else delays the waiter. */
  function Countdown(remaining: int): nat
    decreases remaining
  {
    if remaining <= 0 then 0 else 1 + Countdown(remaining - PollWait(remaining))
  }

  function BitLength(n: int): nat {
    if n <= 0 then 0 else 1 + BitLength(n / 2)
  }

  function Pow2(k: nat): nat {
    if k == 0 then 1 else 2 * Pow2(k - 1)
  }

  /** A waiter that is told how much time is left sleeps a tenth of it, in whole milliseconds
      and at least one, and so never past the end of the lease. */
  lemma NeverOversleeps(remaining: int)
    requires remaining > 0
    ensures 1 <= PollWait(remaining) <= remaining
    ensures remaining >= 10 ==> 10 * PollWait(remaining) <= remaining < 10 * PollWait(remaining) + 10
    ensures remaining < 10 ==> PollWait(remaining) == 1
  {
  }

  lemma {:induction false} CountdownMonotone(r: int, s: int)
    requires r <= s
    ensures Countdown(r) <= Countdown(s)
    decreases s
  {
    if r > 0 {
      CountdownMonotone(r - PollWait(r), s - PollWait(s));
    }
  }

  /** `n` polls of at least `step` each take a waiter from `v` to below `lo`. */
  lemma {:induction false} Descend(v: int, lo: int, step: int, n: nat)
    requires v <= lo - 1 + n * step
    requires forall x :: x >= lo ==> PollWait(x) >= step
    ensures Countdown(v) <= n + Countdown(lo - 1)
    decreases n
  {
    if v < lo {
      CountdownMonotone(v, lo - 1);
    } else if n > 0 {
      assert (n - 1) * step == n * step - step;
      assert PollWait(v) >= step;
      if v > 0 {
        Descend(v - PollWait(v), lo, step, n - 1);
      }
    }
  }

  lemma ElevenStepsHalve(k: nat)
    requires k != 4
    ensures var lo := Pow2(k); 11 * (if lo / 10 > 1 then lo / 10 else 1) >= lo
  {
    if k >= 7 {
      PowAtLeast(k);
    } else {
      assert Pow2(1) == 2 && Pow2(2) == 4 && Pow2(3) == 8 && Pow2(4) == 16 && Pow2(5) == 32 && Pow2(6) == 64;
    }
  }

  lemma {:induction false} PowAtLeast(k: nat)
    requires k >= 7
    ensures Pow2(k) >= 128
  {
    if k == 7 {
      assert Pow2(4) == 16;
      assert Pow2(7) == 8 * Pow2(4);
    } else {
      PowAtLeast(k - 1);
    }
  }

  lemma {:induction false} ElevenPollsPerBit(k: nat)
    ensures Countdown(Pow2(k) - 1) <= 11 * k
  {
    if k > 0 {
      ElevenPollsPerBit(k - 1);
      ElevenPollsHalve(k - 1);
    }
  }

  lemma ElevenPollsHalve(k: nat)
    ensures Countdown(Pow2(k + 1) - 1) <= 11 + Countdown(Pow2(k) - 1)
  {
    hide Countdown, PollWait;
    var lo: int := Pow2(k);
    if k == 4 {
      assert lo == 2 * (2 * (2 * (2 * Pow2(0)))) == 16;
      Pauses(20);
      Pauses(16);
      Descend(31, 20, 2, 6);
      Descend(19, 16, 1, 4);
    } else {
      ElevenStepsHalve(k);
      Pauses(lo);
      var v := 2 * lo - 1;
      Descend(v, lo, if lo / 10 > 1 then lo / 10 else 1, 11);
    }
  }

  lemma Pauses(lo: int)
    ensures forall x :: x >= lo ==> PollWait(x) >= if lo / 10 > 1 then lo / 10 else 1
  {
  }

  lemma {:induction false} BelowPow2(n: int)
    ensures n < Pow2(BitLength(n))
  {
    if n > 0 {
      BelowPow2(n / 2);
    }
  }

  /** At most eleven polls per bit of the remaining time. */
  lemma CountdownIsLogarithmic(remaining: int)
    ensures Countdown(remaining) <= 11 * BitLength(remaining)
  {
    BelowPow2(remaining);
    CountdownMonotone(remaining, Pow2(BitLength(remaining)) - 1);
    ElevenPollsPerBit(BitLength(remaining));
  }

  lemma {:induction false} BitLengthMonotone(r: int, s: int)
    requires r <= s
    ensures BitLength(r) <= BitLength(s)
    decreases s
  {
    if r > 0 {
      BitLengthMonotone(r / 2, s / 2);
    }
  }

  // ---------------------------------------------------------------- a waiter in a run

  /** The requests numbered `polls` are one waiter's, at `p`: each is told to wait, and the
      next comes no sooner than the advised pause. */
  ghost predicate IsWaiter(ws: seq<Workflow>, cs: seq<Handling>, p: int, polls: seq<nat>)
    requires IsRun(ws, cs)
  {
    && (forall k :: 0 <= k < |polls| ==>
          && polls[k] < |cs| && cs[polls[k]].request.Lease? && cs[polls[k]].request.position == p
          && ReplyAt(ws, cs, polls[k]).Remaining?)
    && (forall k :: 0 < k < |polls| ==>
          && polls[k - 1] < polls[k]
          && cs[polls[k]].now >= cs[polls[k - 1]].now + PollWait(ReplyAt(ws, cs, polls[k - 1]).ms))
  }

  /** The server never answers a waiter with a time that is not positive, which the client
      would take for a grant. */
  lemma RemainingIsPositive(ws: seq<Workflow>, cs: seq<Handling>, i: nat)
    requires IsRun(ws, cs) && i < |cs| && ReplyAt(ws, cs, i).Remaining?
    ensures ReplyAt(ws, cs, i).ms > 0
    ensures cs[i].request.Lease? && cs[i].request.position in ws[i].leases
    ensures ReplyAt(ws, cs, i).ms == TimeLeft(ws[i].leases[cs[i].request.position], cs[i].now)
  {
  }

  /** Without a grant in between, a lease seen twice is the same lease. */
  lemma {:induction false} SameLeaseWithoutGrant(ws: seq<Workflow>, cs: seq<Handling>, i: nat, j: nat, p: int)
    requires IsRun(ws, cs) && i <= j <= |cs| && p in ws[j].leases
    requires Grants(ws, cs, i, p) == Grants(ws, cs, j, p)
    ensures p in ws[i].leases && ws[i].leases[p] == ws[j].leases[p]
    decreases j
  {
    if i < j {
      hide Handle, GrantedAt, IsRun;
      GrantsGrow(ws, cs, i, j - 1, p);
      LeaseAppearsByGrant(ws, cs, j - 1, p);
      SameLeaseWithoutGrant(ws, cs, i, j - 1, p);
    }
  }

  lemma LeaseAppearsByGrant(ws: seq<Workflow>, cs: seq<Handling>, i: nat, p: int)
    requires IsRun(ws, cs) && i < |cs| && p in ws[i + 1].leases && !GrantedAt(ws, cs, i, p)
    ensures p in ws[i].leases && ws[i].leases[p] == ws[i + 1].leases[p]
  {
  }

  lemma {:induction false} GrantsGrow(ws: seq<Workflow>, cs: seq<Handling>, i: nat, j: nat, p: int)
    requires IsRun(ws, cs) && i <= j <= |cs|
    ensures Grants(ws, cs, i, p) <= Grants(ws, cs, j, p)
    decreases j
  {
    if i < j {
      GrantsGrow(ws, cs, i, j - 1, p);
    }
  }

  /** From poll to poll (grants to come, time left) falls lexicographically. */
  lemma NextPollIsCloser(ws: seq<Workflow>, cs: seq<Handling>, p: int, polls: seq<nat>, k: nat)
    requires IsRun(ws, cs) && Clocked(cs) && IsWaiter(ws, cs, p, polls) && k + 1 < |polls|
    ensures var a, b := polls[k], polls[k + 1];
            || Grants(ws, cs, a, p) < Grants(ws, cs, b, p)
            || (&& Grants(ws, cs, a, p) == Grants(ws, cs, b, p)
                && ReplyAt(ws, cs, b).ms <= ReplyAt(ws, cs, a).ms - PollWait(ReplyAt(ws, cs, a).ms))
  {
    var a, b := polls[k], polls[k + 1];
    GrantsGrow(ws, cs, a, b, p);
    if Grants(ws, cs, a, p) == Grants(ws, cs, b, p) {
      RemainingIsPositive(ws, cs, a);
      RemainingIsPositive(ws, cs, b);
      SameLeaseWithoutGrant(ws, cs, a, b, p);
      assert cs[b].now >= cs[a].now + PollWait(ReplyAt(ws, cs, a).ms);
    }
  }

  lemma CountdownPositive(r: int)
    requires r > 0
    ensures Countdown(r) == 1 + Countdown(r - PollWait(r))
  {
  }

  lemma {:induction false} PollsFrom(ws: seq<Workflow>, cs: seq<Handling>, p: int,
                                     polls: seq<nat>, k: nat, longest: int)
    requires IsRun(ws, cs) && Clocked(cs) && IsWaiter(ws, cs, p, polls) && k < |polls|
    requires forall i :: 0 <= i < |polls| ==> ReplyAt(ws, cs, polls[i]).ms <= longest
    ensures |polls| - k <= Countdown(ReplyAt(ws, cs, polls[k]).ms)
                           + 11 * BitLength(longest) * (Grants(ws, cs, |cs|, p) - Grants(ws, cs, polls[k], p))
    decreases |polls| - k
  {
    hide Handle, Clocked, Countdown, BitLength, Grants;
    var bound := 11 * BitLength(longest);
    var left := Grants(ws, cs, |cs|, p) - Grants(ws, cs, polls[k], p);
    RemainingIsPositive(ws, cs, polls[k]);
    GrantsGrow(ws, cs, polls[k], |cs|, p);
    if k + 1 == |polls| {
      Scale(left, 0, bound);
      CountdownPositive(ReplyAt(ws, cs, polls[k]).ms);
    } else {
      PollsFrom(ws, cs, p, polls, k + 1, longest);
      NextPollIsCloser(ws, cs, p, polls, k);
      var r, s := ReplyAt(ws, cs, polls[k]).ms, ReplyAt(ws, cs, polls[k + 1]).ms;
      var left' := Grants(ws, cs, |cs|, p) - Grants(ws, cs, polls[k + 1], p);
      if left' == left {
        CountdownMonotone(s, r - PollWait(r));
        CountdownPositive(r);
      } else {
        CountdownIsLogarithmic(s);
        BitLengthMonotone(s, longest);
        CountdownPositive(r);
        Scale(left - 1, left', bound);
        assert bound * (left - 1) == bound * left - bound;
      }
    }
  }

  /** A waiter polls at most eleven times per bit of the longest remaining time for every
      lease granted while it waits; with the grant bound that is a bound in terms of the
      releases seen and the time gone by. */
  lemma WaitingIsBounded(ws: seq<Workflow>, cs: seq<Handling>, p: int, polls: seq<nat>, longest: int, unit: nat)
    requires IsRun(ws, cs) && Clocked(cs) && IsWaiter(ws, cs, p, polls) && cs != [] && SameIncarnation(ws, 0, |cs|)
    requires forall i :: 0 <= i < |polls| ==> ReplyAt(ws, cs, polls[i]).ms <= longest
    requires unit > 0
    requires forall i :: 0 <= i < |cs| && GrantedAt(ws, cs, i, p) ==> EffectiveLength(cs[i].request.timeout) >= unit
    ensures |polls| <= 11 * BitLength(longest) * (1 + Grants(ws, cs, |cs|, p))
    ensures |polls| <= 11 * BitLength(longest) *
                       (2 + Releases(cs, |cs|, p) + (cs[|cs| - 1].now - cs[0].now) / unit)
  {
    hide Handle, Clocked, Countdown, BitLength, Grants, Releases;
    var bound, all := 11 * BitLength(longest), Grants(ws, cs, |cs|, p);
    var most := 1 + Releases(cs, |cs|, p) + (cs[|cs| - 1].now - cs[0].now) / unit;
    assert bound * (1 + all) == bound + bound * all;
    Scale(all, 0, bound);
    if polls != [] {
      var r, before := ReplyAt(ws, cs, polls[0]).ms, Grants(ws, cs, polls[0], p);
      PollsFrom(ws, cs, p, polls, 0, longest);
      CountdownIsLogarithmic(r);
      BitLengthMonotone(r, longest);
      Scale(all, all - before, bound);
    }
    GrantsAreBounded(ws, cs, p, unit);
    Scale(1 + most, 1 + all, bound);
  }
}
