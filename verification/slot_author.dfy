/** The leader schedule: for slot s the author is A[s % |A|]. */
module SlotSchedule {
  import opened AuraTypes

  /** The largest `usize` on the 64-bit targets the node is built for. */
  const USIZE_MAX: nat := U64_LIMIT - 1

  /** The authority expected to author `slot`, or `None` when there are no authorities
      (`slot_author`). The source's `assert!` and `expect` are the two asserts below. */
  function SlotAuthor<A>(slot: Slot, authorities: seq<A>): (r: Option<A>)
    ensures r.None? <==> |authorities| == 0
    ensures r.Some? ==> r.value in authorities
  {
    if |authorities| == 0 then None
    else
      var idx := slot % |authorities|;
      assert idx <= USIZE_MAX;
      assert idx < |authorities|;
      Some(authorities[idx])
  }

  /** An independent reference schedule: the authorities take turns in list order, round
      after round, so slot s belongs to the same authority as slot s - |A|. */
  function RoundRobin<A>(slot: nat, authorities: seq<A>): A
    requires |authorities| > 0
  {
    if slot < |authorities| then authorities[slot]
    else RoundRobin(slot - |authorities|, authorities)
  }

  lemma {:induction false} MulAtLeast(k: nat, n: nat)
    requires k >= 1
    ensures k * n >= n
  {
    if k > 1 {
      MulAtLeast(k - 1, n);
      assert k * n == (k - 1) * n + n;
    }
  }

  /** Euclidean division has one quotient and one remainder. */
  lemma DivModUnique(y: int, n: int, a: int, b: int)
    requires n > 0 && 0 <= b < n && y == a * n + b
    ensures y % n == b && y / n == a
  {
    var q, r := y / n, y % n;
    assert y == q * n + r;
    if q > a {
      var d := q - a;
      assert q * n == d * n + a * n;
      MulAtLeast(d, n);
    } else if q < a {
      var d := a - q;
      assert a * n == d * n + q * n;
      MulAtLeast(d, n);
    }
  }

  lemma ModAfterRound(x: nat, n: nat)
    requires 0 < n <= x
    ensures (x - n) % n == x % n
  {
    var q, r := x / n, x % n;
    assert x == q * n + r;
    assert x - n == (q - 1) * n + r;
    DivModUnique(x - n, n, q - 1, r);
  }

  /** The schedule is the round-robin rotation of the authority list. */
  lemma {:induction false} SlotAuthorIsRoundRobin<A>(slot: Slot, authorities: seq<A>)
    requires |authorities| > 0
    ensures SlotAuthor(slot, authorities) == Some(RoundRobin(slot, authorities))
  {
    if slot >= |authorities| {
      ModAfterRound(slot, |authorities|);
      SlotAuthorIsRoundRobin(slot - |authorities|, authorities);
    }
  }

  /** A slot and the slot one full round later have the same author. */
  lemma SlotAuthorPeriodic<A>(slot: Slot, authorities: seq<A>)
    requires slot + |authorities| < U64_LIMIT
    ensures SlotAuthor(slot + |authorities|, authorities) == SlotAuthor(slot, authorities)
  {
    if |authorities| > 0 {
      SlotAuthorIsRoundRobin(slot, authorities);
      SlotAuthorIsRoundRobin(slot + |authorities|, authorities);
    }
  }

  /** Fairness: within any |A| consecutive slots, every listed authority has a turn. */
  lemma EveryAuthorityGetsATurn<A>(start: Slot, authorities: seq<A>, i: nat)
    requires i < |authorities|
    requires start + |authorities| <= U64_LIMIT
    ensures exists s: Slot :: start <= s < start + |authorities| &&
              SlotAuthor(s, authorities) == Some(authorities[i])
  {
    var n := |authorities|;
    var q, r := start / n, start % n;
    assert start == q * n + r;
    var s: Slot;
    if r <= i {
      s := start + (i - r);
      DivModUnique(s, n, q, i);
    } else {
      s := start + (n - r + i);
      assert s == (q + 1) * n + i;
      DivModUnique(s, n, q + 1, i);
    }
    assert SlotAuthor(s, authorities) == Some(authorities[i]);
  }
}
