/** How `dialAddresses` shares the time left among the addresses still to try (internal/acl/acl.go).
    Times are integers of nanoseconds. */
module DeadlineSplit {
  import opened Bytes
  import opened Address

  /** `10 * time.Second`. */
  const CAP := 10_000_000_000

  /** Go's integer division, which truncates toward zero. */
  function Quotient(a: int, b: nat): int
    requires b > 0
  {
    if a >= 0 then a / b else -((-a) / b)
  }

  function Min(a: int, b: int): int
  {
    if a < b then a else b
  }

  /** The timeout for one attempt, with `left` addresses still to try, this one included. */
  function Timeout(deadline: Option<int>, now: int, left: nat): int
    requires left > 0
  {
    match deadline
    case None => CAP
    case Some(end) => Min(CAP, Quotient(end - now, left))
  }

  datatype DialOutcome = Connects | Unreachable | ContextEnded
  /** One turn of the loop as its surroundings decide it: the clock reading and how a dial would end. */
  datatype Attempt = Attempt(now: int, outcome: DialOutcome)
  /** `Nothing` is the pair of nils that an empty list gives. */
  datatype DialResult = Conn(i: nat) | DeadlineExceeded | ContextError | LastError(i: nat) | Nothing

  ghost predicate AllUnreachable(attempts: seq<Attempt>, m: nat)
    requires m <= |attempts|
  {
    forall i :: 0 <= i < m ==> attempts[i].outcome == Unreachable
  }

  /** The dials made got `timeouts`, one each and in order, and all but the last were in vain. */
  ghost predicate Granted(n: nat, deadline: Option<int>, attempts: seq<Attempt>, timeouts: seq<int>)
    requires |attempts| == n
  {
    && |timeouts| <= n
    && (forall i :: 0 <= i < |timeouts| ==> timeouts[i] == Timeout(deadline, attempts[i].now, n - i) && timeouts[i] > 0)
  }

  lemma GrantOneMore(n: nat, deadline: Option<int>, attempts: seq<Attempt>, timeouts: seq<int>)
    requires |attempts| == n && Granted(n, deadline, attempts, timeouts) && |timeouts| < n
    requires Timeout(deadline, attempts[|timeouts|].now, n - |timeouts|) > 0
    ensures Granted(n, deadline, attempts, timeouts + [Timeout(deadline, attempts[|timeouts|].now, n - |timeouts|)])
  {
  }

  /** What each way out of the loop means after `m` dials. */
  ghost predicate Ended(n: nat, deadline: Option<int>, attempts: seq<Attempt>, r: DialResult, m: nat)
    requires m <= n == |attempts|
  {
    match r
    case Conn(i) => m == i + 1 && AllUnreachable(attempts, i) && attempts[i].outcome == Connects
    case ContextError => m > 0 && AllUnreachable(attempts, m - 1) && attempts[m - 1].outcome == ContextEnded
    case DeadlineExceeded =>
      m < n && AllUnreachable(attempts, m) && Timeout(deadline, attempts[m].now, n - m) <= 0
    case LastError(i) => m == n == i + 1 && AllUnreachable(attempts, n)
    case Nothing => n == 0
  }

  /** `dialAddresses`: the addresses in order, each with its share of the time, until one answers. */
  method DialAddresses(addresses: seq<Address>, deadline: Option<int>, attempts: seq<Attempt>)
    returns (r: DialResult, dialled: seq<Address>, timeouts: seq<int>)
    requires |attempts| == |addresses|
    ensures Granted(|addresses|, deadline, attempts, timeouts)
    ensures |dialled| == |timeouts| && dialled <= addresses
    ensures Ended(|addresses|, deadline, attempts, r, |timeouts|)
  {
    dialled, timeouts := [], [];
    r := Nothing;
    var n := |addresses|;
    for i := 0 to n
      invariant Granted(n, deadline, attempts, timeouts) && |timeouts| == i && AllUnreachable(attempts, i)
      invariant |dialled| == i && forall j :: 0 <= j < i ==> dialled[j] == addresses[j]
      invariant r == if i == 0 then Nothing else LastError(i - 1)
    {
      var timeout := CAP;
      if deadline.Some? {
        var remaining := Quotient(deadline.value - attempts[i].now, n - i);
        if remaining < timeout {
          timeout := remaining;
        }
      }
      if timeout <= 0 {
        return DeadlineExceeded, dialled, timeouts;
      }
      GrantOneMore(n, deadline, attempts, timeouts);
      dialled, timeouts := dialled + [addresses[i]], timeouts + [timeout];
      match attempts[i].outcome
      case Connects => return Conn(i), dialled, timeouts;
      case ContextEnded => return ContextError, dialled, timeouts;
      case Unreachable => r := LastError(i);
    }
  }

  // ---- Sharing the time ----------------------------------------------------------------------

  /** The grant for attempt `i` of `n` when `r` is left until the deadline. */
  function Grant(n: nat, i: nat, r: int): int
    requires i < n
  {
    Min(CAP, Quotient(r, n - i))
  }

  /** A run of dials that use at most what they are granted: `rem[i]` is the time left when dial `i` begins. */
  ghost predicate Behaves(n: nat, start: int, rem: seq<int>)
  {
    && |rem| <= n
    && (rem != [] ==> rem[0] == start)
    && (forall i :: 0 <= i < |rem| ==> Grant(n, i, rem[i]) > 0)
    && (forall i :: 0 <= i < |rem| - 1 ==> 0 <= rem[i] - rem[i + 1] <= Grant(n, i, rem[i]))
  }

  /** The first `m` grants together. */
  function Total(n: nat, rem: seq<int>, m: nat): int
    requires m <= |rem| <= n
  {
    if m == 0 then 0 else Total(n, rem, m - 1) + Grant(n, m - 1, rem[m - 1])
  }

  /** The dials of `DialAddresses` are such a run whenever each ends within its timeout. */
  lemma DialsBehave(n: nat, end: int, attempts: seq<Attempt>, timeouts: seq<int>, rem: seq<int>)
    requires |attempts| == n && Granted(n, Some(end), attempts, timeouts)
    requires forall i :: 0 <= i < |timeouts| - 1 ==> 0 <= attempts[i + 1].now - attempts[i].now <= timeouts[i]
    requires |rem| == |timeouts| && forall i :: 0 <= i < |rem| ==> rem[i] == end - attempts[i].now
    ensures rem != [] ==> Behaves(n, end - attempts[0].now, rem)
    ensures forall i :: 0 <= i < |rem| ==> timeouts[i] == Grant(n, i, rem[i])
  {
    forall i | 0 <= i < |rem| ensures timeouts[i] == Grant(n, i, rem[i]) {
    }
  }

  lemma QuotientBounds(a: int, b: nat)
    requires b > 0 && a >= 0
    ensures Quotient(a, b) * b <= a < (Quotient(a, b) + 1) * b && Quotient(a, b) >= 0
  {
  }

  lemma QuotientAtLeast(a: int, b: nat, c: nat)
    requires b > 0 && c * b <= a
    ensures Quotient(a, b) >= c
  {
    QuotientBounds(a, b);
    if Quotient(a, b) < c {
      Times(Quotient(a, b) + 1, c, b);
    }
  }

  lemma Times(x: int, y: int, b: nat)
    requires x <= y
    ensures x * b <= y * b
  {
  }

  lemma PositiveGrant(n: nat, i: nat, r: int)
    requires i < n && Grant(n, i, r) > 0
    ensures r > 0 && Grant(n, i, r) * (n - i) <= r
  {
    if r >= 0 {
      QuotientBounds(r, n - i);
      Times(Grant(n, i, r), Quotient(r, n - i), n - i);
    } else {
      QuotientBounds(-r, n - i);
    }
  }

  /** Unless it is the 10 seconds of the cap, the grant is the largest share that all addresses left can have. */
  lemma GrantExactly(n: nat, i: nat, r: nat)
    requires i < n
    ensures var g := Grant(n, i, r);
            0 <= g <= 10_000_000_000 && g * (n - i) <= r && (g < 10_000_000_000 ==> r < (g + 1) * (n - i))
  {
    QuotientBounds(r, n - i);
    Times(Grant(n, i, r), Quotient(r, n - i), n - i);
  }

  /** Later attempts never get less than earlier ones. */
  lemma GrantsGrow(n: nat, i: nat, r: int, r': int)
    requires i + 1 < n && Grant(n, i, r) > 0 && r - r' <= Grant(n, i, r)
    ensures Grant(n, i, r) <= Grant(n, i + 1, r')
  {
    var g := Grant(n, i, r);
    PositiveGrant(n, i, r);
    assert g * (n - i) == g * (n - i - 1) + g;
    QuotientAtLeast(r', n - i - 1, g);
  }

  lemma {:induction false} GrantsMonotone(n: nat, start: int, rem: seq<int>, i: nat, j: nat)
    requires Behaves(n, start, rem) && i <= j < |rem|
    ensures Grant(n, i, rem[i]) <= Grant(n, j, rem[j])
    decreases j
  {
    if i < j {
      GrantsMonotone(n, start, rem, i, j - 1);
      GrantsGrow(n, j - 1, rem[j - 1], rem[j]);
    }
  }

  /** So each attempt gets at least an equal share of the whole, up to the cap. */
  lemma FairShare(n: nat, start: int, rem: seq<int>, i: nat)
    requires Behaves(n, start, rem) && i < |rem|
    ensures Grant(n, i, rem[i]) >= Min(CAP, Quotient(start, n))
  {
    GrantsMonotone(n, start, rem, 0, i);
  }

  /** At every attempt, the time already used and the new grant fit in the time there was at the start. */
  lemma NeverOvercommits(n: nat, start: int, rem: seq<int>, i: nat)
    requires Behaves(n, start, rem) && i < |rem|
    ensures (start - rem[i]) + Grant(n, i, rem[i]) <= start
  {
    var g := Grant(n, i, rem[i]);
    PositiveGrant(n, i, rem[i]);
    assert g * (n - i) == g * (n - i - 1) + g;
    Times(0, g, n - i - 1);
  }

  // ---- When the grants sum to at most the time left ------------------------------------------

  /** The grants of every possible run fit, taken together, in the time left at the start. */
  ghost predicate SumFits(n: nat, start: int)
  {
    forall rem :: Behaves(n, start, rem) && rem != [] ==> Total(n, rem, |rem|) <= start
  }

  /** A dial that fails at once leaves its grant to be granted again, so the sum can be exceeded. */
  lemma SumCanExceed()
    ensures !SumFits(2, 10)
  {
    var rem := [10, 10];
    assert Behaves(2, 10, rem);
    assert Total(2, rem, 0) == 0;
    assert Total(2, rem, 1) == 5;
    assert Total(2, rem, 2) == 15;
  }

  lemma {:induction false} TotalAtMost(n: nat, rem: seq<int>, m: nat)
    requires m <= |rem| <= n
    ensures Total(n, rem, m) <= m * CAP
    ensures m > 0 && Grant(n, 0, rem[0]) < CAP ==> Total(n, rem, m) <= m * CAP - 1
  {
    if m > 0 {
      TotalAtMost(n, rem, m - 1);
    }
  }

  lemma PlentyFits(n: nat, start: int, rem: seq<int>)
    requires n > 0 && start >= n * CAP - 1 && Behaves(n, start, rem) && rem != []
    ensures Total(n, rem, |rem|) <= start
  {
    TotalAtMost(n, rem, |rem|);
    Times(|rem|, n, CAP);
    if start < n * CAP {
      QuotientBounds(start, n);
      if Quotient(start, n) >= CAP { Times(CAP, Quotient(start, n), n); }
    }
  }

  lemma FewFits(n: nat, start: int, rem: seq<int>)
    requires n <= 1 && Behaves(n, start, rem) && rem != []
    ensures Total(n, rem, |rem|) <= start
  {
    NeverOvercommits(n, start, rem, 0);
    assert Total(n, rem, 0) == 0;
  }

  lemma TooLittleDialsNothing(n: nat, start: int, rem: seq<int>)
    requires start < n && Behaves(n, start, rem)
    ensures rem == []
  {
    if rem != [] {
      PositiveGrant(n, 0, start);
      Times(1, Grant(n, 0, start), n);
    }
  }

  /** When no dial takes any time, the grants are equal shares of the whole among ever fewer addresses. */
  lemma Share(n: nat, i: nat, start: int, q: nat, k: nat)
    requires i < n && q * n <= start && k * (q + 1) <= start && q + 1 <= CAP
    ensures Grant(n, i, start) >= q
    ensures n - i <= k ==> Grant(n, i, start) >= q + 1
  {
    Times(n - i, n, q);
    QuotientAtLeast(start, n - i, q);
    if n - i <= k {
      Times(n - i, k, q + 1);
      QuotientAtLeast(start, n - i, q + 1);
    }
  }

  /** At least `q` each, one more for each of the last `k`, and another for the very last. */
  lemma {:induction false} TotalAtLeast(n: nat, start: int, rem: seq<int>, m: nat, q: nat, k: nat, bonus: nat)
    requires m <= n == |rem| && (forall i :: 0 <= i < n ==> rem[i] == start)
    requires q * n <= start && k * (q + 1) <= start && q + 1 <= CAP && k <= n
    requires bonus > 0 ==> k > 0 && q + 1 + bonus <= Min(CAP, start)
    ensures Total(n, rem, m) >= m * q + (if m > n - k then m - (n - k) else 0) + (if m == n > 0 then bonus else 0)
  {
    if m > 0 {
      TotalAtLeast(n, start, rem, m - 1, q, k, bonus);
      Share(n, m - 1, start, q, k);
      assert m * q == (m - 1) * q + q;
    }
  }

  /** The equal share `q` and the remainder `rho`. */
  lemma Division(n: nat, start: int) returns (q: nat, rho: nat)
    requires n >= 2 && n <= start < n * CAP - 1
    ensures start == q * n + rho && rho < n && 1 <= q && q + 1 <= CAP
    ensures rho + 1 == n ==> q + 2 <= CAP
  {
    q, rho := start / n, start % n;
    if q < 1 { Times(q, 0, n); }
    if q + 1 > CAP { Times(CAP, q, n); }
    if rho + 1 == n && q + 2 > CAP { Times(CAP, q + 1, n); }
  }

  lemma Widen(q: nat, rho: nat, n: nat)
    requires q >= 1 && rho + 2 <= n
    ensures (rho + 1) * (q + 1) <= q * n + rho
  {
    Times(rho + 2, n, q);
    assert (rho + 1) * (q + 1) == (rho + 2) * q - q + rho + 1;
  }

  lemma Last(q: nat, n: nat)
    requires q >= 1 && n >= 2
    ensures (n - 1) * (q + 1) <= q * n + n - 1
    ensures q + 2 <= q * n + n - 1
  {
    Times(2, n, q);
    assert (n - 1) * (q + 1) == q * n - q + n - 1;
  }

  /** The run in which no dial takes any time. */
  lemma EvenRun(n: nat, start: int, q: nat) returns (rem: seq<int>)
    requires q * n <= start && 1 <= q && q + 1 <= CAP
    ensures |rem| == n && (forall i :: 0 <= i < n ==> rem[i] == start) && Behaves(n, start, rem)
  {
    rem := seq(n, _ => start);
    forall i | 0 <= i < n ensures Grant(n, i, rem[i]) > 0 {
      Share(n, i, start, q, 0);
    }
  }

  lemma EvenTotal(n: nat, start: int, rem: seq<int>, q: nat, rho: nat)
    requires n >= 2 && |rem| == n && (forall i :: 0 <= i < n ==> rem[i] == start)
    requires start == q * n + rho && rho < n && 1 <= q && q + 1 <= CAP && (rho + 1 == n ==> q + 2 <= CAP)
    ensures Total(n, rem, n) > start
  {
    if rho + 2 <= n {
      Widen(q, rho, n);
      TotalAtLeast(n, start, rem, n, q, rho + 1, 0);
    } else {
      Last(q, n);
      TotalAtLeast(n, start, rem, n, q, rho, 1);
    }
  }

  lemma TooManyShares(n: nat, start: int)
    requires n >= 2 && n <= start < n * CAP - 1
    ensures !SumFits(n, start)
  {
    var q, rho := Division(n, start);
    var rem := EvenRun(n, start, q);
    EvenTotal(n, start, rem, q, rho);
  }

  /** The exact condition, on the number of addresses and the time left: the grants of every run sum to at most
      the time left at the start if and only if there is at most one address, less than a nanosecond for each,
      or the cap for each but for a nanosecond. */
  lemma SumFitsExactly(n: nat, start: int)
    ensures SumFits(n, start) <==> n <= 1 || start < n || start >= n * 10_000_000_000 - 1
  {
    if n <= 1 || start < n || start >= n * CAP - 1 {
      forall rem | Behaves(n, start, rem) && rem != [] ensures Total(n, rem, |rem|) <= start {
        if n <= 1 {
          FewFits(n, start, rem);
        } else if start < n {
          TooLittleDialsNothing(n, start, rem);
        } else {
          PlentyFits(n, start, rem);
        }
      }
    } else {
      TooManyShares(n, start);
    }
  }
}
