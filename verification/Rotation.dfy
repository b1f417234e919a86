/** Round-robin turns: the three index updates of eventforge all choose "start + i mod n", and that is fair. */
module Rotation {

  lemma {:induction false} MultipleAtLeast(d: nat, n: nat)
    requires d >= 1
    ensures d * n >= n
  {
    if d > 1 {
      MultipleAtLeast(d - 1, n);
      assert d * n == (d - 1) * n + n;
    }
  }

  lemma MultiplesDiffer(a: int, b: int, n: int)
    ensures (a - b) * n == a * n - b * n
  {
  }

  lemma DivisionIsUnique(x: nat, n: nat, q: nat, r: nat)
    requires 0 <= r < n && x == q * n + r
    ensures x / n == q && x % n == r
  {
    var q', r' := x / n, x % n;
    assert x == q' * n + r';
    MultiplesDiffer(q', q, n);
    MultiplesDiffer(q, q', n);
    if q < q' {
      MultipleAtLeast(q' - q, n);
    } else if q > q' {
      MultipleAtLeast(q - q', n);
    }
  }

  lemma ModStep(x: nat, n: nat)
    requires n > 0
    ensures (x + 1) % n == (if x % n == n - 1 then 0 else x % n + 1)
    ensures (x % n + 1) % n == (x + 1) % n
  {
    var q, r := x / n, x % n;
    DivisionForm(x, n);
    MultiplesAdd(q, 1, n);
    if r == n - 1 {
      DivisionIsUnique(x + 1, n, q + 1, 0);
      DivisionIsUnique(r + 1, n, 1, 0);
    } else {
      DivisionIsUnique(x + 1, n, q, r + 1);
      DivisionIsUnique(r + 1, n, 0, r + 1);
    }
  }

  /** The position chosen in turn `i` of a rotation over `n` places begun at `start`. */
  function Turn(start: nat, i: nat, n: nat): (place: nat)
    requires n > 0
    ensures place < n
  {
    (start + i) % n
  }

  // ---- The three implementations -----------------------------------------------

  /** `_try_dispatch`: the index is reduced before use and stored reduced, plus one. */
  function QueueIndex(start: nat, i: nat, n: nat): nat
    requires n > 0
  {
    if i == 0 then start else QueueIndex(start, i - 1, n) % n + 1
  }

  /** `RoundRobinDispatcher.dispatch`: the index only ever grows. */
  function DispatcherIndex(start: nat, i: nat): nat
  {
    if i == 0 then start else DispatcherIndex(start, i - 1) + 1
  }

  /** `RoundRobinRPCClient._next_client`: the index is stored reduced. */
  function ClientIndex(start: nat, i: nat, n: nat): nat
    requires n > 0
  {
    if i == 0 then start else (ClientIndex(start, i - 1, n) + 1) % n
  }

  lemma {:induction false} QueueTakesTurns(start: nat, i: nat, n: nat)
    requires n > 0
    ensures QueueIndex(start, i, n) % n == Turn(start, i, n)
  {
    if i > 0 {
      QueueTakesTurns(start, i - 1, n);
      ModStep(start + i - 1, n);
    }
  }

  lemma {:induction false} DispatcherTakesTurns(start: nat, i: nat, n: nat)
    requires n > 0
    ensures DispatcherIndex(start, i) % n == Turn(start, i, n)
  {
    DispatcherCounts(start, i);
  }

  lemma {:induction false} DispatcherCounts(start: nat, i: nat)
    ensures DispatcherIndex(start, i) == start + i
  {
    if i > 0 {
      DispatcherCounts(start, i - 1);
    }
  }

  lemma {:induction false} ClientTakesTurns(start: nat, i: nat, n: nat)
    requires start < n
    ensures ClientIndex(start, i, n) == Turn(start, i, n)
  {
    if i > 0 {
      ClientTakesTurns(start, i - 1, n);
      ModStep(start + i - 1, n);
    } else {
      DivisionIsUnique(start, n, 0, start);
    }
  }

  // ---- Fairness -------------------------------------------------------------------

  /** How many of the first `k` turns fall on `place`. */
  function Share(start: nat, n: nat, place: nat, k: nat): nat
    requires n > 0
  {
    if k == 0 then 0 else Share(start, n, place, k - 1) + (if Turn(start, k - 1, n) == place then 1 else 0)
  }

  /** The first turn that falls on `place`. */
  function FirstTurn(start: nat, n: nat, place: nat): (i: nat)
    requires place < n
    ensures i < n
  {
    (place + n - start % n) % n
  }

  lemma MultiplesAdd(a: int, b: int, n: int)
    ensures (a + b) * n == a * n + b * n
  {
  }

  lemma DivisionForm(x: nat, n: nat)
    requires n > 0
    ensures x == (x / n) * n + x % n
  {
  }

  /** Full rounds do not matter; the rest wraps round once at most. */
  lemma TurnWraps(start: nat, n: nat, q: nat, r: nat)
    requires r < n
    ensures Turn(start, q * n + r, n) == if start % n + r < n then start % n + r else start % n + r - n
  {
    var a, b := start / n, start % n;
    DivisionForm(start, n);
    MultiplesAdd(a, q, n);
    MultiplesAdd(a + q, 1, n);
    if b + r < n {
      DivisionIsUnique(start + (q * n + r), n, a + q, b + r);
    } else {
      DivisionIsUnique(start + (q * n + r), n, a + q + 1, b + r - n);
    }
  }

  lemma FirstTurnIs(start: nat, n: nat, place: nat)
    requires place < n
    ensures FirstTurn(start, n, place) == if place >= start % n then place - start % n else place + n - start % n
  {
    if place >= start % n {
      DivisionIsUnique(place + n - start % n, n, 1, place - start % n);
    } else {
      DivisionIsUnique(place + n - start % n, n, 0, place + n - start % n);
    }
  }

  lemma TurnsRecur(start: nat, n: nat, place: nat, q: nat, r: nat)
    requires place < n && r < n
    ensures Turn(start, q * n + r, n) == place <==> r == FirstTurn(start, n, place)
  {
    hide Turn, FirstTurn;
    TurnWraps(start, n, q, r);
    FirstTurnIs(start, n, place);
  }

  /** After q full rounds and r further turns: q or q + 1 turns each, and exactly q after full rounds. */
  lemma {:induction false} SharesAreEven(start: nat, n: nat, place: nat, q: nat, r: nat)
    requires place < n && r < n
    ensures Share(start, n, place, q * n + r) == q + (if FirstTurn(start, n, place) < r then 1 else 0)
    decreases q, r
  {
    if r > 0 {
      ShareUnfolds(start, n, place, q, r - 1, q * n + r);
      SharesAreEven(start, n, place, q, r - 1);
    } else if q > 0 {
      MultiplesDiffer(q, 1, n);
      ShareUnfolds(start, n, place, q - 1, n - 1, q * n);
      SharesAreEven(start, n, place, q - 1, n - 1);
    }
  }

  lemma ShareUnfolds(start: nat, n: nat, place: nat, q: nat, r: nat, k: nat)
    requires place < n && r < n && k == q * n + r + 1
    ensures Share(start, n, place, k)
         == Share(start, n, place, q * n + r) + (if r == FirstTurn(start, n, place) then 1 else 0)
  {
    TurnsRecur(start, n, place, q, r);
  }

  /** Any `k` turns give every place floor(k / n) or ceiling(k / n) of them. */
  lemma FairShare(start: nat, n: nat, place: nat, k: nat)
    requires place < n
    ensures k / n <= Share(start, n, place, k) <= (k + n - 1) / n
  {
    var q, r := k / n, k % n;
    DivisionForm(k, n);
    SharesAreEven(start, n, place, q, r);
    CeilingForm(k, n);
  }

  lemma CeilingForm(k: nat, n: nat)
    requires n > 0
    ensures (k + n - 1) / n == k / n + (if k % n == 0 then 0 else 1)
  {
    var q, r := k / n, k % n;
    DivisionForm(k, n);
    MultiplesAdd(q, 1, n);
    if r == 0 {
      DivisionIsUnique(k + n - 1, n, q, n - 1);
    } else {
      DivisionIsUnique(k + n - 1, n, q + 1, r - 1);
    }
  }
}
