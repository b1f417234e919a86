/** How many deliveries one enqueue can cause, with the potential that makes redelivery terminate. */
module WorkQueueAmplification {
  import opened Sums
  import opened WorkQueueModel
  import opened WorkQueueInvariants
  import opened WorkQueueLedger
  import opened WorkQueueConservation
  import opened WorkQueueSettlement

  ghost function Power(b: nat, n: nat): nat
  {
    if n == 0 then 1 else b * Power(b, n - 1)
  }

  /** b + b^2 + ... + b^n */
  ghost function PowerSum(b: nat, n: nat): nat
  {
    if n == 0 then 0 else PowerSum(b, n - 1) + Power(b, n)
  }

  /** Giving one message to `b` groups, each of which may cause `n - 1` further rounds. */
  lemma {:induction false} PowerSumUnrolls(b: nat, n: nat)
    ensures PowerSum(b, n + 1) == b * (1 + PowerSum(b, n))
  {
    if n == 0 {
      assert Power(b, 1) == b * Power(b, 0);
      assert PowerSum(b, 1) == PowerSum(b, 0) + Power(b, 1);
    } else {
      PowerSumUnrolls(b, n - 1);
      var x, y := PowerSum(b, n - 1), Power(b, n);
      assert b * (1 + (x + y)) == b * (1 + x) + b * y;
    }
  }

  lemma {:induction false} PowerSumGrows(b: nat, m: nat, n: nat)
    requires m <= n
    ensures PowerSum(b, m) <= PowerSum(b, n)
  {
    if m < n {
      PowerSumGrows(b, m, n - 1);
    }
  }

  /** Rounds of delivery a pending message with retry count `r` may still see. */
  ghost function RoundsPending(cfg: Config, r: nat): nat
  {
    if cfg.maxRetries - r >= 1 then cfg.maxRetries - r else 1
  }

  /** Rounds of delivery left once such a message is in flight. */
  ghost function RoundsInFlight(cfg: Config, r: nat): nat
  {
    if cfg.maxRetries - r >= 1 then cfg.maxRetries - r - 1 else 0
  }

  ghost function PendingPotential<P>(cfg: Config, most: nat, p: P): Message<P> -> nat
  {
    (m: Message<P>) => if m.payload == p then PowerSum(most, RoundsPending(cfg, m.retry)) else 0
  }

  ghost function FlightPotential<P>(cfg: Config, most: nat, t: Topic, p: P): Entry<P> -> nat
  {
    (e: Entry<P>) =>
      if e.topic == t && e.message.payload == p then PowerSum(most, RoundsInFlight(cfg, e.retry)) else 0
  }

  /** The termination measure for payload `p` on topic `t`: each delivery uses it up, only an entry adds to it. */
  ghost function Potential<P>(cfg: Config, s: State<P>, most: nat, t: Topic, p: P): nat
  {
    Sum(Pend(s, t), PendingPotential(cfg, most, p)) + Sum(s.inFlight, FlightPotential(cfg, most, t, p))
  }

  ghost function Bound(cfg: Config, most: nat): nat
  {
    PowerSum(most, if cfg.maxRetries >= 1 then cfg.maxRetries else 1)
  }

  /** What `n` entries into a topic allow: `n` times the bound for one. */
  ghost function Allowance(cfg: Config, most: nat, n: nat): nat
  {
    if n == 0 then 0 else Bound(cfg, most) + Allowance(cfg, most, n - 1)
  }

  lemma {:induction false} AllowanceAdds(cfg: Config, most: nat, m: nat, n: nat)
    ensures Allowance(cfg, most, m + n) == Allowance(cfg, most, m) + Allowance(cfg, most, n)
  {
    if m > 0 {
      AllowanceAdds(cfg, most, m - 1, n);
    }
  }

  lemma {:induction false} AllowanceIsProduct(cfg: Config, most: nat, n: nat)
    ensures Allowance(cfg, most, n) == Bound(cfg, most) * n
  {
    if n > 0 {
      AllowanceIsProduct(cfg, most, n - 1);
      assert Bound(cfg, most) * n == Bound(cfg, most) + Bound(cfg, most) * (n - 1);
    }
  }

  lemma {:induction false} TimesGrows(k: nat, m: nat, x: nat)
    requires k <= m
    ensures k * x <= m * x
  {
    assert m * x == k * x + (m - k) * x;
  }

  lemma HandingOutPays(cfg: Config, most: nat, k: nat, r: nat)
    requires k <= most
    ensures k + k * PowerSum(most, RoundsInFlight(cfg, r)) <= PowerSum(most, RoundsPending(cfg, r))
  {
    hide PowerSum;
    var rest := PowerSum(most, RoundsInFlight(cfg, r));
    PowerSumUnrolls(most, RoundsInFlight(cfg, r));
    assert RoundsPending(cfg, r) == RoundsInFlight(cfg, r) + 1;
    TimesGrows(k, most, 1 + rest);
    assert k + k * rest == k * (1 + rest);
  }

  lemma DispatchPays<P>(cfg: Config, most: nat, t: Topic, p: P, ev: Event<P>)
    requires EventOk(cfg, ev) && ev.Dispatched? && (ev.topic == t ==> |ev.entries| <= most)
    ensures DeliveredBy(t, p, ev) + GivenBy(FlightPotential(cfg, most, t, p), ev)
            <= TakenBy(t, PendingPotential(cfg, most, p), ev)
  {
    var hit := ev.topic == t && ev.message.payload == p;
    var c := if hit then PowerSum(most, RoundsInFlight(cfg, ev.message.retry)) else 0;
    forall i | 0 <= i < |ev.entries| ensures FlightPotential(cfg, most, t, p)(ev.entries[i]) == c {
      assert EntryOf(cfg, ev.topic, ev.message, ev.entries[i]);
    }
    SumConstant(ev.entries, FlightPotential(cfg, most, t, p), c);
    DeliveriesCarry(cfg, t, p, ev);
    if hit {
      HandingOutPays(cfg, most, |ev.entries|, ev.message.retry);
    }
  }

  /** Every delivery is paid for by the potential it uses up; only entering the topic adds potential. */
  lemma EventPays<P>(cfg: Config, most: nat, t: Topic, p: P, ev: Event<P>)
    requires EventOk(cfg, ev) && (ev.Dispatched? && ev.topic == t ==> |ev.entries| <= most)
    ensures DeliveredBy(t, p, ev)
            + PutBy(t, PendingPotential(cfg, most, p), ev) + GivenBy(FlightPotential(cfg, most, t, p), ev)
         <= Allowance(cfg, most, AcceptedBy(t, p, ev) + ArrivedBy(t, p, ev))
            + TakenBy(t, PendingPotential(cfg, most, p), ev) + SettledBy(FlightPotential(cfg, most, t, p), ev)
  {
    match ev
    case Dispatched(_, _, _, _) => DispatchPays(cfg, most, t, p, ev);
    case Accepted(u, m) =>
    case Requeued(e, m) => assert RoundsPending(cfg, m.retry) == RoundsInFlight(cfg, e.retry);
    case DeadLettered(e, m) => PowerSumGrows(most, RoundsPending(cfg, m.retry), RoundsPending(cfg, 0));
    case _ =>
  }

  ghost function Entries<P>(log: seq<Event<P>>, t: Topic, p: P): nat
  {
    Sum(log, ev => AcceptedBy(t, p, ev)) + Sum(log, ev => ArrivedBy(t, p, ev))
  }

  lemma {:induction false} LogPays<P>(cfg: Config, log: seq<Event<P>>, most: nat, t: Topic, p: P)
    requires LogOk(cfg, log) && FanOutBounded(log, 0, t, most)
    ensures Sum(log, ev => DeliveredBy(t, p, ev))
            + Sum(log, Put(t, PendingPotential(cfg, most, p))) + Sum(log, Given(FlightPotential(cfg, most, t, p)))
         <= Allowance(cfg, most, Entries(log, t, p))
            + Sum(log, Taken(t, PendingPotential(cfg, most, p))) + Sum(log, Settled(FlightPotential(cfg, most, t, p)))
  {
    hide Bound, Allowance, PendingPotential, FlightPotential;
    if log != [] {
      var init, ev := log[..|log| - 1], log[|log| - 1];
      LogPays(cfg, init, most, t, p);
      EventPays(cfg, most, t, p, ev);
      var x, y := Entries(init, t, p), AcceptedBy(t, p, ev) + ArrivedBy(t, p, ev);
      assert Entries(log, t, p) == x + y;
      AllowanceAdds(cfg, most, x, y);
    }
  }

  /** The balances of two points of a run, taken together: what the events in between did to the measure. */
  lemma SuffixPays<P>(cfg: Config, s: State<P>, s': State<P>, most: nat, t: Topic, p: P)
    requires LogOk(cfg, s'.log) && s.log <= s'.log && FanOutBounded(s'.log, |s.log|, t, most)
    requires PendBalance(s, t, PendingPotential(cfg, most, p)) && PendBalance(s', t, PendingPotential(cfg, most, p))
    requires FlightBalance(s, FlightPotential(cfg, most, t, p)) && FlightBalance(s', FlightPotential(cfg, most, t, p))
    ensures Delivered(s', t, p) + Potential(cfg, s', most, t, p)
            <= Delivered(s, t, p) + Potential(cfg, s, most, t, p) + Allowance(cfg, most, Entries(s'.log[|s.log|..], t, p))
  {
    var new' := s'.log[|s.log|..];
    assert s'.log == s.log + new';
    hide PendingPotential, FlightPotential, Allowance, LogOk;
    assert FanOutBounded(new', 0, t, most);
    SuffixOk(cfg, s.log, s'.log);
    LogPays(cfg, new', most, t, p);
    SumConcat(s.log, new', ev => DeliveredBy(t, p, ev));
    SumConcat(s.log, new', Put(t, PendingPotential(cfg, most, p)));
    SumConcat(s.log, new', Taken(t, PendingPotential(cfg, most, p)));
    SumConcat(s.log, new', Given(FlightPotential(cfg, most, t, p)));
    SumConcat(s.log, new', Settled(FlightPotential(cfg, most, t, p)));
  }

  lemma SuffixOk<P>(cfg: Config, log: seq<Event<P>>, log': seq<Event<P>>)
    requires LogOk(cfg, log') && log <= log'
    ensures LogOk(cfg, log'[|log|..])
  {
  }

  /**
   The measure at work.  While topic `t` has at most `most` >= 1 groups, deliveries of payload `p` made
   on `t` and the potential left together grow only by the bound for each new entry of `p` into `t`.
   */
  lemma PotentialIsPaidDown<P>(cfg: Config, acts: seq<Action<P>>, more: seq<Action<P>>, t: Topic, p: P, most: nat)
    requires 1 <= most && GroupsBounded(cfg, acts, more, t, most)
    ensures var s, s' := Run(cfg, acts).q, Run(cfg, acts + more).q;
            && s.log <= s'.log
            && Delivered(s', t, p) + Potential(cfg, s', most, t, p)
               <= Delivered(s, t, p) + Potential(cfg, s, most, t, p) + Bound(cfg, most) * Entries(s'.log[|s.log|..], t, p)
  {
    hide Run, Potential, Delivered, Entries, Bound;
    var s, s' := Run(cfg, acts).q, Run(cfg, acts + more).q;
    RunLogs(cfg, acts, more);
    RunShape(cfg, acts + more);
    RunFanOut(cfg, acts, more, t, most);
    RunPend(cfg, acts, t, PendingPotential(cfg, most, p));
    RunPend(cfg, acts + more, t, PendingPotential(cfg, most, p));
    RunFlight(cfg, acts, FlightPotential(cfg, most, t, p));
    RunFlight(cfg, acts + more, FlightPotential(cfg, most, t, p));
    SuffixPays(cfg, s, s', most, t, p);
    AllowanceIsProduct(cfg, most, Entries(s'.log[|s.log|..], t, p));
  }

  /** From any point of any run on: as long as nothing new enters, at most the potential there is delivered. */
  lemma RedeliveryEnds<P>(cfg: Config, acts: seq<Action<P>>, more: seq<Action<P>>, t: Topic, p: P, most: nat)
    requires 1 <= most && GroupsBounded(cfg, acts, more, t, most)
    requires Accepts(Run(cfg, acts + more).q, t, p) == Accepts(Run(cfg, acts).q, t, p)
    requires Arrivals(Run(cfg, acts + more).q, t, p) == Arrivals(Run(cfg, acts).q, t, p)
    ensures Delivered(Run(cfg, acts + more).q, t, p) <= Delivered(Run(cfg, acts).q, t, p) + Potential(cfg, Run(cfg, acts).q, most, t, p)
  {
    hide Run, Potential, Delivered, Bound;
    var s, s' := Run(cfg, acts).q, Run(cfg, acts + more).q;
    PotentialIsPaidDown(cfg, acts, more, t, p, most);
    EntriesSince(s, s', t, p);
    assert Entries(s'.log[|s.log|..], t, p) == 0;
    assert Bound(cfg, most) * 0 == 0;
  }

  lemma EntriesSince<P>(s: State<P>, s': State<P>, t: Topic, p: P)
    requires s.log <= s'.log
    ensures Accepts(s', t, p) + Arrivals(s', t, p) == Accepts(s, t, p) + Arrivals(s, t, p) + Entries(s'.log[|s.log|..], t, p)
  {
    var new' := s'.log[|s.log|..];
    assert s'.log == s.log + new';
    SumConcat(s.log, new', ev => AcceptedBy(t, p, ev));
    SumConcat(s.log, new', ev => ArrivedBy(t, p, ev));
  }

  /**
   Bounded amplification.  If topic `t` has at most `most` >= 1 groups throughout the run, then the
   deliveries of payload `p` made on `t` so far, plus the potential still in the queue, are at most
   most + most^2 + ... + most^M per entry of `p` into `t`, where M = max(1, max_retries).
   */
  lemma BoundedAmplification<P>(cfg: Config, acts: seq<Action<P>>, t: Topic, p: P, most: nat)
    requires 1 <= most && GroupsBounded(cfg, [], acts, t, most)
    ensures var s := Run(cfg, acts).q;
            Delivered(s, t, p) + Potential(cfg, s, most, t, p) <= Bound(cfg, most) * (Accepts(s, t, p) + Arrivals(s, t, p))
  {
    NothingYet(cfg, t, p, most);
    hide Run, Potential, Delivered, Bound, Entries, Accepts, Arrivals;
    assert [] + acts == acts;
    PotentialIsPaidDown(cfg, [], acts, t, p, most);
    EntriesSince(Run<P>(cfg, []).q, Run(cfg, acts).q, t, p);
  }

  lemma NothingYet<P>(cfg: Config, t: Topic, p: P, most: nat)
    ensures var s := Run<P>(cfg, []).q;
            Delivered(s, t, p) == Potential(cfg, s, most, t, p) == Accepts(s, t, p) == Arrivals(s, t, p) == 0
  {
  }

  // ---- A payload stays on the topic it was enqueued on and below -------------------------------

  /** A finite log has some bound on its fan-out. */
  lemma {:induction false} SomeFanOut<P>(log: seq<Event<P>>, t: Topic) returns (most: nat)
    ensures FanOutBounded(log, 0, t, most)
  {
    if log == [] {
      most := 0;
    } else {
      var ev := log[|log| - 1];
      most := SomeFanOut(log[..|log| - 1], t);
      if ev.Dispatched? && |ev.entries| > most {
        most := |ev.entries|;
      }
    }
  }

  lemma {:induction false} FannedAtMostDelivered<P>(cfg: Config, log: seq<Event<P>>, t: Topic, p: P)
    requires LogOk(cfg, log)
    ensures Sum(log, ev => FannedBy(t, p, ev)) <= Sum(log, ev => DeliveredBy(t, p, ev))
  {
    if log != [] {
      FannedAtMostDelivered(cfg, log[..|log| - 1], t, p);
      if log[|log| - 1].Dispatched? {
        DeliveriesCarry(cfg, t, p, log[|log| - 1]);
      }
    }
  }

  /** Without an entry of `p` nothing of it is delivered on `t`, nor buried from it, however many groups there are. */
  lemma NoEntryNoBurial<P>(cfg: Config, acts: seq<Action<P>>, t: Topic, p: P)
    requires Accepts(Run(cfg, acts).q, t, p) == Arrivals(Run(cfg, acts).q, t, p) == 0
    ensures Delivered(Run(cfg, acts).q, t, p) == Burials(Run(cfg, acts).q, t, p) == 0
  {
    hide Run, PendingPotential, FlightPotential;
    var s := Run(cfg, acts).q;
    var most := SomeFanOut(s.log, t);
    RunShape(cfg, acts);
    RunPend(cfg, acts, t, PendingPotential(cfg, most, p));
    RunFlight(cfg, acts, FlightPotential(cfg, most, t, p));
    LogPays(cfg, s.log, most, t, p);
    assert Entries(s.log, t, p) == 0;
    FannedAtMostDelivered(cfg, s.log, t, p);
    Conservation(cfg, acts, t, p);
  }

  /** `p` was accepted on no topic but `t`. */
  ghost predicate OnlyOn<P>(s: State<P>, t: Topic, p: P)
  {
    forall u :: u != t ==> Accepts(s, u, p) == 0
  }

  /** What is enqueued on `t` only arrives neither on `t` nor on any topic with as short a name. */
  lemma {:induction false} NothingArrivesAbove<P>(cfg: Config, acts: seq<Action<P>>, t: Topic, p: P, u: Topic)
    requires OnlyOn(Run(cfg, acts).q, t, p) && |u| <= |t|
    ensures Arrivals(Run(cfg, acts).q, u, p) == 0
    decreases |u|
  {
    hide Run;
    var s := Run(cfg, acts).q;
    if IsDeadLetterTopic(u) {
      var parent := u[..|u| - |DEAD_LETTER|];
      assert u == DeadLetterTopic(parent);
      NothingArrivesAbove(cfg, acts, t, p, parent);
      NoEntryNoBurial(cfg, acts, parent, p);
      BurialsArrive(s.log, parent, p);
    } else {
      NothingArrivesElsewhere(s.log, u, p);
    }
  }

  /** One enqueue, on any topic: at most most + most^2 + ... + most^M deliveries there. */
  lemma OneEnqueueIsBounded<P>(cfg: Config, acts: seq<Action<P>>, t: Topic, p: P, most: nat)
    requires 1 <= most && GroupsBounded(cfg, [], acts, t, most)
    requires OnlyOn(Run(cfg, acts).q, t, p) && Accepts(Run(cfg, acts).q, t, p) == 1
    ensures Delivered(Run(cfg, acts).q, t, p) <= Bound(cfg, most)
  {
    hide Run, Delivered, Accepts, Arrivals, Potential, Bound;
    NothingArrivesAbove(cfg, acts, t, p, t);
    BoundedAmplification(cfg, acts, t, p, most);
    assert Bound(cfg, most) * 1 == Bound(cfg, most);
  }
}
