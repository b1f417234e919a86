/** The dead-letter topics of a topic, and theirs: where every enqueued message is in the end. */
module WorkQueueChain {
  import opened Sums
  import opened WorkQueueModel
  import opened WorkQueueConservation
  import opened WorkQueueAmplification

  /** t, t.dead_letter, t.dead_letter.dead_letter, ... */
  ghost function Chain(t: Topic, n: nat): Topic
  {
    if n == 0 then t else DeadLetterTopic(Chain(t, n - 1))
  }

  /** Where payload `p` rests on the first `n + 1` topics of the chain: held, acknowledged or dropped. */
  ghost function AtRest<P>(s: State<P>, t: Topic, p: P, n: nat): nat
  {
    Located(s, Chain(t, n), p) + Acks(s, Chain(t, n), p) + Drops(s, Chain(t, n), p)
    + if n == 0 then 0 else AtRest(s, t, p, n - 1)
  }

  /** What entered the first `n + 1` topics of the chain from outside. */
  ghost function Entered<P>(s: State<P>, t: Topic, p: P, n: nat): nat
  {
    Accepts(s, Chain(t, n), p) + Fanned(s, Chain(t, n), p) + if n == 0 then 0 else Entered(s, t, p, n - 1)
  }

  /** Conservation along the nested dead-letter topics of any topic, to any depth. */
  lemma {:induction false} ChainConservation<P>(cfg: Config, acts: seq<Action<P>>, t: Topic, p: P, n: nat)
    ensures var s := Run(cfg, acts).q;
            AtRest(s, t, p, n) + Burials(s, Chain(t, n), p) == Entered(s, t, p, n) + Arrivals(s, t, p)
  {
    hide Run;
    var s := Run(cfg, acts).q;
    Conservation(cfg, acts, Chain(t, n), p);
    if n > 0 {
      ChainConservation(cfg, acts, t, p, n - 1);
      BurialsArrive(s.log, Chain(t, n - 1), p);
    }
  }

  // ---- How deep a message can be --------------------------------------------------

  ghost function DeadLetters<P>(log: seq<Event<P>>): nat
  {
    Sum(log, (ev: Event<P>) => One(ev.DeadLettered?))
  }

  lemma {:induction false} ChainGrows(t: Topic, n: nat)
    ensures |Chain(t, n)| == |t| + n * |DEAD_LETTER|
  {
    if n > 0 {
      ChainGrows(t, n - 1);
    }
  }

  lemma ChainDistinct(t: Topic, m: nat, n: nat)
    requires m != n
    ensures Chain(t, m) != Chain(t, n)
  {
    ChainGrows(t, m);
    ChainGrows(t, n);
  }

  ghost function BuriedUpTo<P>(t: Topic, p: P, n: nat, ev: Event<P>): nat
  {
    BuriedBy(Chain(t, n), p, ev) + if n == 0 then 0 else BuriedUpTo(t, p, n - 1, ev)
  }

  /** One dead-lettering happens on at most one topic of the chain. */
  lemma {:induction false} BuriedOnce<P>(t: Topic, p: P, n: nat, ev: Event<P>)
    ensures BuriedUpTo(t, p, n, ev) <= One(ev.DeadLettered?)
    ensures BuriedUpTo(t, p, n, ev) > 0 ==> exists i :: 0 <= i <= n && ev.DeadLettered? && ev.entry.topic == Chain(t, i)
  {
    if n > 0 {
      BuriedOnce(t, p, n - 1, ev);
      forall i | 0 <= i < n ensures Chain(t, i) != Chain(t, n) {
        ChainDistinct(t, i, n);
      }
    }
  }

  ghost function BurialsUpTo<P>(log: seq<Event<P>>, t: Topic, p: P, n: nat): nat
  {
    Sum(log, ev => BuriedBy(Chain(t, n), p, ev)) + if n == 0 then 0 else BurialsUpTo(log, t, p, n - 1)
  }

  lemma {:induction false} BurialsUpToSnoc<P>(log: seq<Event<P>>, ev: Event<P>, t: Topic, p: P, n: nat)
    ensures BurialsUpTo(log + [ev], t, p, n) == BurialsUpTo(log, t, p, n) + BuriedUpTo(t, p, n, ev)
  {
    SumSnoc(log, ev, e => BuriedBy(Chain(t, n), p, e));
    if n > 0 {
      BurialsUpToSnoc(log, ev, t, p, n - 1);
    }
  }

  lemma {:induction false} NoBurials<P>(t: Topic, p: P, n: nat)
    ensures BurialsUpTo<P>([], t, p, n) == 0
  {
    if n > 0 {
      NoBurials(t, p, n - 1);
    }
  }

  lemma {:induction false} BurialsCounted<P>(log: seq<Event<P>>, t: Topic, p: P, n: nat)
    ensures BurialsUpTo(log, t, p, n) <= DeadLetters(log)
  {
    if log == [] {
      NoBurials(t, p, n);
    } else {
      var init, ev := log[..|log| - 1], log[|log| - 1];
      assert log == init + [ev];
      BurialsCounted(init, t, p, n);
      BurialsUpToSnoc(init, ev, t, p, n);
      BuriedOnce(t, p, n, ev);
    }
  }

  /** The run never has two groups on a topic, and `p` is enqueued on `t` only. */
  ghost predicate Plain<P>(cfg: Config, acts: seq<Action<P>>, t: Topic, p: P)
  {
    (forall u :: GroupsBounded(cfg, [], acts, u, 1)) && OnlyOn(Run(cfg, acts).q, t, p)
  }

  lemma {:induction false} PlainEntered<P>(cfg: Config, acts: seq<Action<P>>, t: Topic, p: P, n: nat)
    requires Plain(cfg, acts, t, p)
    ensures Entered(Run(cfg, acts).q, t, p, n) == Accepts(Run(cfg, acts).q, t, p)
  {
    hide Run;
    WholeRunFanOut(cfg, acts, Chain(t, n), 1);
    SingleGroupNeverFans(Run(cfg, acts).q.log, Chain(t, n), p);
    if n > 0 {
      ChainDistinct(t, 0, n);
      PlainEntered(cfg, acts, t, p, n - 1);
    }
  }

  lemma BurialsFallOff<P>(cfg: Config, acts: seq<Action<P>>, t: Topic, p: P, n: nat)
    requires Plain(cfg, acts, t, p) && n > 0
    ensures Burials(Run(cfg, acts).q, Chain(t, n), p) <= Burials(Run(cfg, acts).q, Chain(t, n - 1), p)
  {
    hide Run;
    var s := Run(cfg, acts).q;
    Conservation(cfg, acts, Chain(t, n), p);
    BurialsArrive(s.log, Chain(t, n - 1), p);
    WholeRunFanOut(cfg, acts, Chain(t, n), 1);
    SingleGroupNeverFans(s.log, Chain(t, n), p);
    ChainDistinct(t, 0, n);
  }

  lemma {:induction false} DeepBurialsAreRare<P>(cfg: Config, acts: seq<Action<P>>, t: Topic, p: P, n: nat)
    requires Plain(cfg, acts, t, p)
    ensures Burials(Run(cfg, acts).q, Chain(t, n), p) > 0 ==> BurialsUpTo(Run(cfg, acts).q.log, t, p, n) > n
  {
    hide Run;
    if n > 0 {
      BurialsFallOff(cfg, acts, t, p, n);
      DeepBurialsAreRare(cfg, acts, t, p, n - 1);
    }
  }

  /**
   With at most one group per topic, every payload enqueued on `t` is, for each time it was
   accepted, in exactly one place: pending or in flight on `t` or on one of its nested dead-letter
   topics, acknowledged there, or dropped by `close`.  No topic deeper than the number of
   dead-letterings so far needs to be looked at.
   */
  lemma EveryMessageIsInOnePlace<P>(cfg: Config, acts: seq<Action<P>>, t: Topic, p: P)
    requires Plain(cfg, acts, t, p)
    ensures var s := Run(cfg, acts).q;
            AtRest(s, t, p, DeadLetters(s.log)) == Accepts(s, t, p)
  {
    hide Run;
    var s := Run(cfg, acts).q;
    var depth := DeadLetters(s.log);
    ChainConservation(cfg, acts, t, p, depth);
    NothingArrivesAbove(cfg, acts, t, p, t);
    PlainEntered(cfg, acts, t, p, depth);
    DeepBurialsAreRare(cfg, acts, t, p, depth);
    BurialsCounted(s.log, t, p, depth);
  }
}
