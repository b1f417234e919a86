/** What one pass of the visibility-timeout reaper does to every queue and to the in-flight table. */
module WorkQueueReaper {
  import opened WorkQueueModel

  function Reversed<T>(xs: seq<T>): seq<T>
  {
    if xs == [] then [] else Reversed(xs[1..]) + [xs[0]]
  }

  /** The retried messages of topic `t`, in delivery order. */
  function Retried<P>(cfg: Config, es: seq<Entry<P>>, t: Topic): seq<Message<P>>
  {
    if es == [] then []
    else
      (if CanRetry(cfg, es[0]) && es[0].topic == t then [es[0].message.(retry := es[0].retry + 1)] else [])
      + Retried(cfg, es[1..], t)
  }

  /** The messages buried into topic `t`, in delivery order, when the next fresh id is `id`. */
  function Buried<P>(cfg: Config, es: seq<Entry<P>>, id: Id, t: Topic): seq<Message<P>>
  {
    if es == [] then []
    else if CanRetry(cfg, es[0]) then Buried(cfg, es[1..], id, t)
    else
      (if DeadLetterTopic(es[0].topic) == t then [DeadLetterCopy(es[0], id, VisibilityTimeoutExceeded)] else [])
      + Buried(cfg, es[1..], id + 1, t)
  }

  lemma Regroup<T>(xs: seq<T>, x: T, ys: seq<T>, zs: seq<T>)
    ensures xs + ([x] + ys) + zs == (xs + [x]) + ys + zs
    ensures xs + (ys + [x]) + zs == xs + ys + ([x] + zs)
  {
  }

  lemma {:induction false} ExpireAllQueues<P>(cfg: Config, s: State<P>, es: seq<Entry<P>>, t: Topic)
    ensures Pend(ExpireAll(cfg, s, es), t)
         == Reversed(Retried(cfg, es, t)) + Pend(s, t) + Buried(cfg, es, s.nextId, t)
    decreases |es|
  {
    if es != [] {
      var e, s' := es[0], Expire(cfg, s, es[0]);
      ExpireAllQueues(cfg, s', es[1..], t);
      var back, fore := Reversed(Retried(cfg, es[1..], t)), Buried(cfg, es[1..], s'.nextId, t);
      if CanRetry(cfg, e) {
        if e.topic == t {
          var m := e.message.(retry := e.retry + 1);
          assert Retried(cfg, es, t) == [m] + Retried(cfg, es[1..], t);
          assert ([m] + Retried(cfg, es[1..], t))[1..] == Retried(cfg, es[1..], t);
          Regroup(back, m, Pend(s, t), fore);
        } else {
          assert Retried(cfg, es, t) == Retried(cfg, es[1..], t);
        }
      } else {
        assert Retried(cfg, es, t) == Retried(cfg, es[1..], t);
        if DeadLetterTopic(e.topic) == t {
          Regroup(back, DeadLetterCopy(e, s.nextId, VisibilityTimeoutExceeded), Pend(s, t), fore);
        } else {
          assert Buried(cfg, es, s.nextId, t) == fore;
        }
      }
    }
  }

  lemma {:induction false} ExpireAllFlies<P>(cfg: Config, s: State<P>, es: seq<Entry<P>>)
    ensures ExpireAll(cfg, s, es).inFlight == s.inFlight
    decreases |es|
  {
    if es != [] {
      ExpireAllFlies(cfg, Expire(cfg, s, es[0]), es[1..]);
    }
  }

  /**
   A sweep at `now`, on any state: exactly the entries whose age has reached their timeout leave the
   table, the others keep their order; and every queue becomes its retried messages, latest
   delivery first, then what was pending, then what was buried into it, earliest delivery first.
   */
  lemma SweepExactly<P>(cfg: Config, s: State<P>, now: real, t: Topic)
    ensures var s', overdue := Sweep(cfg, s, now), Overdue(s.inFlight, now);
            && s'.inFlight == NotOverdue(s.inFlight, now)
            && (forall i :: 0 <= i < |s.inFlight| ==>
                  (now - s.inFlight[i].deliveredAt >= s.inFlight[i].timeout <==> s.inFlight[i] in overdue)
                  && (now - s.inFlight[i].deliveredAt < s.inFlight[i].timeout <==> s.inFlight[i] in s'.inFlight))
            && Pend(s', t) == Reversed(Retried(cfg, overdue, t)) + Pend(s, t) + Buried(cfg, overdue, s.nextId, t)
  {
    var s0 := s.(inFlight := NotOverdue(s.inFlight, now));
    ExpireAllQueues(cfg, s0, Overdue(s.inFlight, now), t);
    ExpireAllFlies(cfg, s0, Overdue(s.inFlight, now));
  }
}
