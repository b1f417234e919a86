/** `Node` slots and the `LeastLoadedDispatcher`: reservations never exceed capacity, and the pick is the least loaded. */
module LeastLoaded {

  // ---- One selection that nobody interferes with --------------------------------------

  /** `order` lists the positions of `loads`, each once, by rising load and among equals by position. */
  ghost predicate SortedByLoad(order: seq<nat>, loads: seq<real>)
  {
    && |order| == |loads|
    && (forall a :: 0 <= a < |order| ==> order[a] < |loads|)
    && (forall i :: 0 <= i < |loads| ==> i in order)
    && (forall a, b :: 0 <= a < b < |order| ==> Before(loads, order[a], order[b]))
  }

  predicate Before(loads: seq<real>, i: nat, j: nat)
    requires i < |loads| && j < |loads|
  {
    loads[i] < loads[j] || (loads[i] == loads[j] && i < j)
  }

  /** `sorted(subscribers, key=load)` as positions: a stable insertion sort. */
  function Sorted(loads: seq<real>): (order: seq<nat>)
    ensures forall a :: 0 <= a < |order| ==> order[a] < |loads|
  {
    if loads == [] then [] else Insert(Sorted(loads[..|loads| - 1]), loads)
  }

  /** Puts the last position of `loads` behind every position with no greater load. */
  function Insert(order: seq<nat>, loads: seq<real>): (order': seq<nat>)
    requires loads != [] && forall a :: 0 <= a < |order| ==> order[a] < |loads|
    ensures forall a :: 0 <= a < |order'| ==> order'[a] < |loads|
    ensures |order'| == |order| + 1 && |loads| - 1 in order'
    ensures forall i :: i in order' ==> i in order || i == |loads| - 1
    ensures forall i :: i in order ==> i in order'
    decreases |order|
  {
    var last := |loads| - 1;
    if order == [] then [last]
    else if loads[order[|order| - 1]] <= loads[last] then order + [last]
    else
      var init := order[..|order| - 1];
      assert order == init + [order[|order| - 1]];
      Insert(init, loads) + [order[|order| - 1]]
  }

  ghost predicate Ascending(order: seq<nat>, loads: seq<real>)
  {
    && (forall a :: 0 <= a < |order| ==> order[a] < |loads|)
    && (forall a, b :: 0 <= a < b < |order| ==> Before(loads, order[a], order[b]))
  }

  lemma AscendingSnoc(order: seq<nat>, x: nat, loads: seq<real>)
    requires Ascending(order, loads) && x < |loads| && forall a :: 0 <= a < |order| ==> Before(loads, order[a], x)
    ensures Ascending(order + [x], loads)
  {
    hide Before;
  }

  lemma AllBefore(order: seq<nat>, y: nat, loads: seq<real>)
    requires Ascending(order, loads) && order != [] && y < |loads| && Before(loads, order[|order| - 1], y)
    ensures forall a :: 0 <= a < |order| ==> Before(loads, order[a], y)
  {
    var top := order[|order| - 1];
    forall a | 0 <= a < |order| ensures Before(loads, order[a], y) {
      assert a == |order| - 1 || Before(loads, order[a], top);
    }
  }

  lemma {:induction false} InsertAscends(order: seq<nat>, loads: seq<real>)
    requires loads != [] && Ascending(order, loads) && forall a :: 0 <= a < |order| ==> order[a] < |loads| - 1
    ensures Ascending(Insert(order, loads), loads)
    decreases |order|
  {
    if order != [] {
      var init, top, last := order[..|order| - 1], order[|order| - 1], |loads| - 1;
      if loads[top] <= loads[last] {
        AllBefore(order, last, loads);
        AscendingSnoc(order, last, loads);
      } else {
        var order' := Insert(init, loads);
        InsertAscends(init, loads);
        hide Insert;
        forall a | 0 <= a < |order'| ensures Before(loads, order'[a], top) {
          if order'[a] != last {
            assert order'[a] in init;
          }
        }
        AscendingSnoc(order', top, loads);
      }
    }
  }

  lemma BeforeInPrefix(loads: seq<real>, i: nat, j: nat)
    requires i < |loads| - 1 && j < |loads| - 1
    ensures Before(loads[..|loads| - 1], i, j) <==> Before(loads, i, j)
  {
  }

  lemma {:induction false} SortedSorts(loads: seq<real>)
    ensures SortedByLoad(Sorted(loads), loads)
  {
    if loads != [] {
      var init := loads[..|loads| - 1];
      SortedSorts(init);
      var order := Sorted(init);
      forall a, b | 0 <= a < b < |order| ensures Before(loads, order[a], order[b]) {
        BeforeInPrefix(loads, order[a], order[b]);
      }
      InsertAscends(order, loads);
      forall i | 0 <= i < |loads| ensures i in Insert(order, loads) {
        if i < |init| {
          assert i in order;
        }
      }
    }
  }

  class Node {
    const cpus: int
    const gpus: seq<int>
    var inFlight: nat

    constructor (cpus: int, gpus: seq<int>)
      ensures this.cpus == cpus && this.gpus == gpus && inFlight == 0
    {
      this.cpus, this.gpus, inFlight := cpus, gpus, 0;
    }

    /** One per GPU, or a quarter of the CPUs but at least one. */
    function Capacity(): (c: nat)
      ensures c >= 1
      ensures gpus != [] ==> c == |gpus|
      ensures gpus == [] ==> (if cpus < 8 then c == 1 else 4 * c <= cpus < 4 * c + 4)
    {
      if |gpus| > 0 then |gpus| else if cpus / 4 > 1 then cpus / 4 else 1
    }

    function Load(): (l: real)
      reads this
      ensures l * Capacity() as real == inFlight as real
      ensures l < 1.0 <==> inFlight < Capacity()
    {
      DividingByCapacity(inFlight, Capacity());
      inFlight as real / Capacity() as real
    }

    /** `try_acquire`. */
    method TryAcquire() returns (ok: bool)
      modifies this
      ensures ok <==> old(inFlight) < Capacity()
      ensures inFlight == if ok then old(inFlight) + 1 else old(inFlight)
    {
      if inFlight >= Capacity() {
        return false;
      }
      inFlight := inFlight + 1;
      ok := true;
    }

    /** `release`: never below zero. */
    method Release()
      modifies this
      ensures inFlight == if old(inFlight) > 0 then old(inFlight) - 1 else 0
    {
      if inFlight > 0 {
        inFlight := inFlight - 1;
      }
    }
  }

  lemma DividingByCapacity(n: nat, c: nat)
    requires c >= 1
    ensures n as real / c as real * c as real == n as real
    ensures n as real / c as real < 1.0 <==> n < c
  {
    var x := n as real / c as real;
    assert x * c as real == n as real;
    assert x < 1.0 <==> x * c as real < 1.0 * c as real;
  }

  ghost function LoadsOf(subs: seq<Node>): (loads: seq<real>)
    reads subs
    ensures |loads| == |subs| && forall i :: 0 <= i < |subs| ==> loads[i] == subs[i].Load()
  {
    seq(|subs|, i requires 0 <= i < |subs| reads subs => subs[i].Load())
  }

  /** Position `i` has the least load, and no earlier position has it too. */
  ghost predicate IsFirstLeast(loads: seq<real>, i: nat)
  {
    && i < |loads|
    && (forall j :: 0 <= j < |loads| ==> loads[i] <= loads[j])
    && (forall j :: 0 <= j < i ==> loads[i] < loads[j])
  }

  lemma HeadIsFirstLeast(order: seq<nat>, loads: seq<real>)
    requires SortedByLoad(order, loads) && loads != []
    ensures IsFirstLeast(loads, order[0])
  {
    var i := order[0];
    forall j | 0 <= j < |loads| ensures loads[i] <= loads[j] && (j < i ==> loads[i] < loads[j]) {
      assert j in order;
      var b :| 0 <= b < |order| && order[b] == j;
      assert b > 0 ==> Before(loads, order[0], order[b]);
    }
  }

  /**
   `_select` on nodes, with no concurrent change: reserves one slot on the first least loaded node;
   fails, changing nothing, exactly if every node is full.
   */
  method Select(subs: seq<Node>) returns (chosen: Node?)
    modifies subs
    ensures chosen == null <==> forall i :: 0 <= i < |subs| ==> old(subs[i].inFlight) >= subs[i].Capacity()
    ensures chosen == null ==> forall i :: 0 <= i < |subs| ==> subs[i].inFlight == old(subs[i].inFlight)
    ensures chosen != null ==> exists i :: 0 <= i < |subs| && subs[i] == chosen && IsFirstLeast(old(LoadsOf(subs)), i)
    ensures chosen != null ==> chosen.inFlight == old(chosen.inFlight) + 1 <= chosen.Capacity()
    ensures forall node :: node in subs && node != chosen ==> node.inFlight == old(node.inFlight)
  {
    var loads := ReadLoads(subs);
    var order := Sorted(loads);
    SortedSorts(loads);
    hide Sorted;
    if order != [] {
      HeadIsFirstLeast(order, loads);
    }
    for a := 0 to |order|
      invariant forall i :: 0 <= i < |subs| ==> subs[i].inFlight == old(subs[i].inFlight)
      invariant a > 0 ==> forall i :: 0 <= i < |subs| ==> subs[i].inFlight >= subs[i].Capacity()
    {
      var node := subs[order[a]];
      var ok := node.TryAcquire();
      if ok {
        assert IsFirstLeast(loads, order[a]);
        return node;
      }
      forall i | 0 <= i < |subs| ensures subs[i].inFlight >= subs[i].Capacity() {
        if a == 0 {
          assert loads[order[0]] == old(subs[order[0]].Load()) && loads[order[0]] >= 1.0;
          assert loads[i] >= 1.0 && loads[i] == old(subs[i].Load());
        }
      }
    }
    chosen := null;
  }

  method ReadLoads(subs: seq<Node>) returns (loads: seq<real>)
    ensures loads == LoadsOf(subs)
  {
    loads := [];
    for i := 0 to |subs|
      invariant |loads| == i && forall j :: 0 <= j < i ==> loads[j] == subs[j].Load()
    {
      loads := loads + [subs[i].Load()];
    }
  }

  /** What a handler does, and how a call through the dispatcher ends. */
  datatype Handled<V> = Gives(value: V) | Throws(exc: string)
  datatype Exit<V> = Value(value: V) | Nothing | Error(exc: string) | AllSaturated

  ghost predicate AllAtCapacity(subs: seq<Node>)
    reads subs
  {
    forall i :: 0 <= i < |subs| ==> subs[i].inFlight >= subs[i].Capacity()
  }

  /** `node` is the first least loaded of `subs`. */
  ghost predicate IsPick(subs: seq<Node>, node: Node)
    reads subs
  {
    exists i :: 0 <= i < |subs| && subs[i] == node && IsFirstLeast(LoadsOf(subs), i)
  }

  /**
   `route`, undisturbed: the handler of the first least loaded node runs with its slot held (`held` is
   that node's count meanwhile), its value is returned or its exception propagates, and on either exit
   every node is as before; raises "saturated" exactly if all nodes are full.
   */
  method Route<V>(subs: seq<Node>, handlers: Node -> Handled<V>) returns (exit: Exit<V>, chosen: Node?, ghost held: nat)
    modifies subs
    ensures exit == AllSaturated <==> old(AllAtCapacity(subs))
    ensures chosen == null <==> exit == AllSaturated
    ensures chosen != null ==> chosen in subs && old(IsPick(subs, chosen)) && held == old(chosen.inFlight) + 1
    ensures chosen != null && handlers(chosen).Gives? ==> exit == Value(handlers(chosen).value)
    ensures chosen != null && handlers(chosen).Throws? ==> exit == Error(handlers(chosen).exc)
    ensures forall node :: node in subs ==> node.inFlight == old(node.inFlight)
  {
    held := 0;
    chosen := Select(subs);
    if chosen == null {
      return AllSaturated, null, held;
    }
    held := chosen.inFlight;
    match handlers(chosen) {
      case Gives(value) => exit := Value(value);
      case Throws(exc) => exit := Error(exc);
    }
    chosen.Release();
  }

  /** `dispatch`, undisturbed: the same without a result; the handler's exception is swallowed, "saturated" is not. */
  method Dispatch<V>(subs: seq<Node>, handlers: Node -> Handled<V>) returns (exit: Exit<V>, chosen: Node?, ghost held: nat)
    modifies subs
    ensures exit == if subs != [] && old(AllAtCapacity(subs)) then AllSaturated else Nothing
    ensures chosen == null <==> old(AllAtCapacity(subs))
    ensures chosen != null ==> chosen in subs && old(IsPick(subs, chosen)) && held == old(chosen.inFlight) + 1
    ensures forall node :: node in subs ==> node.inFlight == old(node.inFlight)
  {
    held := 0;
    if subs == [] {
      return Nothing, null, held;
    }
    chosen := Select(subs);
    if chosen == null {
      return AllSaturated, null, held;
    }
    held := chosen.inFlight;
    match handlers(chosen) {
      case Gives(_) =>
      case Throws(_) =>  // logged
    }
    exit := Nothing;
    chosen.Release();
  }

  // ---- Any number of threads and dispatchers --------------------------------------------

  type NodeId = nat
  type Thread = nat

  /** A failed `try_acquire`: the node and what its two numbers were. */
  datatype Sight = Sight(node: NodeId, inFlight: nat, capacity: nat)

  /**
   Where a thread is in `route` or `dispatch`.  `left` are the candidates still to be tried, in the
   order its sort produced from loads that may be stale by now.
   */
  datatype Phase =
    | Idle
    | Choosing(subs: seq<NodeId>, left: seq<NodeId>, seen: seq<Sight>)
    | Holding(node: NodeId)    // the handler runs
    | Unwinding(node: NodeId)  // the handler is over, the finally block not yet run
    | Saturated(subs: seq<NodeId>, seen: seq<Sight>)

  datatype Slots = Slots(inFlight: nat, capacity: nat)

  datatype System = System(nodes: map<NodeId, Slots>, at: map<Thread, Phase>)

  datatype Step =
    | Begin(t: Thread, subs: seq<NodeId>, order: seq<NodeId>)  // loads read and sorted: some permutation
    | Try(t: Thread)      // try_acquire on the next candidate
    | GiveUp(t: Thread)   // no candidate left
    | Return(t: Thread)   // the handler returns
    | Throw(t: Thread)    // the handler raises
    | Release(t: Thread)  // the finally block

  predicate Enabled(s: System, step: Step)
  {
    step.t in s.at &&
    match step
    case Begin(t, subs, order) =>
      (s.at[t].Idle? || s.at[t].Saturated?) && multiset(order) == multiset(subs) && forall n :: n in subs ==> n in s.nodes
    case Try(t) => s.at[t].Choosing? && s.at[t].left != [] && s.at[t].left[0] in s.nodes
    case GiveUp(t) => s.at[t].Choosing? && s.at[t].left == []
    case Return(t) => s.at[t].Holding?
    case Throw(t) => s.at[t].Holding?
    case Release(t) => s.at[t].Unwinding? && s.at[t].node in s.nodes
  }

  function Next(s: System, step: Step): System
    requires Enabled(s, step)
  {
    match step
    case Begin(t, subs, order) => s.(at := s.at[t := Choosing(subs, order, [])])
    case Try(t) =>
      var c := s.at[t];
      var n := c.left[0];
      var slots := s.nodes[n];
      if slots.inFlight >= slots.capacity then
        s.(at := s.at[t := Choosing(c.subs, c.left[1..], c.seen + [Sight(n, slots.inFlight, slots.capacity)])])
      else
        System(s.nodes[n := slots.(inFlight := slots.inFlight + 1)], s.at[t := Holding(n)])
    case GiveUp(t) => s.(at := s.at[t := Saturated(s.at[t].subs, s.at[t].seen)])
    case Return(t) => s.(at := s.at[t := Unwinding(s.at[t].node)])
    case Throw(t) => s.(at := s.at[t := Unwinding(s.at[t].node)])
    case Release(t) =>
      var n := s.at[t].node;
      var slots := s.nodes[n];
      System(s.nodes[n := slots.(inFlight := if slots.inFlight > 0 then slots.inFlight - 1 else 0)], s.at[t := Idle])
  }

  predicate Holds(p: Phase, n: NodeId)
  {
    (p.Holding? || p.Unwinding?) && p.node == n
  }

  ghost function Holders(at: map<Thread, Phase>, n: NodeId): set<Thread>
  {
    set t | t in at && Holds(at[t], n)
  }

  ghost function SeenNodes(seen: seq<Sight>): multiset<NodeId>
  {
    if seen == [] then multiset{} else SeenNodes(seen[..|seen| - 1]) + multiset{seen[|seen| - 1].node}
  }

  ghost predicate AllFull(seen: seq<Sight>)
  {
    forall i :: 0 <= i < |seen| ==> seen[i].inFlight == seen[i].capacity
  }

  /** A node's counter is the number of calls that hold a slot of it, and no more than its capacity. */
  ghost predicate NodeOk(s: System, n: NodeId)
  {
    n in s.nodes ==> s.nodes[n].inFlight == |Holders(s.at, n)| <= s.nodes[n].capacity
  }

  /** What a selecting thread has tried and has left is what it was given; all it tried it saw full. */
  ghost predicate PhaseOk(nodes: map<NodeId, Slots>, p: Phase)
  {
    match p
    case Idle => true
    case Choosing(subs, left, seen) =>
      AllFull(seen) && SeenNodes(seen) + multiset(left) == multiset(subs) && forall n :: n in left ==> n in nodes
    case Holding(n) => n in nodes
    case Unwinding(n) => n in nodes
    case Saturated(subs, seen) => AllFull(seen) && SeenNodes(seen) == multiset(subs)
  }

  ghost predicate Ok(s: System)
  {
    (forall n :: NodeOk(s, n)) && (forall t :: t in s.at ==> PhaseOk(s.nodes, s.at[t]))
  }

  lemma HoldersMove(at: map<Thread, Phase>, t: Thread, to: Phase, n: NodeId)
    requires t in at
    ensures |Holders(at[t := to], n)| == |Holders(at, n)| + (if Holds(to, n) then 1 else 0) - (if Holds(at[t], n) then 1 else 0)
  {
    hide Holds;
    HoldersBut(at, t, n);
    HoldersBut(at[t := to], t, n);
    assert Holders(at[t := to], n) - {t} == Holders(at, n) - {t};
  }

  lemma HoldersBut(at: map<Thread, Phase>, t: Thread, n: NodeId)
    requires t in at
    ensures |Holders(at, n)| == |Holders(at, n) - {t}| + if Holds(at[t], n) then 1 else 0
  {
    hide Holds;
    var others := Holders(at, n) - {t};
    assert Holders(at, n) == if Holds(at[t], n) then others + {t} else others;
  }

  lemma SeenSnoc(seen: seq<Sight>, x: Sight)
    ensures SeenNodes(seen + [x]) == SeenNodes(seen) + multiset{x.node}
  {
    assert (seen + [x])[..|seen|] == seen;
  }

  lemma StepNode(s: System, step: Step, n: NodeId)
    requires Ok(s) && Enabled(s, step)
    ensures NodeOk(Next(s, step), n)
  {
    assert NodeOk(s, n) && PhaseOk(s.nodes, s.at[step.t]);
    hide Ok, PhaseOk;
    HoldersMove(s.at, step.t, Next(s, step).at[step.t], n);
    if Holds(s.at[step.t], n) {
      assert step.t in Holders(s.at, n);
    }
    hide Holders;
  }

  lemma SightAdded(subs: seq<NodeId>, left: seq<NodeId>, seen: seq<Sight>, sight: Sight)
    requires left != [] && sight.node == left[0] && sight.inFlight == sight.capacity
    requires AllFull(seen) && SeenNodes(seen) + multiset(left) == multiset(subs)
    ensures AllFull(seen + [sight]) && SeenNodes(seen + [sight]) + multiset(left[1..]) == multiset(subs)
  {
    SeenSnoc(seen, sight);
    hide SeenNodes;
    assert left == [left[0]] + left[1..];
  }

  lemma TryKeepsPhase(s: System, t: Thread)
    requires Enabled(s, Try(t)) && PhaseOk(s.nodes, s.at[t]) && NodeOk(s, s.at[t].left[0])
    ensures PhaseOk(s.nodes, Next(s, Try(t)).at[t])
  {
    var c := s.at[t];
    var slots := s.nodes[c.left[0]];
    assert slots.inFlight <= slots.capacity;
    hide NodeOk;
    if slots.inFlight == slots.capacity {
      SightAdded(c.subs, c.left, c.seen, Sight(c.left[0], slots.inFlight, slots.capacity));
    }
    hide SeenNodes, AllFull;
  }

  lemma StepOk(s: System, step: Step)
    requires Ok(s) && Enabled(s, step)
    ensures Ok(Next(s, step))
  {
    var s' := Next(s, step);
    forall n ensures NodeOk(s', n) {
      StepNode(s, step, n);
    }
    assert s'.nodes.Keys == s.nodes.Keys;
    forall t | t in s'.at ensures PhaseOk(s'.nodes, s'.at[t]) {
      assert PhaseOk(s.nodes, s.at[t]);
      if t == step.t && step.Try? {
        assert NodeOk(s, s.at[t].left[0]);
        TryKeepsPhase(s, t);
      } else if t == step.t && step.Begin? {
        assert forall n :: n in step.order ==> n in multiset(step.order);
      }
    }
  }

  function Init(nodes: map<NodeId, nat>, threads: set<Thread>): System
  {
    System(map n | n in nodes :: Slots(0, nodes[n]), map t | t in threads :: Idle)
  }

  predicate Legal(s: System, steps: seq<Step>)
    decreases |steps|
  {
    steps == [] || (Enabled(s, steps[0]) && Legal(Next(s, steps[0]), steps[1..]))
  }

  function Run(s: System, steps: seq<Step>): System
    requires Legal(s, steps)
    decreases |steps|
  {
    if steps == [] then s else Run(Next(s, steps[0]), steps[1..])
  }

  lemma {:induction false} RunOk(s: System, steps: seq<Step>)
    requires Legal(s, steps) && Ok(s)
    ensures Ok(Run(s, steps))
    decreases |steps|
  {
    hide Ok;
    if steps != [] {
      StepOk(s, steps[0]);
      RunOk(Next(s, steps[0]), steps[1..]);
    }
  }

  lemma InitOk(nodes: map<NodeId, nat>, threads: set<Thread>)
    ensures Ok(Init(nodes, threads))
  {
    var s := Init(nodes, threads);
    forall n ensures NodeOk(s, n) {
      assert Holders(s.at, n) == {};
    }
  }

  /**
   In every interleaving of any threads, through any number of dispatchers sharing the nodes: no
   node holds more calls than its capacity, its counter is exactly the calls it holds, and a thread
   told "all subscribers saturated" saw each of its candidates full during that selection.
   */
  lemma ReservationsAreSafe(nodes: map<NodeId, nat>, threads: set<Thread>, steps: seq<Step>)
    requires Legal(Init(nodes, threads), steps)
    ensures var s := Run(Init(nodes, threads), steps);
            && (forall n :: n in s.nodes ==> s.nodes[n].inFlight == |Holders(s.at, n)| <= s.nodes[n].capacity)
            && (forall t :: t in s.at && s.at[t].Saturated? ==>
                  AllFull(s.at[t].seen) && SeenNodes(s.at[t].seen) == multiset(s.at[t].subs))
  {
    hide Run, Legal, Init, Holders, SeenNodes, AllFull;
    InitOk(nodes, threads);
    RunOk(Init(nodes, threads), steps);
    var s := Run(Init(nodes, threads), steps);
    forall n | n in s.nodes ensures s.nodes[n].inFlight == |Holders(s.at, n)| <= s.nodes[n].capacity {
      assert NodeOk(s, n);
    }
    forall t | t in s.at && s.at[t].Saturated?
      ensures AllFull(s.at[t].seen) && SeenNodes(s.at[t].seen) == multiset(s.at[t].subs)
    {
      assert PhaseOk(s.nodes, s.at[t]);
    }
  }

  /** When every call has come back, by whatever exit, every slot is free again. */
  lemma EverySlotComesBack(nodes: map<NodeId, nat>, threads: set<Thread>, steps: seq<Step>, n: NodeId)
    requires Legal(Init(nodes, threads), steps)
    ensures var s := Run(Init(nodes, threads), steps);
            n in s.nodes && (forall t :: t in s.at ==> !s.at[t].Holding? && !s.at[t].Unwinding?) ==> s.nodes[n].inFlight == 0
  {
    hide Run, Legal, Init;
    ReservationsAreSafe(nodes, threads, steps);
    var s := Run(Init(nodes, threads), steps);
    if forall t :: t in s.at ==> !s.at[t].Holding? && !s.at[t].Unwinding? {
      assert Holders(s.at, n) == {};
    }
  }
}
