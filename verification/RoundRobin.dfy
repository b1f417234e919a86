/** The round-robin dispatcher and the round-robin RPC client; `turns` counts the choices made so far. */
module RoundRobin {
  import opened Rotation

  class RoundRobinDispatcher {
    var idx: nat
    ghost var turns: nat

    ghost predicate Valid()
      reads this
    {
      idx == DispatcherIndex(0, turns)
    }

    constructor ()
      ensures Valid() && turns == 0
    {
      idx, turns := 0, 0;
    }

    /** The lock block of `dispatch`; nothing happens without subscribers. */
    method Choose<T>(subscribers: seq<T>) returns (place: int)
      requires Valid()
      modifies this
      ensures Valid()
      ensures subscribers == [] ==> place == -1 && turns == old(turns)
      ensures subscribers != [] ==> place == Turn(0, old(turns), |subscribers|) && turns == old(turns) + 1
    {
      if subscribers == [] {
        return -1;
      }
      DispatcherTakesTurns(0, turns, |subscribers|);
      place := idx % |subscribers|;
      idx, turns := idx + 1, turns + 1;
    }
  }

  class RoundRobinClient<C> {
    const clients: seq<C>
    var idx: nat
    ghost var turns: nat

    ghost predicate Valid()
      reads this
    {
      clients != [] && idx == ClientIndex(0, turns, |clients|)
    }

    constructor (clients: seq<C>)
      requires clients != []
      ensures Valid() && turns == 0 && this.clients == clients
    {
      this.clients, idx, turns := clients, 0, 0;
    }

    /** `_next_client`. */
    method NextClient() returns (client: C)
      requires Valid()
      modifies this
      ensures Valid() && turns == old(turns) + 1
      ensures client == clients[Turn(0, old(turns), |clients|)]
    {
      ClientTakesTurns(0, turns, |clients|);
      client := clients[idx];
      idx, turns := (idx + 1) % |clients|, turns + 1;
    }
  }
}
