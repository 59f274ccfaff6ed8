/** `createEventEmitter`: a subscription counter and a dictionary of handlers
    keyed by subscription id. A handler's truthy result is modelled as `true`. */
module EventEmitter {

  /** The ids among the keys of `hs` that are below `hi`, in increasing order:
      the order in which `Object.keys` lists integer keys. */
  function IdsBelow<H>(hs: map<nat, H>, hi: nat): (ids: seq<nat>)
  {
    if hi == 0 then [] else IdsBelow(hs, hi - 1) + (if hi - 1 in hs then [hi - 1] else [])
  }

  lemma {:induction false} IdsBelowMembers<H>(hs: map<nat, H>, hi: nat)
    ensures forall x :: x in IdsBelow(hs, hi) <==> x in hs && x < hi
  {
    if hi > 0 {
      IdsBelowMembers(hs, hi - 1);
    }
  }

  lemma {:induction false} IdsBelowIncreasing<H>(hs: map<nat, H>, hi: nat)
    ensures forall i, j :: 0 <= i < j < |IdsBelow(hs, hi)| ==> IdsBelow(hs, hi)[i] < IdsBelow(hs, hi)[j]
  {
    if hi > 0 {
      IdsBelowIncreasing(hs, hi - 1);
      IdsBelowMembers(hs, hi - 1);
      var prefix := IdsBelow(hs, hi - 1);
      assert forall i :: 0 <= i < |prefix| ==> prefix[i] in prefix;
    }
  }

  /** The handlers that stay registered after an emit of `p`: those whose
      result is falsy. */
  function Survivors<P>(hs: map<nat, P -> bool>, p: P): (r: map<nat, P -> bool>)
  {
    map id | id in hs && !hs[id](p) :: hs[id]
  }

  /** A handler stays after an emit exactly when it returned a falsy value,
      and nothing else changes. */
  lemma SurvivorsSpec<P>(hs: map<nat, P -> bool>, p: P, id: nat)
    ensures id in Survivors(hs, p) <==> id in hs && !hs[id](p)
    ensures id in Survivors(hs, p) ==> Survivors(hs, p)[id] == hs[id]
  {
  }

  class Emitter<P> {
    var handlerId: nat
    var handlers: map<nat, P -> bool>
    /** Every payload emitted so far, oldest first. */
    ghost var history: seq<P>

    /** Every registered id was issued by the counter. */
    ghost predicate Valid()
      reads this
    {
      forall id :: id in handlers ==> 1 <= id <= handlerId
    }

    constructor ()
      ensures Valid() && handlerId == 0 && handlers == map[] && history == []
    {
      handlerId := 0;
      handlers := map[];
      history := [];
    }

    /** `subscribe(handler)`: registers the handler under a new id, larger than
        every id issued before. */
    method Subscribe(handler: P -> bool) returns (id: nat)
      requires Valid()
      modifies this
      ensures Valid()
      ensures id == old(handlerId) + 1 == handlerId
      ensures id !in old(handlers)
      ensures handlers == old(handlers)[id := handler]
      ensures history == old(history)
    {
      handlerId := handlerId + 1;
      id := handlerId;
      handlers := handlers[id := handler];
    }

    /** The function `subscribe` returns: `delete handlers[subscriptionId]`.
        A second call changes nothing. */
    method Unsubscribe(id: nat)
      requires Valid()
      modifies this
      ensures Valid()
      ensures handlers == old(handlers) - {id}
      ensures id !in old(handlers) ==> handlers == old(handlers)
      ensures handlerId == old(handlerId) && history == old(history)
    {
      handlers := handlers - {id};
    }

    /** `emit(payload)`: calls every handler registered when the emit starts,
        once each, in increasing id order, and removes those whose result is
        truthy. `called` lists the ids in call order. */
    method Emit(payload: P) returns (called: seq<nat>)
      requires Valid()
      modifies this
      ensures Valid()
      ensures called == IdsBelow(old(handlers), old(handlerId) + 1)
      ensures handlers == Survivors(old(handlers), payload)
      ensures handlerId == old(handlerId)
      ensures history == old(history) + [payload]
    {
      var snapshot := handlers;
      called := [];
      for k := 0 to handlerId + 1
        invariant handlerId == old(handlerId) && history == old(history)
        invariant called == IdsBelow(snapshot, k)
        invariant handlers == map j | j in snapshot && (j >= k || !snapshot[j](payload)) :: snapshot[j]
      {
        if k in snapshot {
          called := called + [k];
          if snapshot[k](payload) {
            handlers := handlers - {k};
          }
        }
      }
      history := history + [payload];
    }
  }

  /** The ids an emit calls are exactly the registered ids, each once, in
      strictly increasing order. */
  lemma EmitOrder<P>(hs: map<nat, P -> bool>, handlerId: nat)
    requires forall id :: id in hs ==> 1 <= id <= handlerId
    ensures forall id :: id in IdsBelow(hs, handlerId + 1) <==> id in hs
    ensures var ids := IdsBelow(hs, handlerId + 1);
      forall i, j :: 0 <= i < j < |ids| ==> ids[i] < ids[j]
  {
    IdsBelowMembers(hs, handlerId + 1);
    IdsBelowIncreasing(hs, handlerId + 1);
  }
}
