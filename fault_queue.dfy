/** The fault queues of the fault-injection system, reduced to what the two
    fault kinds use: membership of live fault ids, insertion at construction,
    detach, and the single-shot reschedule hook. */
module FaultQueues {

  /** Identity of one fault object (the `this` pointer in the source). */
  type FaultId = nat

  /** The `InjectedFault` fault-type tags of the two kinds modelled here. */
  datatype FaultType = RegisterDecodingInjectedFault | IEWStageInjectedFault

  /** One stage's queue of pending faults. The ghost `rescheduled` records
      every call of the reschedule hook, in order, so that the number of calls
      can be stated; the queue itself keeps only `live`. */
  class FaultQueue {
    var live: set<FaultId>
    ghost var rescheduled: seq<FaultId>

    constructor ()
      ensures live == {} && rescheduled == []
    {
      live := {};
      rescheduled := [];
    }

    /** Is the fault still waiting to fire? */
    predicate HasPending(id: FaultId)
      reads this
    {
      id in live
    }

    /** Register a fault with this queue. */
    method Insert(id: FaultId)
      modifies this
      ensures live == old(live) + {id}
      ensures rescheduled == old(rescheduled)
      ensures HasPending(id)
    {
      live := live + {id};
    }

    /** Detach a fault; detaching a non-member changes nothing. */
    method Remove(id: FaultId)
      modifies this
      ensures live == old(live) - {id}
      ensures rescheduled == old(rescheduled)
      ensures !HasPending(id)
      ensures id !in old(live) ==> live == old(live)
    {
      live := live - {id};
    }

    /** `check4reschedule()` of a single-shot fault: the fault has fired, so it
        leaves its queue for good, and the call is recorded. */
    method Reschedule(id: FaultId)
      modifies this
      ensures live == old(live) - {id}
      ensures rescheduled == old(rescheduled) + [id]
      ensures !HasPending(id)
    {
      live := live - {id};
      rescheduled := rescheduled + [id];
    }
  }
}
