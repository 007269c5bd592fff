/** IEWStageInjectedFault: a fault in the issue/execute/writeback stage that
    inverts a branch condition or corrupts an in-flight value. Both value
    entry points are compiled in every build, but they corrupt the value only
    when the simulator is built for the Alpha ISA; otherwise they stop at
    `assert(0)` before the reschedule hook. `Build` stands for that one
    build-wide switch: the simulator is configured once, and the same value is
    handed to every call. */
module IewFault {
  import opened Outcomes
  import opened FaultQueues

  /** The build configuration of the whole simulator: is `ALPHA_ISA` defined? */
  datatype Build = Build(alphaIsa: bool)

  /** The value `process(bool)` hands back: the inverted condition, or a fatal
      assertion when the corruption is not built in. */
  function InvertCondition(alphaIsa: bool, v: bool): (r: Result<bool>)
    ensures r.Success? <==> alphaIsa
    ensures r.Failure? ==> r.error == ArchMismatch
    ensures r.Success? ==> r.value != v
  {
    if alphaIsa then Success(!v) else Failure(ArchMismatch)
  }

  /** Inverting a condition twice restores it. */
  lemma InvertConditionTwice(v: bool)
    ensures InvertCondition(true, InvertCondition(true, v).value) == Success(v)
  {
  }

  /** The two concrete cases of a branch condition. */
  lemma InvertConditionCases()
    ensures InvertCondition(true, true) == Success(false)
    ensures InvertCondition(true, false) == Success(true)
    ensures InvertCondition(false, true).Failure? && InvertCondition(false, false).Failure?
  {
  }

  /** An IEW fault with its corruption payload `value` of type `P` and the
      tag `valueType` of type `K` that says how `manifest` reads the payload. */
  class IEWStageFault<P, K> {
    const id: FaultId
    const queue: FaultQueue
    var value: P
    var valueType: K

    constructor (id: FaultId, value: P, valueType: K, queue: FaultQueue)
      ensures this.id == id && this.queue == queue
      ensures this.value == value && this.valueType == valueType
    {
      this.id := id;
      this.queue := queue;
      this.value := value;
      this.valueType := valueType;
    }

    /** `process<T>(void)`: must never be called; it detaches the fault from
        its queue and then fails. */
    method ProcessVoid() returns (r: Result<()>)
      modifies queue
      ensures r == Failure(PlaceholderCalled)
      ensures queue.live == old(queue.live) - {id} && !queue.HasPending(id)
      ensures queue.rescheduled == old(queue.rescheduled)
    {
      queue.Remove(id);
      r := Failure(PlaceholderCalled);
    }

    /** `process(bool)`: invert a branch condition, then fire the reschedule
        hook once. Without the Alpha build it fails before touching the queue. */
    method ProcessBool(build: Build, v: bool) returns (r: Result<bool>)
      modifies queue
      ensures r == InvertCondition(build.alphaIsa, v)
      ensures build.alphaIsa ==> queue.live == old(queue.live) - {id} && !queue.HasPending(id)
      ensures build.alphaIsa ==> queue.rescheduled == old(queue.rescheduled) + [id]
      ensures !build.alphaIsa ==> queue.live == old(queue.live) && queue.rescheduled == old(queue.rescheduled)
    {
      if !build.alphaIsa {
        r := Failure(ArchMismatch);
        return;
      }
      var flipped := !v;
      queue.Reschedule(id);
      r := Success(flipped);
    }

    /** Generic `process(T)`: the result is exactly `manifest` applied to the
        value, the fault's payload and its value type; the payload itself is
        left as it was, and the reschedule hook fires once. */
    method Process<T>(build: Build, v: T, manifest: (T, P, K) -> T) returns (r: Result<T>)
      modifies queue
      ensures r.Success? <==> build.alphaIsa
      ensures r.Failure? ==> r.error == ArchMismatch
      ensures r.Success? ==> r.value == manifest(v, value, valueType)
      ensures value == old(value) && valueType == old(valueType)
      ensures build.alphaIsa ==> queue.live == old(queue.live) - {id} && !queue.HasPending(id)
      ensures build.alphaIsa ==> queue.rescheduled == old(queue.rescheduled) + [id]
      ensures !build.alphaIsa ==> queue.live == old(queue.live) && queue.rescheduled == old(queue.rescheduled)
    {
      if !build.alphaIsa {
        r := Failure(ArchMismatch);
        return;
      }
      var retVal := manifest(v, value, valueType);
      queue.Reschedule(id);
      r := Success(retVal);
    }
  }
}
