/**
 * Event processors and their manager: every processor is asked in list
 * order whether it claims the event, and a claiming one processes it at
 * once, before the next one is asked.
 */
module Processors {
  import opened JavaLang
  import opened EventTypes
  import opened Events

  /** What a call of `process` does: print lines, or throw. */
  datatype Outcome = Returned(output: seq<string>) | Threw(exception: Exception)

  /** The `EventProcessor` interface, as its two behaviours. */
  datatype EventProcessor = EventProcessor(canProcess: Event -> bool, process: Event -> Outcome)

  /** One observable call: `canProcess` of processor i and its answer, or `process` of i. */
  datatype Step = Asked(index: nat, claimed: bool) | Ran(index: nat, outcome: Outcome)

  /** The calls of one `processEvent`, and the exception that escaped it, if any. */
  datatype Dispatch = Dispatch(trace: seq<Step>, thrown: Option<Exception>)

  /**
   * `processors.stream().filter(canProcess).forEach(process)` over the
   * processors `ps`: the stream is lazy, so each filter test is followed by
   * that processor's `process`, and an exception ends the stream.
   */
  function Run(ps: seq<EventProcessor>, event: Event): Dispatch {
    if |ps| == 0 then Dispatch([], None)
    else
      var prior := Run(ps[..|ps| - 1], event);
      var i := |ps| - 1;
      if prior.thrown.Some? then prior
      else if !ps[i].canProcess(event) then Dispatch(prior.trace + [Asked(i, false)], None)
      else
        var outcome := ps[i].process(event);
        Dispatch(prior.trace + [Asked(i, true), Ran(i, outcome)],
                 if outcome.Threw? then Some(outcome.exception) else None)
  }

  /** The processors whose `process` ran, in the order of the calls. */
  function Invoked(trace: seq<Step>): seq<nat> {
    if |trace| == 0 then []
    else Invoked(trace[..|trace| - 1]) + (if trace[|trace| - 1].Ran? then [trace[|trace| - 1].index] else [])
  }

  /** The processors that were asked, in the order of the calls. */
  function Queried(trace: seq<Step>): seq<nat> {
    if |trace| == 0 then []
    else Queried(trace[..|trace| - 1]) + (if trace[|trace| - 1].Asked? then [trace[|trace| - 1].index] else [])
  }

  /** The positions 0 .. n-1 in increasing order. */
  function Upto(n: nat): (r: seq<nat>)
    ensures |r| == n && forall i :: 0 <= i < n ==> r[i] == i
  {
    if n == 0 then [] else Upto(n - 1) + [n - 1]
  }

  /** The positions of the processors in `ps` that claim the event, in increasing order. */
  function Claiming(ps: seq<EventProcessor>, event: Event): seq<nat> {
    if |ps| == 0 then []
    else Claiming(ps[..|ps| - 1], event) + (if ps[|ps| - 1].canProcess(event) then [|ps| - 1] else [])
  }

  lemma {:induction false} InvokedAppend(a: seq<Step>, b: seq<Step>)
    ensures Invoked(a + b) == Invoked(a) + Invoked(b)
    decreases |b|
  {
    if |b| > 0 {
      assert (a + b)[..|a + b| - 1] == a + b[..|b| - 1];
      InvokedAppend(a, b[..|b| - 1]);
    } else {
      assert a + b == a;
    }
  }

  lemma {:induction false} QueriedAppend(a: seq<Step>, b: seq<Step>)
    ensures Queried(a + b) == Queried(a) + Queried(b)
    decreases |b|
  {
    if |b| > 0 {
      assert (a + b)[..|a + b| - 1] == a + b[..|b| - 1];
      QueriedAppend(a, b[..|b| - 1]);
    } else {
      assert a + b == a;
    }
  }

  /**
   * When nothing throws, `process` runs on exactly the claiming processors,
   * in list order, and every processor is asked once, in list order.
   */
  lemma {:induction false} RunsExactlyClaiming(ps: seq<EventProcessor>, event: Event)
    requires Run(ps, event).thrown.None?
    ensures Invoked(Run(ps, event).trace) == Claiming(ps, event)
    ensures Queried(Run(ps, event).trace) == Upto(|ps|)
  {
    if |ps| > 0 {
      var init, i := ps[..|ps| - 1], |ps| - 1;
      var prior := Run(init, event);
      assert prior.thrown.None?;
      RunsExactlyClaiming(init, event);
      if ps[i].canProcess(event) {
        var steps := [Asked(i, true), Ran(i, ps[i].process(event))];
        InvokedAppend(prior.trace, steps);
        QueriedAppend(prior.trace, steps);
        assert steps[..1] == [Asked(i, true)];
        assert [Asked(i, true)][..0] == [];
        assert Invoked([Asked(i, true)]) == [];
        assert Invoked(steps) == [i];
        assert Queried([Asked(i, true)]) == [i];
        assert Queried(steps) == Queried(steps[..1]);
      } else {
        InvokedAppend(prior.trace, [Asked(i, false)]);
        QueriedAppend(prior.trace, [Asked(i, false)]);
        assert [Asked(i, false)][..0] == [];
      }
    }
  }

  /** Once a process call has thrown, later processors add nothing. */
  lemma {:induction false} ThrownStays(ps: seq<EventProcessor>, k: nat, event: Event)
    requires k <= |ps|
    requires Run(ps[..k], event).thrown.Some?
    ensures Run(ps, event) == Run(ps[..k], event)
    decreases |ps| - k
  {
    if k < |ps| {
      var init := ps[..|ps| - 1];
      assert init[..k] == ps[..k];
      ThrownStays(init, k, event);
    } else {
      assert ps[..k] == ps;
    }
  }

  /**
   * An exception escapes exactly from the first claiming processor whose
   * `process` throws: everything before it completed, and no later
   * processor is asked or run.
   */
  lemma {:induction false} StopsAtFailure(ps: seq<EventProcessor>, event: Event)
    requires Run(ps, event).thrown.Some?
    ensures exists k :: (0 <= k < |ps| && ps[k].canProcess(event)
      && ps[k].process(event) == Threw(Run(ps, event).thrown.value)
      && Run(ps[..k], event).thrown.None?
      && Run(ps, event) == Run(ps[..k + 1], event))
  {
    var init, i := ps[..|ps| - 1], |ps| - 1;
    assert ps[..i + 1] == ps;
    if Run(init, event).thrown.Some? {
      StopsAtFailure(init, event);
      var k :| 0 <= k < |init| && init[k].canProcess(event)
        && init[k].process(event) == Threw(Run(init, event).thrown.value)
        && Run(init[..k], event).thrown.None?
        && Run(init, event) == Run(init[..k + 1], event);
      assert init[..k] == ps[..k] && init[..k + 1] == ps[..k + 1];
    }
  }

  /** An empty list, or no claiming processor, means no `process` call. */
  lemma NoClaimNoRun(ps: seq<EventProcessor>, event: Event)
    requires forall i :: 0 <= i < |ps| ==> !ps[i].canProcess(event)
    ensures Run(ps, event).thrown.None?
    ensures Invoked(Run(ps, event).trace) == []
  {
    NobodyClaims(ps, event);
    RunsExactlyClaiming(ps, event);
  }

  lemma {:induction false} NobodyClaims(ps: seq<EventProcessor>, event: Event)
    requires forall i :: 0 <= i < |ps| ==> !ps[i].canProcess(event)
    ensures Run(ps, event).thrown.None?
    ensures Claiming(ps, event) == []
  {
    if |ps| > 0 {
      NobodyClaims(ps[..|ps| - 1], event);
    }
  }

  /** `EventProcessorManager`: a processor list fixed at construction. */
  class EventProcessorManager {
    const processors: seq<EventProcessor>

    constructor (processors: seq<EventProcessor>)
      ensures this.processors == processors
    {
      this.processors := processors;
    }

    /** `processEvent`. */
    method ProcessEvent(event: Event) returns (d: Dispatch)
      ensures d == Run(processors, event)
    {
      var trace: seq<Step> := [];
      var i := 0;
      while i < |processors|
        invariant 0 <= i <= |processors|
        invariant Run(processors[..i], event) == Dispatch(trace, None)
      {
        assert processors[..i + 1][..i] == processors[..i];
        var p := processors[i];
        var claimed := p.canProcess(event);
        trace := trace + [Asked(i, claimed)];
        if claimed {
          var outcome := p.process(event);
          trace := trace + [Ran(i, outcome)];
          if outcome.Threw? {
            ThrownStays(processors, i + 1, event);
            return Dispatch(trace, Some(outcome.exception));
          }
        }
        i := i + 1;
      }
      assert processors[..i] == processors;
      return Dispatch(trace, None);
    }
  }

  /** `PurchaseEventProcessor.canProcess`: the kind is PURCHASE. */
  function PurchaseCanProcess(event: Event): bool {
    event.eventType == Some(PURCHASE)
  }

  /**
   * `PurchaseEventProcessor.process`: one line naming the order of a
   * `PurchaseEvent`, nothing for any other event.
   */
  function PurchaseProcess(event: Event): (o: Outcome)
    ensures o.Returned?
    ensures event.payload.PurchasePayload? ==>
      |o.output| == 1 && o.output[0] == "Processing purchase: " + Str(event.payload.orderId)
    ensures !event.payload.PurchasePayload? ==> o.output == []
  {
    if !event.payload.PurchasePayload? then Returned([])
    else Returned(["Processing purchase: " + Str(event.payload.orderId)])
  }

  const PurchaseEventProcessor: EventProcessor := EventProcessor(PurchaseCanProcess, PurchaseProcess)

  /**
   * A PURCHASE-kind view read back from storage is claimed, since only the
   * kind is tested, but processing it does nothing, since it is no
   * `PurchaseEvent`.
   */
  lemma StoredPurchaseIgnored(event: Event)
    requires event.eventType == Some(PURCHASE) && event.payload.DocumentPayload?
    ensures Run([PurchaseEventProcessor], event) == Dispatch([Asked(0, true), Ran(0, Returned([]))], None)
  {
    assert [PurchaseEventProcessor][..0] == [];
  }

  /** A typed purchase gets its one line; any other kind is not claimed. */
  lemma PurchaseDispatch(event: Event)
    ensures event.eventType != Some(PURCHASE) ==>
      Run([PurchaseEventProcessor], event) == Dispatch([Asked(0, false)], None)
    ensures event.eventType == Some(PURCHASE) && event.payload.PurchasePayload? ==>
      Run([PurchaseEventProcessor], event)
        == Dispatch([Asked(0, true), Ran(0, Returned(["Processing purchase: " + Str(event.payload.orderId)]))], None)
  {
    assert [PurchaseEventProcessor][..0] == [];
  }
}
