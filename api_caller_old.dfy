// aya-backend/server/service/youtube/api_caller.go: the older live-chat API
// caller. Its worker has the same schedule as the newer one (module
// ApiCaller), but the response and error channels belong to the caller and are
// never closed by the worker, and a stop closes the stop channel as well as
// the queue. The worker's send of an outcome waits for the caller to read it.

module ApiCallerOld {
  import opened ApiCaller

  /** Per served request, in order: its outcome, and nothing else. */
  function OutcomesOnly(served: seq<Served>): (log: seq<ChannelEffect>)
    ensures |log| == |served|
    ensures forall j :: 0 <= j < |served| ==> log[j] == OutcomeEffect(served[j])
  {
    if served == [] then []
    else OutcomesOnly(served[..|served| - 1]) + [OutcomeEffect(served[|served| - 1])]
  }

  /** A run that ends blocked: the offers were served in order up to one whose caller
      no longer reads, which is the last served, and no earlier one was abandoned. */
  ghost predicate BlockedRun(start: int, events: seq<WorkerEvent>, served: seq<Served>, abandoned: set<nat>)
  {
    0 < |served| <= |events| && ServesInOrder(start, events[..|served|], served, false) &&
    served[|served| - 1].request in abandoned &&
    forall j :: 0 <= j < |served| - 1 ==> served[j].request !in abandoned
  }

  /** Serving an abandoned offer after a run of read ones ends the run blocked. */
  lemma BlockedStep(start: int, events: seq<WorkerEvent>, i: nat, served: seq<Served>, s: Served, abandoned: set<nat>)
    requires i < |events| && events[i].Offer? && |served| == i
    requires ServesInOrder(start, events[..i], served, false)
    requires s == Take(start, served, events[i].request, events[i].at, events[i].outcome)
    requires s.request in abandoned && forall j :: 0 <= j < |served| ==> served[j].request !in abandoned
    ensures BlockedRun(start, events, served + [s], abandoned)
    ensures (served + [s])[..|served|] == served
  {
    ServesStep(start, events[..i], served, events[i], s);
    assert events[..i + 1] == events[..i] + [events[i]];
    assert (served + [s])[..|served|] == served;
  }

  /** The worker goroutine started by the older `newApiCaller` at time `start`, as
      written: each call's outcome is sent on the caller's channels, which stay open; a
      stop at either wait point closes `apiStopCallSig` and `requestCall` and ends it.
      Those channels are unbuffered, so the send blocks until the caller reads: a request
      whose caller has stopped reading (`abandoned`) leaves the worker blocked for ever,
      serving no later request and taking no stop. */
  method Worker(start: int, events: seq<WorkerEvent>, abandoned: set<nat>)
      returns (served: seq<Served>, log: seq<ChannelEffect>, stopped: bool, blocked: bool)
    ensures !(stopped && blocked)
    ensures !blocked ==> ServesInOrder(start, events, served, stopped)
    ensures !blocked ==> log == OutcomesOnly(served) + (if stopped then [ClosedStopSig, ClosedRequestCall] else [])
    ensures !blocked ==> forall j :: 0 <= j < |served| ==> served[j].request !in abandoned
    ensures blocked ==> BlockedRun(start, events, served, abandoned) && log == OutcomesOnly(served[..|served| - 1])
  {
    served, log, stopped, blocked := [], [], false, false;
    var i := 0;
    while i < |events|
      invariant i <= |events| && |served| == i
      invariant ServesInOrder(start, events[..i], served, false)
      invariant log == OutcomesOnly(served)
      invariant forall j :: 0 <= j < |served| ==> served[j].request !in abandoned
    {
      match events[i] {
        case StopSignal =>
          log := log + [ClosedStopSig, ClosedRequestCall];
          stopped := true;
          ServesPrefix(start, events, i, served);
          return;
        case Offer(request, at, outcome) =>
          var s := Take(start, served, request, at, outcome);
          if request in abandoned {
            BlockedStep(start, events, i, served, s, abandoned);
            served := served + [s];
            blocked := true;
            return;
          }
          log := log + [OutcomeEffect(s)];
          ServesStep(start, events[..i], served, events[i], s);
          assert events[..i + 1] == events[..i] + [events[i]];
          served := served + [s];
      }
      i := i + 1;
    }
    assert events[..i] == events;
  }

  /** The worker with each attempt's response and error channels made with room for one
      value: the send of an outcome completes whether or not its caller still reads, so
      every offer up to the first stop signal is served, in order, and nothing blocks. */
  method WorkerCorrected(start: int, events: seq<WorkerEvent>)
      returns (served: seq<Served>, log: seq<ChannelEffect>, stopped: bool)
    ensures ServesInOrder(start, events, served, stopped)
    ensures !stopped ==> |served| == |events|
    ensures |served| > 0 && events[0].at >= start ==> served[0].takenAt == events[0].at
    ensures log == OutcomesOnly(served) + (if stopped then [ClosedStopSig, ClosedRequestCall] else [])
  {
    served, log, stopped := [], [], false;
    var i := 0;
    while i < |events|
      invariant i <= |events| && |served| == i
      invariant ServesInOrder(start, events[..i], served, false)
      invariant log == OutcomesOnly(served)
    {
      match events[i] {
        case StopSignal =>
          log := log + [ClosedStopSig, ClosedRequestCall];
          stopped := true;
          ServesPrefix(start, events, i, served);
          return;
        case Offer(request, at, outcome) =>
          var s := Take(start, served, request, at, outcome);
          log := log + [OutcomeEffect(s)];
          ServesStep(start, events[..i], served, events[i], s);
          assert events[..i + 1] == events[..i] + [events[i]];
          served := served + [s];
      }
      i := i + 1;
    }
    assert events[..i] == events;
  }

  /** The older worker never closes a request's own channels. */
  lemma CallerChannelsStayOpen(served: seq<Served>, stopped: bool, e: ChannelEffect)
    requires e in OutcomesOnly(served) + (if stopped then [ClosedStopSig, ClosedRequestCall] else [])
    ensures !e.ClosedErrCh? && !e.ClosedResponseCh?
  {
    var log := OutcomesOnly(served);
    if e in log {
      var j :| 0 <= j < |log| && log[j] == e;
    }
  }

  class LiveChatApiCaller {
    var serviceSet: bool
    var stopRequested: bool
    /** The requests handed to the worker, in order. */
    var offered: seq<LiveChatRequest>

    /** `newApiCaller`: nothing queued yet. */
    constructor (serviceGiven: bool)
      ensures serviceSet == serviceGiven && !stopRequested && offered == []
    {
      serviceSet := serviceGiven;
      stopRequested := false;
      offered := [];
    }

    /** `SetYTService`. */
    method SetYTService()
      modifies this
      ensures serviceSet && stopRequested == old(stopRequested) && offered == old(offered)
    {
      serviceSet := true;
    }

    /** `Stop`: the stop signal is sent to the worker, which takes it and closes both the
        stop channel and the queue; a second stop sends on the closed stop channel and
        panics. */
    method Stop() returns (result: CallResult)
      modifies this
      ensures !old(stopRequested) ==> result == Returned
      ensures old(stopRequested) ==> result == Panics
      ensures stopRequested && serviceSet == old(serviceSet) && offered == old(offered)
    {
      result := if stopRequested then Panics else Returned;
      stopRequested := true;
    }

    /** `Request`: the caller's request, channels included, is queued unchanged; after a
        stop the queue is closed and the send panics. */
    method Request(req: LiveChatRequest) returns (result: CallResult)
      modifies this
      ensures stopRequested ==> result == Panics && offered == old(offered)
      ensures !stopRequested ==> result == Returned && offered == old(offered) + [req]
      ensures serviceSet == old(serviceSet) && stopRequested == old(stopRequested)
    {
      if stopRequested {
        result := Panics;
      } else {
        offered := offered + [req];
        result := Returned;
      }
    }
  }
}
