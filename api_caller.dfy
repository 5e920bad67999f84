// aya-backend/server/chat_service/youtube/api_caller.go: the live-chat API
// caller. One worker goroutine serves the queued page requests one at a time
// and never takes one before `nextApiCall`, which starts at creation time and
// moves to "completion + PollingIntervalMillis" after each answered call. The
// worker is modelled as a loop over what reaches it (offers and the stop
// signal, in order); clock readings and the outcomes of the calls are inputs.

module ApiCaller {

  /** The result of one `Do()` and the time the worker read once it returned: failed,
      or answered with the polling interval the API asks for. */
  datatype Outcome = CallFailed(doneAt: int) | CallAnswered(doneAt: int, pollingIntervalMillis: int)

  /** What reaches the worker: a request offered on `requestCall` at a time, with the
      outcome its call will have, or the stop signal. */
  datatype WorkerEvent = Offer(request: nat, at: int, outcome: Outcome) | StopSignal

  /** A request the worker took off the queue, when, and what its call returned. */
  datatype Served = Served(request: nat, takenAt: int, outcome: Outcome)

  /** What the worker does to channels: an outcome sent back on a request's own
      channels, a request's channels closed, or the queue or stop channel closed. */
  datatype ChannelEffect =
    | Responded(request: nat) | ErrorSent(request: nat)
    | ClosedErrCh(request: nat) | ClosedResponseCh(request: nat)
    | ClosedRequestCall | ClosedStopSig

  function Max(a: int, b: int): int
  {
    if a < b then b else a
  }

  /** `nextApiCall` after the calls in `served`: the creation time at first; an answered
      call moves it to its completion time plus its polling interval, a failed one
      leaves it where it was. */
  function NextApiCall(start: int, served: seq<Served>): int
  {
    if served == [] then start
    else
      var last := served[|served| - 1];
      if last.outcome.CallAnswered? then last.outcome.doneAt + last.outcome.pollingIntervalMillis
      else NextApiCall(start, served[..|served| - 1])
  }

  /** When the worker is back at its first select: at creation, then once the last
      call returned. */
  function FreeAt(start: int, served: seq<Served>): int
  {
    if served == [] then start else served[|served| - 1].outcome.doneAt
  }

  /** The run of a worker created at `start`: it served the offers in arrival order up
      to the first stop signal (`stopped`) or the end of the input, each one exactly
      once, with its own outcome; none was taken before it was offered, before
      `nextApiCall` or before the worker was free, and each as soon as all three allowed. */
  ghost predicate ServesInOrder(start: int, events: seq<WorkerEvent>, served: seq<Served>, stopped: bool)
  {
    |served| <= |events| &&
    (stopped <==> |served| < |events|) &&
    (stopped ==> events[|served|].StopSignal?) &&
    (forall j :: 0 <= j < |served| ==>
       events[j].Offer? && served[j].request == events[j].request && served[j].outcome == events[j].outcome) &&
    (forall j :: 0 <= j < |served| ==>
       served[j].takenAt >= events[j].at && served[j].takenAt >= NextApiCall(start, served[..j]) &&
       served[j].takenAt >= FreeAt(start, served[..j])) &&
    (forall j :: 0 <= j < |served| ==>
       served[j].takenAt == events[j].at || served[j].takenAt == NextApiCall(start, served[..j]) ||
       served[j].takenAt == FreeAt(start, served[..j]))
  }

  /** The effect of answering one request. */
  function OutcomeEffect(s: Served): ChannelEffect
  {
    if s.outcome.CallAnswered? then Responded(s.request) else ErrorSent(s.request)
  }

  /** Per served request, in order: its outcome, then its error and response channels closed. */
  function Effects(served: seq<Served>): (log: seq<ChannelEffect>)
  {
    if served == [] then []
    else
      var s := served[|served| - 1];
      Effects(served[..|served| - 1]) + [OutcomeEffect(s), ClosedErrCh(s.request), ClosedResponseCh(s.request)]
  }

  /** Each served request gets exactly one outcome on its own channels, which are then closed. */
  lemma {:induction false} EffectsPerRequest(served: seq<Served>)
    ensures |Effects(served)| == 3 * |served|
    ensures forall j :: 0 <= j < |served| ==>
              Effects(served)[3 * j] == OutcomeEffect(served[j]) &&
              Effects(served)[3 * j + 1] == ClosedErrCh(served[j].request) &&
              Effects(served)[3 * j + 2] == ClosedResponseCh(served[j].request)
  {
    if served != [] {
      EffectsPerRequest(served[..|served| - 1]);
    }
  }

  /** After an answered call the next one waits at least its polling interval past its completion. */
  lemma PollingIntervalRespected(start: int, events: seq<WorkerEvent>, served: seq<Served>, stopped: bool, j: nat)
    requires ServesInOrder(start, events, served, stopped)
    requires j + 1 < |served| && served[j].outcome.CallAnswered?
    ensures served[j + 1].takenAt >= served[j].outcome.doneAt + served[j].outcome.pollingIntervalMillis
  {
    assert served[..j + 1][..j] == served[..j];
  }

  /** One request served: taken once it is offered, `nextApiCall` has passed and the worker is free. */
  function Take(start: int, served: seq<Served>, request: nat, at: int, outcome: Outcome): Served
  {
    Served(request, Max(at, Max(NextApiCall(start, served), FreeAt(start, served))), outcome)
  }

  /** The worker goroutine started by `newApiCaller` at time `start`: each call's outcome
      goes back on the request's own channels, which are then closed; a stop at either
      wait point closes `requestCall` and ends it. */
  method Worker(start: int, events: seq<WorkerEvent>) returns (served: seq<Served>, log: seq<ChannelEffect>, stopped: bool)
    ensures ServesInOrder(start, events, served, stopped)
    ensures |served| > 0 && events[0].at >= start ==> served[0].takenAt == events[0].at
    ensures log == Effects(served) + (if stopped then [ClosedRequestCall] else [])
  {
    served, log, stopped := [], [], false;
    var i := 0;
    while i < |events|
      invariant i <= |events| && |served| == i
      invariant ServesInOrder(start, events[..i], served, false)
      invariant log == Effects(served)
    {
      match events[i] {
        case StopSignal =>
          log := log + [ClosedRequestCall];
          stopped := true;
          ServesPrefix(start, events, i, served);
          return;
        case Offer(request, at, outcome) =>
          var s := Take(start, served, request, at, outcome);
          log := log + [OutcomeEffect(s), ClosedErrCh(request), ClosedResponseCh(request)];
          ServesStep(start, events[..i], served, events[i], s);
          assert events[..i + 1] == events[..i] + [events[i]];
          served := served + [s];
      }
      i := i + 1;
    }
    assert events[..i] == events;
  }

  /** Serving one more offer extends a run. */
  lemma ServesStep(start: int, events: seq<WorkerEvent>, served: seq<Served>, e: WorkerEvent, s: Served)
    requires ServesInOrder(start, events, served, false)
    requires e.Offer? && s == Take(start, served, e.request, e.at, e.outcome)
    ensures ServesInOrder(start, events + [e], served + [s], false)
  {
    assert (served + [s])[..|served|] == served;
    forall j | 0 <= j < |served|
      ensures (served + [s])[..j] == served[..j]
    {
    }
  }

  /** A run over the events before a stop signal is a stopped run over all of them. */
  lemma ServesPrefix(start: int, events: seq<WorkerEvent>, i: nat, served: seq<Served>)
    requires i < |events| && events[i].StopSignal? && |served| == i
    requires ServesInOrder(start, events[..i], served, false)
    ensures ServesInOrder(start, events, served, true)
  {
  }

  /** How a call on the caller ends: it returns, it blocks for ever on a send nobody will
      receive, or it panics on a send to a closed channel. */
  datatype CallResult = Returned | BlocksForever | Panics

  /** A request: the page call, and the channels its answer comes back on. */
  datatype LiveChatRequest = LiveChatRequest(call: nat, responseCh: nat, errCh: nat)

  class LiveChatApiCaller {
    var serviceSet: bool
    var stopRequested: bool
    /** The requests handed to the worker, in order. */
    var offered: seq<LiveChatRequest>

    /** Request j answers on channels 2j and 2j + 1: every request has channels of its own. */
    ghost predicate Valid()
      reads this
    {
      forall j :: 0 <= j < |offered| ==> offered[j].responseCh == 2 * j && offered[j].errCh == 2 * j + 1
    }

    /** `newApiCaller`: nothing queued yet. */
    constructor (serviceGiven: bool)
      ensures Valid()
      ensures serviceSet == serviceGiven && !stopRequested && offered == []
    {
      serviceSet := serviceGiven;
      stopRequested := false;
      offered := [];
    }

    /** `SetYTService`. */
    method SetYTService()
      modifies this
      ensures serviceSet && stopRequested == old(stopRequested) && offered == old(offered)
    {
      serviceSet := true;
    }

    /** `Stop`: the stop signal is sent to the worker, which takes it and closes the
        queue. A second stop has no receiver left, since the worker has returned and the
        stop channel stays open, so it blocks for ever. */
    method Stop() returns (result: CallResult)
      modifies this
      ensures !old(stopRequested) ==> result == Returned
      ensures old(stopRequested) ==> result == BlocksForever
      ensures stopRequested && serviceSet == old(serviceSet) && offered == old(offered)
    {
      result := if stopRequested then BlocksForever else Returned;
      stopRequested := true;
    }

    /** `Request`: makes a response and an error channel, queues the call with them, and
        returns them; neither was used by any earlier request. After a stop the worker
        has closed the queue, and the send on it panics. */
    method Request(call: nat) returns (responseCh: nat, errCh: nat, result: CallResult)
      requires Valid()
      modifies this
      ensures Valid()
      ensures stopRequested ==> result == Panics && offered == old(offered)
      ensures !stopRequested ==> result == Returned && offered == old(offered) + [LiveChatRequest(call, responseCh, errCh)]
      ensures responseCh != errCh
      ensures forall j :: 0 <= j < |old(offered)| ==>
                responseCh != old(offered)[j].responseCh && responseCh != old(offered)[j].errCh &&
                errCh != old(offered)[j].responseCh && errCh != old(offered)[j].errCh
      ensures serviceSet == old(serviceSet) && stopRequested == old(stopRequested)
    {
      responseCh := 2 * |offered|;
      errCh := 2 * |offered| + 1;
      if stopRequested {
        result := Panics;
      } else {
        offered := offered + [LiveChatRequest(call, responseCh, errCh)];
        result := Returned;
      }
    }
  }
}
