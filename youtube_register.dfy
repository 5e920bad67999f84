// aya-backend/server/service/youtube/register.go: the older YouTube register.
// A register built without a YouTube service holds its mutex until `Start`
// hands it one, so every registration, removal and stop waits until then. The
// live-chat resolution, the item loop and the page-token chaining are the same
// as in the newer register (module YoutubeRegisterWs); what differs is that the
// listening loop waits for the stop signal alongside each outstanding request,
// a polling error is reported to the supervisor like a setup error, the
// supervisor retries after one minute, a stop during that minute stops the
// whole register, `removeChannel` only sends on the kill signal, and `Stop`
// sends on every kill signal but keeps the entries.

module YoutubeRegister {
  import opened Common
  import opened ChatMessage
  import Ws = YoutubeRegisterWs
  import ApiCaller

  /** `1 * time.Minute`, in milliseconds. */
  const RetryDelay: int := 60_000

  // ----- one attempt (setupChannel) -----

  /** How an attempt ends as far as the supervisor can tell: an error sent on `errCh`
      (from resolution or from polling), the stop signal taken while a request is
      outstanding, or not at all within the model's horizon. */
  datatype AttemptEnd = ErrorReported | StopSeen | StillListening

  /** `setupChannel`: resolve the live chat, then page through it. Each round hands the
      API caller a request, carrying the previous page's next-page token, and then waits
      for exactly one of three things: the stop signal, an error, or the page. `pages` are
      the answers to the requests in order, the stop wins the wait of round `stopAt`, and
      the model's horizon ends while request `|pages|` is outstanding. A stop therefore
      always leaves the last request's answer unread, the first request's included. */
  method SetupChannel(channelId: string, search: Ws.SearchResult, videos: Ws.VideosResult, pages: seq<Ws.PageOutcome>,
                      stopAt: nat, parseTime: string -> Option<int>, now: int, parse: Ws.ChatItem -> Message)
      returns (requests: seq<Option<string>>, out: seq<MessageUpdate>, end: AttemptEnd)
    ensures Ws.Resolve(search, videos).Unresolved? ==> requests == [] && out == [] && end == ErrorReported
    ensures Ws.Resolve(search, videos).Resolved? ==> 1 <= |requests| <= |pages| + 1 && |requests| <= stopAt + 1
    ensures forall j :: 0 <= j < |requests| ==> j <= |pages| && requests[j] == Ws.TokenBefore(pages, j)
    ensures forall j :: 0 <= j < |requests| - 1 ==> pages[j].Page?
    ensures Ws.Resolve(search, videos).Resolved? ==>
              out == Ws.PagesUpdates(channelId, pages[..|requests| - 1], parseTime, now, parse)
    ensures Ws.Resolve(search, videos).Resolved? ==> (end == StopSeen <==> |requests| == stopAt + 1)
    ensures Ws.Resolve(search, videos).Resolved? ==>
              (end == ErrorReported <==> |requests| <= stopAt && |requests| <= |pages| && pages[|requests| - 1].PageFailed?)
    ensures Ws.Resolve(search, videos).Resolved? && stopAt <= |pages| && (forall j :: 0 <= j < stopAt ==> pages[j].Page?) ==>
              end == StopSeen
  {
    var queried, resolution := Ws.GetLiveChatId(search, videos);
    if resolution.Unresolved? {
      return [], [], ErrorReported;
    }
    var pageToken, i;
    requests, out, pageToken, i := AnswerPages(channelId, pages, stopAt, parseTime, now, parse);
    requests := requests + [pageToken];
    assert |requests| - 1 == i && requests[..i] == requests[..|requests| - 1];
    if i == stopAt {
      end := StopSeen;
    } else if i == |pages| {
      end := StillListening;
    } else {
      end := ErrorReported;
    }
  }

  /** The rounds of `setupChannel` whose wait the page wins: every page before `i` arrived,
      and the round `i` request, carrying `pageToken`, is the one left outstanding. */
  method AnswerPages(channelId: string, pages: seq<Ws.PageOutcome>, stopAt: nat,
                     parseTime: string -> Option<int>, now: int, parse: Ws.ChatItem -> Message)
      returns (requests: seq<Option<string>>, out: seq<MessageUpdate>, pageToken: Option<string>, i: nat)
    ensures i <= |pages| && i <= stopAt && |requests| == i
    ensures i == stopAt || i == |pages| || pages[i].PageFailed?
    ensures forall j :: 0 <= j < i ==> requests[j] == Ws.TokenBefore(pages, j)
    ensures forall j :: 0 <= j < i ==> pages[j].Page?
    ensures pageToken == Ws.TokenBefore(pages, i)
    ensures out == Ws.PagesUpdates(channelId, pages[..i], parseTime, now, parse)
  {
    pageToken := None;
    requests, out := [], [];
    i := 0;
    while i < stopAt && i < |pages| && pages[i].Page?
      invariant i <= stopAt && PagesAnswered(pages, i, requests)
      invariant pageToken == Ws.TokenBefore(pages, i)
      invariant out == Ws.PagesUpdates(channelId, pages[..i], parseTime, now, parse)
      decreases |pages| - i
    {
      PagesAnsweredStep(pages, i, requests);
      requests := requests + [pageToken];
      Ws.PagesUpdatesStep(channelId, pages, i, parseTime, now, parse);
      out := Ws.SendItems(channelId, out, pages[i].items, parseTime, now, parse);
      pageToken := Some(pages[i].nextPageToken);
      i := i + 1;
    }
  }

  /** The first `i` requests were answered by pages: each carried the token of the page
      before it. */
  ghost predicate PagesAnswered(pages: seq<Ws.PageOutcome>, i: nat, requests: seq<Option<string>>)
  {
    i <= |pages| && |requests| == i &&
    (forall j :: 0 <= j < i ==> requests[j] == Ws.TokenBefore(pages, j)) &&
    (forall j :: 0 <= j < i ==> pages[j].Page?)
  }

  lemma PagesAnsweredStep(pages: seq<Ws.PageOutcome>, i: nat, requests: seq<Option<string>>)
    requires PagesAnswered(pages, i, requests) && i < |pages| && pages[i].Page?
    ensures PagesAnswered(pages, i + 1, requests + [Ws.TokenBefore(pages, i)])
    ensures Ws.TokenBefore(pages, i + 1) == Some(pages[i].nextPageToken)
  {
    var next := requests + [Ws.TokenBefore(pages, i)];
    assert forall j :: 0 <= j < i ==> next[j] == requests[j];
  }

  // ----- the kill-signal map -----

  /** Sending on the signals of the listed channels, in list order. */
  function SendAll(order: seq<string>, signals: map<string, nat>): seq<Ws.SignalEvent>
    requires forall c :: c in order ==> c in signals
  {
    if order == [] then []
    else
      var c := order[|order| - 1];
      SendAll(order[..|order| - 1], signals) + [Ws.Sent(signals[c])]
  }

  class YoutubeRegister {
    var channelKillSignal: map<string, nat>
    /** Signal channels made so far; the next one gets this id. */
    var signalsMade: nat
    /** `ytService != nil`. */
    var serviceSet: bool
    /** Whether the mutex is held by the constructor, waiting for `Start`. */
    var locked: bool
    var apiCallerServiceSet: bool
    var apiCallerStopped: bool
    /** Kill signals closed by the listener that took a stop on them. `Stop` keeps the
        entries of such channels, so a later send on them panics. */
    var closedSignals: set<nat>
    ghost var signalLog: seq<Ws.SignalEvent>

    /** The mutex is held exactly while no service has been given; every signal stored,
        sent on or closed was made by the register, and no two channels share one. */
    ghost predicate Valid()
      reads this
    {
      (locked <==> !serviceSet) &&
      (forall s :: s in closedSignals ==> s < signalsMade) &&
      (forall e :: e in signalLog ==> e.signal < signalsMade) &&
      (forall c :: c in channelKillSignal ==> channelKillSignal[c] < signalsMade) &&
      (forall c, d :: c in channelKillSignal && d in channelKillSignal && c != d ==>
                       channelKillSignal[c] != channelKillSignal[d])
    }

    /** `newYoutubeRegister`: no channel yet; without a service the mutex is taken. */
    constructor (serviceGiven: bool)
      ensures Valid()
      ensures channelKillSignal == map[] && serviceSet == serviceGiven && locked == !serviceGiven
      ensures apiCallerServiceSet == serviceGiven && !apiCallerStopped && signalLog == [] && closedSignals == {}
      ensures signalsMade == 0
    {
      closedSignals := {};
      channelKillSignal := map[];
      signalsMade := 0;
      serviceSet := serviceGiven;
      locked := !serviceGiven;
      apiCallerServiceSet := serviceGiven;
      apiCallerStopped := false;
      signalLog := [];
    }

    /** `Start`: stores the service, hands it to the API caller and releases the mutex.
        On a register that was given a service at construction the mutex is not held,
        and unlocking it is a fatal error (`fatal`), after which nothing runs. */
    method Start() returns (fatal: bool)
      requires Valid()
      modifies this
      ensures Valid()
      ensures fatal <==> !old(locked)
      ensures serviceSet && apiCallerServiceSet && !locked
      ensures channelKillSignal == old(channelKillSignal) && signalsMade == old(signalsMade)
      ensures apiCallerStopped == old(apiCallerStopped) && signalLog == old(signalLog)
      ensures closedSignals == old(closedSignals)
    {
      serviceSet := true;
      apiCallerServiceSet := true;
      if !locked {
        return true;
      }
      locked := false;
      return false;
    }

    /** `registerChannel`: waits (`blocked`) while the mutex is held; a channel already
        present is left alone; otherwise one new kill signal is stored for it (and its
        supervisor starts). */
    method RegisterChannel(channelId: string) returns (blocked: bool)
      requires Valid()
      modifies this
      ensures Valid()
      ensures blocked <==> locked
      ensures blocked || channelId in old(channelKillSignal) ==>
                channelKillSignal == old(channelKillSignal) && signalsMade == old(signalsMade)
      ensures !blocked && channelId !in old(channelKillSignal) ==>
                channelKillSignal == old(channelKillSignal)[channelId := old(signalsMade)] &&
                signalsMade == old(signalsMade) + 1
      ensures serviceSet == old(serviceSet) && locked == old(locked)
      ensures apiCallerServiceSet == old(apiCallerServiceSet) && apiCallerStopped == old(apiCallerStopped)
      ensures signalLog == old(signalLog) && closedSignals == old(closedSignals)
      ensures !blocked && channelId !in old(channelKillSignal) ==> channelKillSignal[channelId] !in closedSignals
    {
      if locked {
        return true;
      }
      blocked := false;
      if channelId in channelKillSignal {
        return;
      }
      var stopSignals := signalsMade;
      signalsMade := signalsMade + 1;
      channelKillSignal := channelKillSignal[channelId := stopSignals];
    }

    /** `removeChannel`: waits while the mutex is held; a channel not present is left
        alone; otherwise its kill signal is sent on (not closed) and its entry, only, is
        removed. When a listener has already closed that signal, the send panics and
        nothing changes. */
    method RemoveChannel(channelId: string) returns (blocked: bool, result: ApiCaller.CallResult)
      requires Valid()
      modifies this
      ensures Valid()
      ensures blocked <==> locked
      ensures result != ApiCaller.BlocksForever
      ensures result == ApiCaller.Panics <==>
                !blocked && channelId in old(channelKillSignal) && old(channelKillSignal)[channelId] in closedSignals
      ensures blocked || channelId !in old(channelKillSignal) || result == ApiCaller.Panics ==>
                channelKillSignal == old(channelKillSignal) && signalLog == old(signalLog)
      ensures !blocked && channelId in old(channelKillSignal) && result == ApiCaller.Returned ==>
                channelKillSignal == old(channelKillSignal) - {channelId} &&
                signalLog == old(signalLog) + [Ws.Sent(old(channelKillSignal)[channelId])]
      ensures signalsMade == old(signalsMade) && serviceSet == old(serviceSet) && locked == old(locked)
      ensures apiCallerServiceSet == old(apiCallerServiceSet) && apiCallerStopped == old(apiCallerStopped)
      ensures closedSignals == old(closedSignals)
    {
      result := ApiCaller.Returned;
      if locked {
        return true, result;
      }
      blocked := false;
      if channelId !in channelKillSignal {
        return;
      }
      if channelKillSignal[channelId] in closedSignals {
        return false, ApiCaller.Panics;
      }
      signalLog := signalLog + [Ws.Sent(channelKillSignal[channelId])];
      channelKillSignal := channelKillSignal - {channelId};
    }

    /** The listener of an attempt takes a stop sent on `signal` and closes that signal
        (register.go:120-121). Its entry, if any, stays in the map. */
    method ListenerTookStop(signal: nat)
      requires Valid() && Ws.Sent(signal) in signalLog && signal !in closedSignals
      modifies this
      ensures Valid()
      ensures closedSignals == old(closedSignals) + {signal}
      ensures channelKillSignal == old(channelKillSignal) && signalsMade == old(signalsMade)
      ensures serviceSet == old(serviceSet) && locked == old(locked) && signalLog == old(signalLog)
      ensures apiCallerServiceSet == old(apiCallerServiceSet) && apiCallerStopped == old(apiCallerStopped)
    {
      closedSignals := closedSignals + {signal};
    }

    /** `Stop`: waits while the mutex is held; otherwise sends on every kill signal, in map
        order (`order`), keeps every entry, and stops the API caller. A send on a signal a
        listener has closed panics, and so does stopping an API caller already stopped,
        whose stop channel is closed by then. */
    method Stop() returns (blocked: bool, result: ApiCaller.CallResult, ghost order: seq<string>)
      requires Valid()
      modifies this
      ensures Valid()
      ensures blocked <==> locked
      ensures result != ApiCaller.BlocksForever
      ensures blocked ==> signalLog == old(signalLog) && apiCallerStopped == old(apiCallerStopped) && result == ApiCaller.Returned
      ensures !blocked ==>
                (result == ApiCaller.Panics <==>
                   old(apiCallerStopped) || exists c :: c in old(channelKillSignal) && old(channelKillSignal)[c] in closedSignals)
      ensures !blocked && result == ApiCaller.Returned ==>
                Enumerates(order, old(channelKillSignal).Keys) &&
                signalLog == old(signalLog) + SendAll(order, old(channelKillSignal)) && apiCallerStopped
      ensures !blocked ==> PanicsOrSends(order, old(channelKillSignal), closedSignals) &&
                           signalLog == old(signalLog) + SendsBeforePanic(order, old(channelKillSignal), closedSignals)
      ensures channelKillSignal == old(channelKillSignal) && closedSignals == old(closedSignals)
      ensures signalsMade == old(signalsMade) && serviceSet == old(serviceSet) && locked == old(locked)
      ensures apiCallerServiceSet == old(apiCallerServiceSet)
      ensures apiCallerStopped == (old(apiCallerStopped) || (!blocked && !SendPanics(order, old(channelKillSignal), closedSignals)))
    {
      if locked {
        return true, ApiCaller.Returned, [];
      }
      blocked := false;
      ghost var log;
      var panicked;
      order, log, panicked := SendEach(channelKillSignal, closedSignals);
      signalLog := signalLog + log;
      if panicked {
        return false, ApiCaller.Panics, order;
      }
      result := if apiCallerStopped then ApiCaller.Panics else ApiCaller.Returned;
      apiCallerStopped := true;
    }
  }

  /** A register-wide stop (sent, say, by a supervisor that took the kill signal during its
      retry wait) reaches the listener of channel "a", which closes that signal; `Stop`
      kept the entry, so removing "a" then panics, and so does a second `Stop`. */
  method StopThenRemovePanics() returns (removed: ApiCaller.CallResult, stoppedAgain: ApiCaller.CallResult)
    ensures removed == ApiCaller.Panics && stoppedAgain == ApiCaller.Panics
  {
    var register := new YoutubeRegister(true);
    var _ := register.RegisterChannel("a");
    assert register.channelKillSignal == map["a" := 0];
    ghost var order;
    var blocked, first;
    blocked, first, order := register.Stop();
    assert order == ["a"] by {
      EnumerationLength(order, {"a"});
      assert order[0] in {"a"};
    }
    assert register.signalLog == [Ws.Sent(0)];
    register.ListenerTookStop(0);
    var _, removedResult := register.RemoveChannel("a");
    var _, stopResult, _ := register.Stop();
    removed, stoppedAgain := removedResult, stopResult;
  }

  /** The channels `Stop` visits, in order, and whether it panicked at the last one: either
      every channel once with no closed signal among them, or distinct channels of which
      only the last has a closed signal. */
  ghost predicate PanicsOrSends(order: seq<string>, signals: map<string, nat>, closed: set<nat>)
  {
    (forall c :: c in order ==> c in signals) && Distinct(order) &&
    (forall k :: 0 <= k < |order| - 1 ==> signals[order[k]] !in closed) &&
    (!SendPanics(order, signals, closed) ==> Enumerates(order, signals.Keys))
  }

  /** Whether the last channel visited has a closed signal. */
  predicate SendPanics(order: seq<string>, signals: map<string, nat>, closed: set<nat>)
    requires forall c :: c in order ==> c in signals
  {
    order != [] && signals[order[|order| - 1]] in closed
  }

  /** The sends that happen: all of them, or all before the panicking one. */
  function SendsBeforePanic(order: seq<string>, signals: map<string, nat>, closed: set<nat>): seq<Ws.SignalEvent>
    requires forall c :: c in order ==> c in signals
  {
    if SendPanics(order, signals, closed) then SendAll(order[..|order| - 1], signals) else SendAll(order, signals)
  }

  /** The loop of `Stop`: one send on each signal, in map order, until one whose signal is
      closed panics; the map is not changed. It panics exactly when some stored signal is
      closed. */
  method SendEach(signals: map<string, nat>, closed: set<nat>)
      returns (ghost order: seq<string>, ghost log: seq<Ws.SignalEvent>, panicked: bool)
    ensures PanicsOrSends(order, signals, closed)
    ensures panicked == SendPanics(order, signals, closed)
    ensures panicked <==> exists c :: c in signals && signals[c] in closed
    ensures log == SendsBeforePanic(order, signals, closed)
    ensures forall e :: e in log ==> e.signal in signals.Values
  {
    var rest := signals.Keys;
    log := [];
    order := [];
    while rest != {}
      invariant rest <= signals.Keys
      invariant Enumerates(order, signals.Keys - rest)
      invariant forall k :: 0 <= k < |order| ==> order[k] in signals && signals[order[k]] !in closed
      invariant log == SendAll(order, signals)
      invariant forall e :: e in log ==> e.signal in signals.Values
      decreases rest
    {
      var channelId :| channelId in rest;
      if signals[channelId] in closed {
        PanicStep(signals, rest, order, channelId, closed);
        order := order + [channelId];
        return order, log, true;
      }
      SendStep(signals, rest, order, channelId);
      log := log + [Ws.Sent(signals[channelId])];
      rest := rest - {channelId};
      order := order + [channelId];
    }
    assert signals.Keys - rest == signals.Keys;
    panicked := false;
  }

  /** Stopping at a channel whose signal is closed: the visited channels stay distinct and
      only the last one panics. */
  lemma PanicStep(signals: map<string, nat>, rest: set<string>, order: seq<string>, c: string, closed: set<nat>)
    requires rest <= signals.Keys && Enumerates(order, signals.Keys - rest) && c in rest
    requires forall k :: 0 <= k < |order| ==> order[k] in signals && signals[order[k]] !in closed
    requires signals[c] in closed
    ensures PanicsOrSends(order + [c], signals, closed) && SendPanics(order + [c], signals, closed)
    ensures SendsBeforePanic(order + [c], signals, closed) == SendAll(order, signals)
  {
    assert (order + [c])[..|order|] == order;
    DistinctAppend(order, c);
  }

  /** One more channel signalled by Stop. */
  lemma SendStep(signals: map<string, nat>, rest: set<string>, order: seq<string>, c: string)
    requires rest <= signals.Keys && Enumerates(order, signals.Keys - rest) && c in rest
    ensures Enumerates(order + [c], signals.Keys - (rest - {c}))
    ensures SendAll(order + [c], signals) == SendAll(order, signals) + [Ws.Sent(signals[c])]
  {
    assert (order + [c])[..|order|] == order;
    DistinctAppend(order, c);
  }

  /** Stop sends on the kill signal of every channel in the map. */
  lemma {:induction false} StopSignalsEveryChannel(order: seq<string>, signals: map<string, nat>, c: string)
    requires Enumerates(order, signals.Keys) && c in signals
    ensures Ws.Sent(signals[c]) in SendAll(order, signals)
  {
    if order != [] {
      var last := order[|order| - 1];
      if last != c {
        assert c in order[..|order| - 1] by {
          var k :| 0 <= k < |order| && order[k] == c;
          assert k < |order| - 1;
          assert order[..|order| - 1][k] == c;
        }
        assert Enumerates(order[..|order| - 1], signals.Keys - {last});
        StopSignalsEveryChannel(order[..|order| - 1], signals - {last}, c);
        SendAllRestrict(order[..|order| - 1], signals, last);
      }
    }
  }

  /** Dropping a channel that is not listed does not change the sends. */
  lemma {:induction false} SendAllRestrict(order: seq<string>, signals: map<string, nat>, d: string)
    requires forall c :: c in order ==> c in signals
    requires d !in order
    ensures SendAll(order, signals - {d}) == SendAll(order, signals)
  {
    if order != [] {
      SendAllRestrict(order[..|order| - 1], signals, d);
    }
  }

  // ----- the per-channel supervisor -----

  /** What the supervisor goroutine of one channel sees: an error on `errCh` at a time
      (from resolution or from polling), the retry timer firing, or the kill signal, sent
      by `Stop` or by `removeChannel`. A kill signal is taken by the attempt while it
      listens and by the supervisor while it waits; a signal sent while the attempt is
      still resolving is taken by whichever of the two gets to it first. */
  datatype SupervisorEvent = ErrorReceived(at: int) | TimerFired | StopSignal(byRegisterStop: bool)

  /** What it does: start an attempt at a time, record an error, return once the
      listener acknowledged a stop, stop the whole register (a stop during the wait), or
      block for ever inside that register-wide stop. */
  datatype SupervisorAction = Started(at: int) | Failed(at: int) | StoppedListening | StoppedRegister | Hung

  /** A run's actions: the first attempt starts at registration, every later attempt
      starts exactly `delay` after the error before it, every error follows an attempt,
      a stop while listening follows an attempt, a register-wide stop or a block follows
      an error, and any of the three is the last thing done. */
  ghost predicate RetryShape(actions: seq<SupervisorAction>, start: int, delay: int)
  {
    |actions| >= 1 && actions[0] == Started(start) &&
    (forall j :: 0 < j < |actions| && actions[j].Started? ==>
                   actions[j - 1].Failed? && actions[j].at == actions[j - 1].at + delay) &&
    (forall j :: 0 < j < |actions| && actions[j].Failed? ==> actions[j - 1].Started?) &&
    (forall j :: 0 < j < |actions| && actions[j].StoppedListening? ==> actions[j - 1].Started?) &&
    (forall j :: 0 < j < |actions| && (actions[j].StoppedRegister? || actions[j].Hung?) ==> actions[j - 1].Failed?) &&
    (forall j :: 0 <= j < |actions| - 1 ==>
                   !actions[j].StoppedListening? && !actions[j].StoppedRegister? && !actions[j].Hung?)
  }

  /** The supervisor's state fits its actions so far; the older register has no phase
      of its own for listening, so `Attempting` covers resolution and listening. */
  ghost predicate PhaseFits(phase: Ws.Phase, actions: seq<SupervisorAction>, delay: int)
  {
    |actions| >= 1 &&
    !phase.Listening? && !phase.StopPending? &&
    (phase.Finished? <==> actions[|actions| - 1].StoppedListening? || actions[|actions| - 1].StoppedRegister?) &&
    (phase.Stuck? <==> actions[|actions| - 1].Hung?) &&
    (phase.Waiting? ==> actions[|actions| - 1].Failed? && phase.until == actions[|actions| - 1].at + delay) &&
    (phase.Attempting? ==> actions[|actions| - 1].Started?)
  }

  /** A run keeps its shape when the next action may follow its last one. */
  lemma ExtendRetryShape(actions: seq<SupervisorAction>, a: SupervisorAction, start: int, delay: int)
    requires RetryShape(actions, start, delay)
    requires !actions[|actions| - 1].StoppedListening? && !actions[|actions| - 1].StoppedRegister?
    requires !actions[|actions| - 1].Hung?
    requires a.Started? ==> actions[|actions| - 1].Failed? && a.at == actions[|actions| - 1].at + delay
    requires a.Failed? || a.StoppedListening? ==> actions[|actions| - 1].Started?
    requires a.StoppedRegister? || a.Hung? ==> actions[|actions| - 1].Failed?
    ensures RetryShape(actions + [a], start, delay)
  {
    var r := actions + [a];
    var n := |actions|;
    assert r[n] == a && r[n - 1] == actions[n - 1];
    assert forall j :: 0 <= j < n ==> r[j] == actions[j];
    assert forall j :: 0 <= j < n - 1 ==> !r[j].StoppedListening? && !r[j].StoppedRegister? && !r[j].Hung?;
  }

  /** One event handled by the supervisor's select statements. A stop during the wait
      calls the register's `Stop`. After `removeChannel` that stops every other channel
      and the API caller. After `Stop`, which keeps the entries, the nested `Stop` sends
      on this channel's own kill signal, which nobody takes any more, while it holds the
      mutex: the supervisor and every later call on the register block for ever. */
  method SupervisorStep(phase: Ws.Phase, actions: seq<SupervisorAction>, event: SupervisorEvent, start: int)
      returns (phase': Ws.Phase, actions': seq<SupervisorAction>)
    requires RetryShape(actions, start, RetryDelay) && PhaseFits(phase, actions, RetryDelay)
    ensures RetryShape(actions', start, RetryDelay) && PhaseFits(phase', actions', RetryDelay)
    ensures |actions'| >= |actions| && actions'[..|actions|] == actions
    ensures phase.Attempting? && event.StopSignal? ==> phase'.Finished? && actions' == actions + [StoppedListening]
    ensures phase.Waiting? && event == StopSignal(false) ==> phase'.Finished? && actions' == actions + [StoppedRegister]
    ensures phase.Waiting? && event == StopSignal(true) ==> phase'.Stuck?
    ensures phase.Finished? || phase.Stuck? ==> phase' == phase && actions' == actions
    ensures !event.ErrorReceived? && !phase.Waiting? ==> !phase'.Waiting? && (phase'.Stuck? ==> phase.Stuck?)
    ensures !event.ErrorReceived? && !phase.Waiting? ==>
              forall j :: |actions| <= j < |actions'| ==> !actions'[j].Started? && !actions'[j].StoppedRegister?
  {
    phase', actions' := phase, actions;
    match phase {
      case Attempting =>
        match event {
          case ErrorReceived(at) =>
            ExtendRetryShape(actions, Failed(at), start, RetryDelay);
            actions' := actions + [Failed(at)];
            phase' := Ws.Waiting(at + RetryDelay);
          case StopSignal(_) =>
            ExtendRetryShape(actions, StoppedListening, start, RetryDelay);
            actions' := actions + [StoppedListening];
            phase' := Ws.Finished;
          case TimerFired =>
        }
      case Waiting(until) =>
        match event {
          case TimerFired =>
            ExtendRetryShape(actions, Started(until), start, RetryDelay);
            actions' := actions + [Started(until)];
            phase' := Ws.Attempting;
          case StopSignal(byRegisterStop) =>
            if byRegisterStop {
              ExtendRetryShape(actions, Hung, start, RetryDelay);
              actions' := actions + [Hung];
              phase' := Ws.Stuck;
            } else {
              ExtendRetryShape(actions, StoppedRegister, start, RetryDelay);
              actions' := actions + [StoppedRegister];
              phase' := Ws.Finished;
            }
          case ErrorReceived(_) =>
        }
      case Finished =>
      case Stuck =>
    }
  }

  /** The supervisor loop of `registerChannel` for a channel registered at `start`,
      driven by `events` in order: an error, from setup or from polling, makes it wait
      `RetryDelay` and start over; a stop while listening ends it, and a stop while
      waiting stops the whole register or, when it came from `Stop`, blocks it. Without
      errors there is one attempt, the register is never stopped from here and nothing
      blocks. */
  method Supervise(start: int, events: seq<SupervisorEvent>) returns (phase: Ws.Phase, actions: seq<SupervisorAction>)
    ensures RetryShape(actions, start, RetryDelay) && PhaseFits(phase, actions, RetryDelay)
    ensures (forall i :: 0 <= i < |events| ==> !events[i].ErrorReceived?) ==>
              !phase.Stuck? && forall j :: 0 < j < |actions| ==> !actions[j].Started? && !actions[j].StoppedRegister?
  {
    phase := Ws.Attempting;
    actions := [Started(start)];
    for i := 0 to |events|
      invariant RetryShape(actions, start, RetryDelay) && PhaseFits(phase, actions, RetryDelay)
      invariant (forall k :: 0 <= k < i ==> !events[k].ErrorReceived?) ==>
                  !phase.Waiting? && !phase.Stuck? &&
                  forall j :: 0 < j < |actions| ==> !actions[j].Started? && !actions[j].StoppedRegister?
    {
      phase, actions := SupervisorStep(phase, actions, events[i], start);
    }
  }
}
