// aya-backend/server-ws/chat_service/youtube/register.go: the YouTube register
// of the newest backend. It keeps one kill signal per polled channel, resolves
// a channel's live chat, pages through the chat with chained page tokens, and
// supervises each channel with a fixed 30-second retry after a setup error.
// Go channels are ids; the YouTube API's answers, clock readings and the
// message parser are parameters.

module YoutubeRegisterWs {
  import opened Common
  import opened ChatMessage

  /** `TIME_UNTIL_RETRY`, in milliseconds. */
  const TimeUntilRetry: int := 30_000

  // ----- live-chat resolution (getLiveChatIdFromChannelId) -----

  /** The answer to the live-video search for a channel: failed, or the video ids found. */
  datatype SearchResult = SearchFailed | SearchItems(videoIds: seq<string>)

  /** The answer to the video lookup: failed, or each item's `ActiveLiveChatId`. */
  datatype VideosResult = VideosFailed | VideoItems(activeLiveChatIds: seq<string>)

  datatype ResolveError = ApiError | NoLiveVideo | NoActiveChat
  datatype Resolution = Resolved(liveChatId: string) | Unresolved(reason: ResolveError)

  /** The last element of a list, or "" for an empty one: what a loop that keeps
      overwriting one variable leaves in it. */
  function LastOr(xs: seq<string>): (r: string)
    ensures xs == [] ==> r == ""
    ensures xs != [] ==> r == xs[|xs| - 1]
  {
    if xs == [] then "" else xs[|xs| - 1]
  }

  /** The outcome of resolving a channel's live chat from the two API answers: a failed
      call, an empty search or an empty live-chat id is an error, and across several
      video items the last one's id wins. */
  function Resolve(search: SearchResult, videos: VideosResult): (r: Resolution)
    ensures search.SearchFailed? ==> r == Unresolved(ApiError)
    ensures search.SearchItems? && search.videoIds == [] ==> r == Unresolved(NoLiveVideo)
    ensures search.SearchItems? && search.videoIds != [] && videos.VideosFailed? ==> r == Unresolved(ApiError)
    ensures search.SearchItems? && search.videoIds != [] && videos.VideoItems? ==>
              r == if LastOr(videos.activeLiveChatIds) == "" then Unresolved(NoActiveChat)
                   else Resolved(LastOr(videos.activeLiveChatIds))
    ensures r.Resolved? ==> r.liveChatId != ""
  {
    if search.SearchFailed? then Unresolved(ApiError)
    else if search.videoIds == [] then Unresolved(NoLiveVideo)
    else if videos.VideosFailed? then Unresolved(ApiError)
    else if LastOr(videos.activeLiveChatIds) == "" then Unresolved(NoActiveChat)
    else Resolved(LastOr(videos.activeLiveChatIds))
  }

  /** `getLiveChatIdFromChannelId`: the first video of the search is looked up (its id is
      returned in `queried`), and the loop over the video items leaves the last id. */
  method GetLiveChatId(search: SearchResult, videos: VideosResult) returns (queried: Option<string>, r: Resolution)
    ensures search.SearchItems? && search.videoIds != [] <==> queried.Some?
    ensures queried.Some? ==> queried.value == search.videoIds[0]
    ensures r == Resolve(search, videos)
  {
    if search.SearchFailed? {
      return None, Unresolved(ApiError);
    }
    if |search.videoIds| == 0 {
      return None, Unresolved(NoLiveVideo);
    }
    queried := Some(search.videoIds[0]);
    if videos.VideosFailed? {
      return queried, Unresolved(ApiError);
    }
    var liveChatId := "";
    var items := videos.activeLiveChatIds;
    for i := 0 to |items|
      invariant liveChatId == LastOr(items[..i])
    {
      liveChatId := items[i];
    }
    assert items[..|items|] == items;
    if liveChatId == "" {
      return queried, Unresolved(NoActiveChat);
    }
    r := Resolved(liveChatId);
  }

  // ----- listening (listenForChatMessages) -----

  /** The snippet fields the emitter reads; the rest of a chat item reaches the
      message parser unseen. */
  datatype Snippet = Snippet(publishedAt: string, displayMessage: string)
  datatype ChatItem = NilItem | ChatItem(snippet: Option<Snippet>, authorName: string)

  /** The outcome of one page request. */
  datatype PageOutcome = PageFailed | Page(items: seq<ChatItem>, nextPageToken: string)

  /** The update one chat item yields: none for a nil item or one without a snippet;
      otherwise a New update routed to the channel, stamped with the parsed publish
      time, or with `now` when that does not parse. */
  function ItemUpdate(channelId: string, item: ChatItem, parseTime: string -> Option<int>, now: int,
                      parse: ChatItem -> Message): (u: Option<MessageUpdate>)
    ensures u.Some? <==> item.ChatItem? && item.snippet.Some?
    ensures u.Some? ==> u.value.update == New && u.value.extraFields == YoutubeInfo(channelId)
    ensures u.Some? ==> u.value.message == parse(item)
    ensures u.Some? ==>
              u.value.updateTime == (var t := parseTime(item.snippet.value.publishedAt); if t.Some? then t.value else now)
  {
    if item.NilItem? || item.snippet.None? then None
    else
      var t := parseTime(item.snippet.value.publishedAt);
      Some(MessageUpdate(if t.Some? then t.value else now, New, parse(item), YoutubeInfo(channelId)))
  }

  /** The updates of a page's items, in item order. */
  function Updates(channelId: string, items: seq<ChatItem>, parseTime: string -> Option<int>, now: int,
                   parse: ChatItem -> Message): (us: seq<MessageUpdate>)
    ensures |us| <= |items|
  {
    if items == [] then []
    else
      var init := Updates(channelId, items[..|items| - 1], parseTime, now, parse);
      var u := ItemUpdate(channelId, items[|items| - 1], parseTime, now, parse);
      if u.Some? then init + [u.value] else init
  }

  /** The items that carry a snippet, in order. */
  function WithSnippet(items: seq<ChatItem>): seq<ChatItem>
  {
    if items == [] then []
    else
      var x := items[|items| - 1];
      WithSnippet(items[..|items| - 1]) + (if x.ChatItem? && x.snippet.Some? then [x] else [])
  }

  /** One update per item with a snippet, in the items' order, each parsed from that item. */
  lemma {:induction false} UpdatesPerItem(channelId: string, items: seq<ChatItem>, parseTime: string -> Option<int>,
                                          now: int, parse: ChatItem -> Message)
    ensures var us := Updates(channelId, items, parseTime, now, parse);
            var kept := WithSnippet(items);
            |us| == |kept| &&
            forall j :: 0 <= j < |us| ==> Some(us[j]) == ItemUpdate(channelId, kept[j], parseTime, now, parse)
  {
    if items != [] {
      UpdatesPerItem(channelId, items[..|items| - 1], parseTime, now, parse);
    }
  }

  /** Appending an item appends its update, if any. */
  lemma UpdatesSnoc(channelId: string, items: seq<ChatItem>, x: ChatItem, parseTime: string -> Option<int>,
                    now: int, parse: ChatItem -> Message)
    ensures Updates(channelId, items + [x], parseTime, now, parse) ==
            Updates(channelId, items, parseTime, now, parse) +
            (var u := ItemUpdate(channelId, x, parseTime, now, parse); if u.Some? then [u.value] else [])
  {
    assert (items + [x])[..|items|] == items;
  }

  /** The updates of a run of pages; a failed page contributes none. */
  function PagesUpdates(channelId: string, pages: seq<PageOutcome>, parseTime: string -> Option<int>, now: int,
                        parse: ChatItem -> Message): seq<MessageUpdate>
  {
    if pages == [] then []
    else
      var last := pages[|pages| - 1];
      PagesUpdates(channelId, pages[..|pages| - 1], parseTime, now, parse) +
      (if last.Page? then Updates(channelId, last.items, parseTime, now, parse) else [])
  }

  /** The token a request carries: none for the first, the previous page's next-page token after. */
  function TokenBefore(pages: seq<PageOutcome>, j: nat): Option<string>
    requires j <= |pages|
  {
    if j == 0 || !pages[j - 1].Page? then None else Some(pages[j - 1].nextPageToken)
  }

  /** The item loop of one page: each item's update is sent in order. */
  method SendItems(channelId: string, sent: seq<MessageUpdate>, items: seq<ChatItem>, parseTime: string -> Option<int>,
                   now: int, parse: ChatItem -> Message) returns (out: seq<MessageUpdate>)
    ensures out == sent + Updates(channelId, items, parseTime, now, parse)
  {
    out := sent;
    for k := 0 to |items|
      invariant out == sent + Updates(channelId, items[..k], parseTime, now, parse)
    {
      var item := items[k];
      assert items[..k + 1] == items[..k] + [item];
      UpdatesSnoc(channelId, items[..k], item, parseTime, now, parse);
      ghost var u := ItemUpdate(channelId, item, parseTime, now, parse);
      if item.ChatItem? && item.snippet.Some? {
        var t := parseTime(item.snippet.value.publishedAt);
        var publishedTime := if t.Some? then t.value else now;
        out := out + [MessageUpdate(publishedTime, New, parse(item), YoutubeInfo(channelId))];
        assert out == sent + Updates(channelId, items[..k], parseTime, now, parse) + [u.value];
      } else {
        assert u.None?;
      }
    }
    assert items[..|items|] == items;
  }

  /** One more page adds that page's updates, if it was answered. */
  lemma PagesUpdatesStep(channelId: string, pages: seq<PageOutcome>, i: nat, parseTime: string -> Option<int>,
                         now: int, parse: ChatItem -> Message)
    requires i < |pages|
    ensures PagesUpdates(channelId, pages[..i + 1], parseTime, now, parse) ==
            PagesUpdates(channelId, pages[..i], parseTime, now, parse) +
            (if pages[i].Page? then Updates(channelId, pages[i].items, parseTime, now, parse) else [])
  {
    assert pages[..i + 1][..i] == pages[..i];
  }

  /** One more request, made after every earlier page succeeded, carries the token of the
      page before it. */
  lemma RequestsStep(pages: seq<PageOutcome>, requests: seq<Option<string>>, i: nat)
    requires i < |pages| && |requests| == i
    requires forall j :: 0 <= j < i ==> requests[j] == TokenBefore(pages, j)
    requires forall j :: 0 <= j < i - 1 ==> pages[j].Page?
    requires i > 0 ==> pages[i - 1].Page?
    ensures forall j :: 0 <= j < i + 1 ==> (requests + [TokenBefore(pages, i)])[j] == TokenBefore(pages, j)
    ensures forall j :: 0 <= j < i ==> pages[j].Page?
  {
  }

  /** `listenForChatMessages`, up to the model's horizon `pages` (the answers to the
      requests, in order): request i carries the token of page i - 1, each page's
      updates are sent in order, and the loop ends, closing its output, on the first
      failed request or once the stop signal has been seen (before request `stopAt`). */
  method ListenForChatMessages(channelId: string, pages: seq<PageOutcome>, stopAt: nat,
                               parseTime: string -> Option<int>, now: int, parse: ChatItem -> Message)
      returns (requests: seq<Option<string>>, out: seq<MessageUpdate>, closed: bool)
    ensures |requests| <= |pages| && |requests| <= stopAt
    ensures forall j :: 0 <= j < |requests| ==> requests[j] == TokenBefore(pages, j)
    ensures forall j :: 0 <= j < |requests| - 1 ==> pages[j].Page?
    ensures out == PagesUpdates(channelId, pages[..|requests|], parseTime, now, parse)
    ensures closed <==> |requests| == stopAt || (|requests| > 0 && pages[|requests| - 1].PageFailed?)
    ensures !closed ==> |requests| == |pages|
  {
    var pageToken: Option<string> := None;
    var failed := false;
    requests, out := [], [];
    var i := 0;
    while !failed && i < stopAt && i < |pages|
      invariant 0 <= i <= |pages| && i <= stopAt && |requests| == i
      invariant forall j :: 0 <= j < i ==> requests[j] == TokenBefore(pages, j)
      invariant forall j :: 0 <= j < i - 1 ==> pages[j].Page?
      invariant failed <==> i > 0 && pages[i - 1].PageFailed?
      invariant !failed ==> pageToken == TokenBefore(pages, i)
      invariant out == PagesUpdates(channelId, pages[..i], parseTime, now, parse)
    {
      assert pageToken == TokenBefore(pages, i);
      RequestsStep(pages, requests, i);
      requests := requests + [pageToken];
      PagesUpdatesStep(channelId, pages, i, parseTime, now, parse);
      if pages[i].PageFailed? {
        failed := true;
      } else {
        out := SendItems(channelId, out, pages[i].items, parseTime, now, parse);
        pageToken := Some(pages[i].nextPageToken);
        assert pageToken == TokenBefore(pages, i + 1);
      }
      i := i + 1;
    }
    closed := failed || i == stopAt;
  }

  // ----- the channel map -----

  /** What is done to a kill-signal channel: a value sent on it, or closing it. */
  datatype SignalEvent = Sent(signal: nat) | Closed(signal: nat)

  /** Sending on, then closing, the signals of the listed channels, in list order. */
  function KillAll(order: seq<string>, signals: map<string, nat>): seq<SignalEvent>
    requires forall c :: c in order ==> c in signals
  {
    if order == [] then []
    else
      var c := order[|order| - 1];
      KillAll(order[..|order| - 1], signals) + [Sent(signals[c]), Closed(signals[c])]
  }

  class YoutubeRegister {
    var channelKillSignal: map<string, nat>
    /** Signal channels made so far; the next one gets this id. */
    var signalsMade: nat
    /** `ytService != nil`. */
    var serviceSet: bool
    var apiCallerStopped: bool
    ghost var signalLog: seq<SignalEvent>

    /** Every stored signal was made by the register, and no two channels share one. */
    ghost predicate Valid()
      reads this
    {
      (forall c :: c in channelKillSignal ==> channelKillSignal[c] < signalsMade) &&
      (forall c, d :: c in channelKillSignal && d in channelKillSignal && c != d ==>
                       channelKillSignal[c] != channelKillSignal[d])
    }

    /** `newYoutubeRegister`: no channel yet; `serviceSet` says whether a service was given. */
    constructor (serviceGiven: bool)
      ensures Valid()
      ensures channelKillSignal == map[] && serviceSet == serviceGiven
      ensures !apiCallerStopped && signalLog == []
    {
      channelKillSignal := map[];
      signalsMade := 0;
      serviceSet := serviceGiven;
      apiCallerStopped := false;
      signalLog := [];
    }

    /** `SetYTService`. */
    method SetYTService()
      modifies this
      ensures serviceSet
      ensures channelKillSignal == old(channelKillSignal) && signalsMade == old(signalsMade)
      ensures apiCallerStopped == old(apiCallerStopped) && signalLog == old(signalLog)
    {
      serviceSet := true;
    }

    /** `registerChannel`: nothing without a service or for a channel already polled;
        otherwise one new kill signal is stored for it (and its supervisor starts). */
    method RegisterChannel(channelId: string)
      requires Valid()
      modifies this
      ensures Valid()
      ensures !old(serviceSet) || channelId in old(channelKillSignal) ==>
                channelKillSignal == old(channelKillSignal) && signalsMade == old(signalsMade)
      ensures old(serviceSet) && channelId !in old(channelKillSignal) ==>
                channelKillSignal == old(channelKillSignal)[channelId := old(signalsMade)] &&
                signalsMade == old(signalsMade) + 1
      ensures serviceSet == old(serviceSet) && apiCallerStopped == old(apiCallerStopped)
      ensures signalLog == old(signalLog)
    {
      if !serviceSet {
        return;
      }
      if channelId in channelKillSignal {
        return;
      }
      var stopSignals := signalsMade;
      signalsMade := signalsMade + 1;
      channelKillSignal := channelKillSignal[channelId := stopSignals];
    }

    /** `deregisterChannel`: nothing for a channel not polled; otherwise its kill signal
        is sent and closed and its entry, only, is removed. */
    method DeregisterChannel(channelId: string)
      requires Valid()
      modifies this
      ensures Valid()
      ensures channelId !in old(channelKillSignal) ==> signalLog == old(signalLog)
      ensures channelId in old(channelKillSignal) ==>
                var signal := old(channelKillSignal)[channelId];
                signalLog == old(signalLog) + [Sent(signal), Closed(signal)]
      ensures channelKillSignal == old(channelKillSignal) - {channelId}
      ensures signalsMade == old(signalsMade) && serviceSet == old(serviceSet)
      ensures apiCallerStopped == old(apiCallerStopped)
    {
      if channelId !in channelKillSignal {
        return;
      }
      var signal := channelKillSignal[channelId];
      signalLog := signalLog + [Sent(signal), Closed(signal)];
      channelKillSignal := channelKillSignal - {channelId};
    }

    /** `Stop`: every polled channel's signal is sent and closed and its entry removed,
        in map order (returned as `order`); then the API caller is stopped. */
    method Stop() returns (ghost order: seq<string>)
      requires Valid()
      modifies this
      ensures Valid()
      ensures Enumerates(order, old(channelKillSignal).Keys)
      ensures signalLog == old(signalLog) + KillAll(order, old(channelKillSignal))
      ensures channelKillSignal == map[] && apiCallerStopped
      ensures signalsMade == old(signalsMade) && serviceSet == old(serviceSet)
    {
      ghost var log;
      order, log := KillEach(channelKillSignal);
      channelKillSignal, signalLog := map[], signalLog + log;
      apiCallerStopped := true;
    }
  }

  /** The loop of `Stop` over the channel map: each signal is sent and closed, in map
      order, and the map ends empty. */
  method KillEach(signals: map<string, nat>) returns (order: seq<string>, ghost log: seq<SignalEvent>)
    ensures Enumerates(order, signals.Keys)
    ensures log == KillAll(order, signals)
  {
    var rest := signals;
    log := [];
    order := [];
    while rest != map[]
      invariant Submap(rest, signals)
      invariant Enumerates(order, signals.Keys - rest.Keys)
      invariant log == KillAll(order, signals)
      decreases |rest|
    {
      var channelId :| channelId in rest;
      var killSig := rest[channelId];
      StopStep(signals, rest, order, channelId);
      log := log + [Sent(killSig), Closed(killSig)];
      rest := rest - {channelId};
      order := order + [channelId];
    }
    assert signals.Keys - rest.Keys == signals.Keys;
  }

  /** `a` holds some of the entries of `b`, unchanged. */
  ghost predicate Submap(a: map<string, nat>, b: map<string, nat>)
  {
    a.Keys <= b.Keys && forall c :: c in a ==> a[c] == b[c]
  }

  /** One more channel killed by Stop. */
  lemma StopStep(signals: map<string, nat>, rest: map<string, nat>, order: seq<string>, c: string)
    requires Submap(rest, signals) && Enumerates(order, signals.Keys - rest.Keys) && c in rest
    ensures Submap(rest - {c}, signals)
    ensures Enumerates(order + [c], signals.Keys - (rest - {c}).Keys)
    ensures KillAll(order + [c], signals) == KillAll(order, signals) + [Sent(rest[c]), Closed(rest[c])]
  {
    assert (order + [c])[..|order|] == order;
    DistinctAppend(order, c);
  }

  // ----- the per-channel supervisor -----

  /** What the supervisor goroutine of one channel and the attempt it runs see: a setup
      error arriving on `errCh` at a time, the setup reaching `listenForChatMessages` (whose
      goroutine is from then on the only receiver of `stopDuringListening`), the retry timer
      firing, the channel's kill signal, or the listener giving up after a polling error
      (which it reports to nobody). */
  datatype SupervisorEvent = SetupFailed(at: int) | ListenerStarted | TimerFired | StopSignal | ListenerFailed

  /** What the supervisor does: start an attempt (setup: resolution, then listening) at a
      time, record a setup error, return after the listener took its stop, or block for
      ever on a send nobody receives. */
  datatype SupervisorAction = Started(at: int) | Failed(at: int) | StoppedListening | Hung

  /** Where a supervisor stands: an attempt resolving its live chat, an attempt listening,
      an attempt resolving while the supervisor waits to hand it a stop, the wait before a
      retry, returned, or blocked for ever. */
  datatype Phase = Attempting | Listening | StopPending | Waiting(until: int) | Finished | Stuck

  /** A run's actions: the first attempt starts at registration, every later attempt
      starts exactly `delay` after the setup error before it, every error follows an
      attempt, and returning or blocking is the last thing done. */
  ghost predicate RetryShape(actions: seq<SupervisorAction>, start: int, delay: int)
  {
    |actions| >= 1 && actions[0] == Started(start) &&
    (forall j :: 0 < j < |actions| && actions[j].Started? ==>
                   actions[j - 1].Failed? && actions[j].at == actions[j - 1].at + delay) &&
    (forall j :: 0 < j < |actions| && actions[j].Failed? ==> actions[j - 1].Started?) &&
    (forall j :: 0 <= j < |actions| - 1 ==> !actions[j].StoppedListening? && !actions[j].Hung?)
  }

  /** The supervisor's state fits its actions so far. */
  ghost predicate PhaseFits(phase: Phase, actions: seq<SupervisorAction>, delay: int)
  {
    |actions| >= 1 &&
    (phase.Finished? <==> actions[|actions| - 1].StoppedListening?) &&
    (phase.Stuck? <==> actions[|actions| - 1].Hung?) &&
    (phase.Waiting? ==> actions[|actions| - 1].Failed? && phase.until == actions[|actions| - 1].at + delay) &&
    (phase.Attempting? || phase.Listening? || phase.StopPending? ==> actions[|actions| - 1].Started?)
  }

  /** A run keeps its shape when the next action may follow its last one. */
  lemma ExtendRetryShape(actions: seq<SupervisorAction>, a: SupervisorAction, start: int, delay: int)
    requires RetryShape(actions, start, delay)
    requires !actions[|actions| - 1].StoppedListening? && !actions[|actions| - 1].Hung?
    requires a.Started? ==> actions[|actions| - 1].Failed? && a.at == actions[|actions| - 1].at + delay
    requires a.Failed? ==> actions[|actions| - 1].Started?
    ensures RetryShape(actions + [a], start, delay)
  {
    var r := actions + [a];
    var n := |actions|;
    assert r[n] == a && r[n - 1] == actions[n - 1];
    assert forall j :: 0 <= j < n ==> r[j] == actions[j];
    assert forall j :: 0 <= j < n - 1 ==> !r[j].StoppedListening? && !r[j].Hung?;
  }

  /** One event handled by the supervisor's select statements. The kill signal makes the
      supervisor send on the unbuffered `stopDuringListening`: a listening attempt takes
      it; an attempt still resolving takes it once it starts listening, and if its setup
      fails instead, the supervisor and the attempt, blocked on `errCh`, wait on each other
      for ever; during the wait before a retry no attempt runs, so the supervisor blocks
      for ever. */
  method SupervisorStep(phase: Phase, actions: seq<SupervisorAction>, event: SupervisorEvent, start: int)
      returns (phase': Phase, actions': seq<SupervisorAction>)
    requires RetryShape(actions, start, TimeUntilRetry) && PhaseFits(phase, actions, TimeUntilRetry)
    ensures RetryShape(actions', start, TimeUntilRetry) && PhaseFits(phase', actions', TimeUntilRetry)
    ensures |actions'| >= |actions| && actions'[..|actions|] == actions
    ensures phase.Listening? && event.StopSignal? ==> phase'.Finished?
    ensures phase.Waiting? && event.StopSignal? ==> phase'.Stuck?
    ensures phase.StopPending? && event.SetupFailed? ==> phase'.Stuck?
    ensures phase.StopPending? && event.ListenerStarted? ==> phase'.Finished?
    ensures phase'.Listening? || phase'.Finished? ==> phase.Listening? || phase.Finished? || event.ListenerStarted?
    ensures phase.Finished? || phase.Stuck? ==> phase' == phase && actions' == actions
    ensures !event.SetupFailed? && !phase.Waiting? ==> !phase'.Waiting?
    ensures !event.SetupFailed? && !phase.Waiting? && !phase.Stuck? ==> !phase'.Stuck?
    ensures !event.SetupFailed? && !phase.Waiting? ==> forall j :: |actions| <= j < |actions'| ==> !actions'[j].Started?
  {
    phase', actions' := phase, actions;
    match phase {
      case Attempting =>
        match event {
          case SetupFailed(at) =>
            ExtendRetryShape(actions, Failed(at), start, TimeUntilRetry);
            actions' := actions + [Failed(at)];
            phase' := Waiting(at + TimeUntilRetry);
          case ListenerStarted =>
            phase' := Listening;
          case StopSignal =>
            phase' := StopPending;
          case _ =>
        }
      case Listening =>
        match event {
          case StopSignal =>
            ExtendRetryShape(actions, StoppedListening, start, TimeUntilRetry);
            actions' := actions + [StoppedListening];
            phase' := Finished;
          case _ =>
        }
      case StopPending =>
        match event {
          case ListenerStarted =>
            ExtendRetryShape(actions, StoppedListening, start, TimeUntilRetry);
            actions' := actions + [StoppedListening];
            phase' := Finished;
          case SetupFailed(_) =>
            ExtendRetryShape(actions, Hung, start, TimeUntilRetry);
            actions' := actions + [Hung];
            phase' := Stuck;
          case _ =>
        }
      case Waiting(until) =>
        match event {
          case TimerFired =>
            ExtendRetryShape(actions, Started(until), start, TimeUntilRetry);
            actions' := actions + [Started(until)];
            phase' := Attempting;
          case StopSignal =>
            ExtendRetryShape(actions, Hung, start, TimeUntilRetry);
            actions' := actions + [Hung];
            phase' := Stuck;
          case _ =>
        }
      case Finished =>
      case Stuck =>
    }
  }

  /** The supervisor loop of `registerChannel` for a channel registered at `start`,
      driven by `events` in order: a setup error makes it wait `TimeUntilRetry` and then
      start over from resolution; a listener that fails while polling is not restarted.
      It returns only after a listener was started, and it can block for ever only after
      a setup error. */
  method Supervise(start: int, events: seq<SupervisorEvent>) returns (phase: Phase, actions: seq<SupervisorAction>)
    ensures RetryShape(actions, start, TimeUntilRetry) && PhaseFits(phase, actions, TimeUntilRetry)
    ensures phase.Finished? ==> exists i :: 0 <= i < |events| && events[i].ListenerStarted?
    ensures (forall i :: 0 <= i < |events| ==> !events[i].SetupFailed?) ==>
              !phase.Stuck? && forall j :: 0 < j < |actions| ==> !actions[j].Started?
  {
    phase := Attempting;
    actions := [Started(start)];
    for i := 0 to |events|
      invariant RetryShape(actions, start, TimeUntilRetry) && PhaseFits(phase, actions, TimeUntilRetry)
      invariant phase.Listening? || phase.Finished? ==> exists k :: 0 <= k < i && events[k].ListenerStarted?
      invariant (forall k :: 0 <= k < i ==> !events[k].SetupFailed?) ==>
                  !phase.Waiting? && !phase.Stuck? && forall j :: 0 < j < |actions| ==> !actions[j].Started?
    {
      phase, actions := SupervisorStep(phase, actions, events[i], start);
    }
  }
}
