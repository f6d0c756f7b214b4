/**
 What each terminal request achieves, said of the states before and after it: who is let in, who may
 type, who can come back, and what stays as it was.
 */
module TerminalRequests {
  import opened Options
  import opened TerminalAuthority

  // ---------------------------------------------------------------------------------------------
  // Attach
  // ---------------------------------------------------------------------------------------------

  function TokenOf(opts: AttachOptions, newToken: Token): Token {
    if opts.resumeToken == NoId then newToken else opts.resumeToken
  }

  predicate SizeOk(opts: AttachOptions) {
    0 <= opts.cols && opts.cols <= 65535 && 0 <= opts.rows && opts.rows <= 65535
  }

  /** The stored viewer is somewhere else: on another pane, or in another session, both being known. */
  predicate IsElsewhere(v: Viewer, pane: Pane, opts: AttachOptions) {
    v.paneId != pane || (v.sessionId != NoId && opts.sessionId != NoId && v.sessionId != opts.sessionId)
  }

  /** The stored viewer is attached through a connection that is up. */
  predicate IsInUse(v: Viewer) {
    v.channelId != NoId && !v.stale
  }

  /** Each refusal has its own cause, and without a cause there is no refusal. */
  lemma AttachIsLetIn(s: State, c: Channel, pane: Pane, opts: AttachOptions, newToken: Token, answers: AttachAnswers,
                      early: bool, now: int)
    ensures
      var result := Attach(s, c, pane, opts, newToken, answers, early, now).1;
      var token := opts.resumeToken;
      var isFree := SizeOk(opts) && c !in s.channels;
      var isHere := token in s.viewers && !IsElsewhere(s.viewers[token], pane, opts);
      && (result == Err(SizeOutOfRange) <==> !SizeOk(opts))
      && (result == Err(AlreadyAttached) <==> SizeOk(opts) && c in s.channels)
      && (result == Err(TokenMismatch) <==> isFree && token != NoId && token in s.viewers && !isHere)
      && (result == Err(TokenInUse) <==> isFree && token != NoId && isHere && IsInUse(s.viewers[token]))
      && (result == Err(InvalidToken) <==> isFree && token != NoId && token !in s.viewers && !answers.tokenStored)
      && (result == Err(CaptureFailed) <==>
            && isFree && token != NoId && !answers.captured
            && (if token in s.viewers then isHere && !IsInUse(s.viewers[token]) else answers.tokenStored))
      && (result.Ok? <==>
            && isFree && answers.started
            && (token == NoId
                || (answers.captured
                    && if token in s.viewers then isHere && !IsInUse(s.viewers[token]) else answers.tokenStored)))
  {
  }

  /** An attached channel belongs to the viewer under its token, which is where the request wanted it. */
  lemma AttachAttaches(s: State, c: Channel, pane: Pane, opts: AttachOptions, newToken: Token, answers: AttachAnswers,
                       early: bool, now: int)
    requires Inv(s) && Attach(s, c, pane, opts, newToken, answers, early, now).1.Ok?
    ensures
      var (r, result) := Attach(s, c, pane, opts, newToken, answers, early, now);
      var token := TokenOf(opts, newToken);
      && result.value.resumeToken == token && (result.value.resumed <==> opts.resumeToken != NoId)
      && c in r.channels && r.channels[c].token == token && token in r.viewers
      && var v := r.viewers[token];
         && v.channelId == c && v.paneId == pane && v.sessionId == opts.sessionId && v.resumeToken == token
         && v.letterbox == opts.letterbox && !v.stale && v.detachedAt.None?
  {
  }

  /** A stale channel that gives way to a resume takes its control with it, and nothing else changes hands. */
  lemma SupersedeFreesOnlyItself(s: State, t: Token, now: int)
    requires Inv(s) && t in s.viewers
    ensures
      var r := Supersede(s, t, now);
      && (forall p :: p in r.controller <==>
            p in s.controller && s.controller[p] != s.viewers[t].channelId)
      && (forall p :: p in r.controller ==> r.controller[p] == s.controller[p])
      && (forall d :: d in s.channels && d != s.viewers[t].channelId ==>
            d in r.channels && r.channels[d] == s.channels[d] && ViewerOf(r, d) == ViewerOf(s, d))
  {
    var c := s.viewers[t].channelId;
    assert ViewerOk(s, t);
    assert c in s.channels ==> ChannelOk(s, c) && s.channels[c].token == t;
    forall p | p in s.controller ensures s.controller[p] == c ==> c in s.channels && p == s.viewers[t].paneId {
      assert ControllerOk(s, p);
    }
    forall d | d in s.channels && d != c && c in s.channels
      ensures HasViewer(s, d) && s.channels[d].token != t
    {
      assert ChannelOk(s, d);
    }
  }

  /** After the preparation the pane is taken exactly if a live channel controls it. */
  lemma PreparedPaneIsFree(s: State, pane: Pane, opts: AttachOptions, now: int)
    requires Inv(s) && (IsResume(s, opts) ==> !IsInUse(s.viewers[opts.resumeToken]))
    ensures pane in Prepared(s, pane, opts, now).controller <==>
            pane in s.controller && !ViewerOf(s, s.controller[pane]).stale
  {
    if pane in s.controller {
      assert ControllerOk(s, pane) && ChannelOk(s, s.controller[pane]);
    }
    if IsResume(s, opts) {
      var t := opts.resumeToken;
      SupersedeFreesOnlyItself(s, t, now);
      assert ViewerOk(s, t);
      if s.viewers[t].channelId in s.channels {
        assert ChannelOk(s, s.viewers[t].channelId);
      }
    }
  }

  lemma InsertedMayType(s: State, c: Channel, pane: Pane, opts: AttachOptions, token: Token)
    requires c !in s.channels
    requires forall p :: p in s.controller ==> s.controller[p] in s.channels
    ensures
      var r := Insert(s, c, pane, opts, token);
      && c in r.channels && (r.channels[c].readOnly <==> pane in s.controller)
      && (Controls(r, c, pane) <==> pane !in s.controller)
      && (SendInput(r, c).Ok? <==> pane !in s.controller)
  {
  }

  /** The new channel may type exactly when no live channel controls the pane, and then it is the controller. */
  lemma AttachGetsFreePane(s: State, c: Channel, pane: Pane, opts: AttachOptions, newToken: Token,
                           answers: AttachAnswers, early: bool, now: int)
    requires Inv(s) && Attach(s, c, pane, opts, newToken, answers, early, now).1.Ok?
    ensures
      var (r, result) := Attach(s, c, pane, opts, newToken, answers, early, now);
      && (result.value.readOnly <==> pane in s.controller && !ViewerOf(s, s.controller[pane]).stale)
      && c in r.channels && r.channels[c].readOnly == result.value.readOnly
      && (Controls(r, c, pane) <==> !result.value.readOnly)
      && (SendInput(r, c).Ok? <==> !result.value.readOnly)
  {
    var s1 := Prepared(s, pane, opts, now);
    AttachIsLetIn(s, c, pane, opts, newToken, answers, early, now);
    PreparedPaneIsFree(s, pane, opts, now);
    PreparedKeepsInv(s, pane, opts, now);
    forall p | p in s1.controller ensures s1.controller[p] in s1.channels {
      assert ControllerOk(s1, p);
    }
    InsertedMayType(s1, c, pane, opts, TokenOf(opts, newToken));
  }

  /** Whoever has detached can come back with the token, as long as it is not forgotten. */
  lemma DetachedViewerResumes(s: State, t: Token, c: Channel, opts: AttachOptions, newToken: Token,
                              answers: AttachAnswers, early: bool, now: int)
    requires Inv(s) && t in s.viewers && s.viewers[t].channelId == NoId && opts.resumeToken == t
    requires c !in s.channels && c != NoId && SizeOk(opts) && answers.captured && answers.started
    requires s.viewers[t].sessionId == NoId || opts.sessionId == NoId || s.viewers[t].sessionId == opts.sessionId
    ensures
      var (r, result) := Attach(s, c, s.viewers[t].paneId, opts, newToken, answers, early, now);
      && result.Ok? && result.value.resumed && result.value.resumeToken == t
      && c in r.channels && r.channels[c].token == t && ViewerOf(r, c).channelId == c
      && ViewerOf(r, c).paneId == s.viewers[t].paneId
  {
    assert ViewerOk(s, t);
    AttachIsLetIn(s, c, s.viewers[t].paneId, opts, newToken, answers, early, now);
    AttachAttaches(s, c, s.viewers[t].paneId, opts, newToken, answers, early, now);
  }

  /** The preparation of a resume touches stale channels alone. */
  lemma PreparationLeavesLiveAlone(s: State, pane: Pane, opts: AttachOptions, now: int)
    requires Inv(s) && (IsResume(s, opts) ==> !IsInUse(s.viewers[opts.resumeToken]))
    ensures
      var r := Prepared(s, pane, opts, now);
      && r.viewers.Keys == s.viewers.Keys && r.promotion == s.promotion
      && (forall d :: d in s.channels && !ViewerOf(s, d).stale ==> d in r.channels && r.channels[d] == s.channels[d])
      && (forall p :: p in s.controller && !ViewerOf(s, s.controller[p]).stale ==>
            p in r.controller && r.controller[p] == s.controller[p])
  {
    forall p | p in s.controller ensures s.controller[p] in s.channels {
      assert ControllerOk(s, p);
    }
    if IsResume(s, opts) {
      var t := opts.resumeToken;
      SupersedeFreesOnlyItself(s, t, now);
      assert ViewerOk(s, t);
      if s.viewers[t].channelId in s.channels {
        assert ChannelOk(s, s.viewers[t].channelId);
      }
    }
  }

  /** A refused attach changes nothing; one whose PTY does not start lets at most a stale channel go. */
  lemma FailedAttachLeavesLiveAlone(s: State, c: Channel, pane: Pane, opts: AttachOptions, newToken: Token,
                                    answers: AttachAnswers, early: bool, now: int)
    requires Inv(s) && Attach(s, c, pane, opts, newToken, answers, early, now).1.Err?
    ensures
      var (r, result) := Attach(s, c, pane, opts, newToken, answers, early, now);
      && (result != Err(BridgeFailed) ==> r == s)
      && (result == Err(BridgeFailed) && early && IsResume(s, opts) ==> r.viewers[opts.resumeToken].pty.NoPty?)
      && r.viewers.Keys == s.viewers.Keys && r.promotion == s.promotion
      && (forall d :: d in s.channels && !ViewerOf(s, d).stale ==> d in r.channels && r.channels[d] == s.channels[d])
      && (forall p :: p in s.controller && !ViewerOf(s, s.controller[p]).stale ==>
            p in r.controller && r.controller[p] == s.controller[p])
  {
    if AttachCheck(s, c, pane, opts, answers).None? {
      PreparationLeavesLiveAlone(s, pane, opts, now);
    }
  }

  // ---------------------------------------------------------------------------------------------
  // Detach and promotion
  // ---------------------------------------------------------------------------------------------

  /** A detached channel is gone; its viewer waits under its token, on its pane, for a resume. */
  lemma DetachLeavesViewer(s: State, c: Channel, now: int)
    requires Inv(s) && c in s.channels
    ensures
      var r := Detach(s, c, now);
      var t := s.channels[c].token;
      && r.channels == s.channels - {c} && r.viewers.Keys == s.viewers.Keys
      && (forall u :: u in s.viewers && u != t ==> r.viewers[u] == s.viewers[u])
      && r.viewers[t].channelId == NoId && r.viewers[t].detachedAt == Some(now)
      && !r.viewers[t].stale && r.viewers[t].staleAt.None?
      && r.viewers[t].paneId == s.viewers[t].paneId && r.viewers[t].sessionId == s.viewers[t].sessionId
      && (r.viewers[t].pty == if s.viewers[t].letterbox then NoPty else s.viewers[t].pty)
      && (forall p :: p in r.controller <==> p in s.controller && s.controller[p] != c)
      && (forall p :: p in r.controller ==> r.controller[p] == s.controller[p])
      && (r.promotion == if Controls(s, c, s.viewers[t].paneId) then Some(s.viewers[t].paneId) else None)
  {
    assert ChannelOk(s, c);
    forall p | p in s.controller && s.controller[p] == c ensures p == ViewerOf(s, c).paneId {
      assert ControllerOk(s, p);
    }
  }

  /** A promoted viewer controls the pane, may type, and has a PTY that takes input. */
  lemma PromotedMayType(s: State, d: Channel)
    requires Inv(s) && s.promotion.Some? && Candidate(s, s.promotion.value, d)
    ensures
      var r := Promote(s, Some(d), true);
      && Controls(r, d, s.promotion.value) && d in r.channels && !r.channels[d].readOnly
      && ViewerOf(r, d).paneId == s.promotion.value && SendInput(r, d) == Ok(s.channels[d].token)
  {
    assert ChannelOk(s, d);
  }

  /**
   When a pane's controller detaches and another viewer on the pane gets a PTY, that viewer takes over: nobody
   else on the pane may type, and it may.
   */
  lemma ControlPassesOn(s: State, c: Channel, d: Channel, now: int)
    requires Inv(s) && s.promotion.None? && c in s.channels && Controls(s, c, ViewerOf(s, c).paneId)
    requires Enabled(Detach(s, c, now), PromoteEvent(Some(d), true))
    ensures
      var pane := ViewerOf(s, c).paneId;
      var first := Step(s, DetachEvent(c, now));
      first == Some(Detach(s, c, now))
      && var second := Step(first.value, PromoteEvent(Some(d), true));
         second.Some?
         && var r := second.value;
            && Controls(r, d, pane) && c !in r.channels && d in r.channels && !r.channels[d].readOnly
            && SendInput(r, d).Ok?
            && (forall e :: e in r.channels && e != d && ViewerOf(r, e).paneId == pane && !ViewerOf(r, e).stale ==>
                  !SendInput(r, e).Ok?)
  {
    InvIsLinked(s);
    DetachKeepsInv(s, c, now);
    var m := Detach(s, c, now);
    InvIsLinked(m);
    PromotedMayType(m, d);
    PromoteKeepsInv(m, Some(d), true);
    var r := Promote(m, Some(d), true);
    forall e | e in r.channels && e != d && ViewerOf(r, e).paneId == m.promotion.value && !ViewerOf(r, e).stale
      ensures !SendInput(r, e).Ok?
    {
      assert WriterOk(r, e);
    }
  }

  /** A promotion that fails, or finds nobody, leaves the pane free and nobody with more rights. */
  lemma FailedPromotionGrantsNothing(s: State, next: Option<Channel>)
    requires Inv(s) && s.promotion.Some? && (next.Some? ==> Candidate(s, s.promotion.value, next.value))
    ensures
      var r := Promote(s, next, false);
      && r.controller == s.controller && r.channels == s.channels && r.promotion.None?
      && (next.None? ==> r.viewers == s.viewers)
  {
  }

  // ---------------------------------------------------------------------------------------------
  // Taking control
  // ---------------------------------------------------------------------------------------------

  /** Taking control succeeds exactly if the PTYs that it needs start. */
  lemma ControlIsGivenIff(s: State, d: Channel, answers: ControlAnswers)
    requires Inv(s)
    ensures
      var result := TakeControl(s, d, answers).1;
      && (result == Err(ChannelNotFound) <==> d !in s.channels)
      && (d in s.channels ==>
            var pane := ViewerOf(s, d).paneId;
            && (result.Ok? <==>
                  || Controls(s, d, pane)
                  || (answers.promoted && (pane in s.controller ==> answers.demoted)))
            && (result == Err(DemoteFailed) ==> TakeControl(s, d, answers).0.controller == s.controller - {pane})
            && (result == Err(RestoreFailed) ==> TakeControl(s, d, answers).0.controller == s.controller - {pane})
            && (result == Err(PromoteFailed) ==> TakeControl(s, d, answers).0.controller == s.controller))
  {
    if d in s.channels && ViewerOf(s, d).paneId in s.controller {
      assert ControllerOk(s, ViewerOf(s, d).paneId);
    }
  }

  /** Whoever has taken control of a pane may type there, and is the only one on the pane who may. */
  lemma TakerMayType(s: State, d: Channel, answers: ControlAnswers)
    requires Inv(s) && s.promotion.None? && TakeControl(s, d, answers).1.Ok?
    ensures
      var r := TakeControl(s, d, answers).0;
      var pane := ViewerOf(s, d).paneId;
      && d in r.channels && Controls(r, d, pane) && !r.channels[d].readOnly && SendInput(r, d).Ok?
      && ViewerOf(r, d).paneId == pane && ViewerOf(r, d).pty == Writing
  {
    TakeControlKeepsInv(s, d, answers);
    ControlIsGivenIff(s, d, answers);
    var r := TakeControl(s, d, answers).0;
    var pane := ViewerOf(s, d).paneId;
    if pane in s.controller {
      assert ControllerOk(s, pane);
    }
    assert Controls(r, d, pane);
    assert ControllerOk(r, pane);
  }

  lemma GrantSilencesOthers(s: State, pane: Pane, d: Channel, e: Channel)
    requires HasViewer(s, e) && e != d && ViewerOf(s, e).paneId == pane
    ensures e in Grant(s, pane, d).channels && Grant(s, pane, d).channels[e].readOnly
  {
  }

  /** When control has changed hands nobody else on the pane may type, stale or not. */
  lemma OthersAreSilenced(s: State, d: Channel, answers: ControlAnswers, e: Channel)
    requires Inv(s) && TakeControl(s, d, answers).1.Ok? && !Controls(s, d, ViewerOf(s, d).paneId)
    requires e in s.channels && e != d && ViewerOf(s, e).paneId == ViewerOf(s, d).paneId
    ensures
      var r := TakeControl(s, d, answers).0;
      e in r.channels && r.channels[e].readOnly && SendInput(r, e) == Err(ReadOnlyChannel)
  {
    var pane := ViewerOf(s, d).paneId;
    InvIsLinked(s);
    assert HasViewer(s, d) && HasViewer(s, e);
    if pane in s.controller {
      assert ControllerOk(s, pane);
      var s1 := ReplaceBridge(s, s.controller[pane], true, true);
      ReplaceMovesNobody(s, e, s.controller[pane], true, true);
      ReplaceMovesNobody(s, d, s.controller[pane], true, true);
      ReplaceMovesNobody(s1, e, d, false, true);
      GrantSilencesOthers(ReplaceBridge(s1, d, false, true), pane, d, e);
    } else {
      ReplaceMovesNobody(s, e, d, false, true);
      GrantSilencesOthers(ReplaceBridge(s, d, false, true), pane, d, e);
    }
  }

  // ---------------------------------------------------------------------------------------------
  // Focus
  // ---------------------------------------------------------------------------------------------

  /**
   A viewer that moves takes its control along if the new pane is free, and otherwise gives it up; it never
   takes the new pane from somebody else.
   */
  lemma FocusMovesControl(s: State, c: Channel, pane: Pane)
    requires Inv(s) && c in s.channels
    ensures
      var r := MoveAuthority(s, c, pane);
      var from := ViewerOf(s, c).paneId;
      var isTaken := pane in s.controller && s.controller[pane] != c;
      && c in r.channels && ViewerOf(r, c).paneId == pane && r.channels.Keys == s.channels.Keys
      && (!r.channels[c].readOnly <==> Controls(s, c, from) && !isTaken)
      && (Controls(r, c, pane) <==> !r.channels[c].readOnly)
      && (from != pane && Controls(s, c, from) ==> from !in r.controller)
      && (isTaken ==> pane in r.controller && r.controller[pane] == s.controller[pane])
      && (forall p :: p != pane && p != from ==> (p in r.controller <==> p in s.controller))
      && (forall p :: p != pane && p in r.controller ==> p in s.controller && r.controller[p] == s.controller[p])
      && (forall d :: d in s.channels && d != c ==> r.channels[d] == s.channels[d])
      && (forall t :: t in s.viewers && t != s.channels[c].token ==> t in r.viewers && r.viewers[t] == s.viewers[t])
  {
    assert ChannelOk(s, c);
    if pane in s.controller {
      assert ControllerOk(s, pane);
    }
  }

  // ---------------------------------------------------------------------------------------------
  // Lost connections and expiry
  // ---------------------------------------------------------------------------------------------

  /** A lost connection makes every attached viewer stale from then on, and changes nothing else. */
  lemma LossMarksAttached(s: State, now: int, t: Token)
    requires Inv(s) && t in s.viewers
    ensures
      var r := MarkStale(s, now);
      && r.viewers.Keys == s.viewers.Keys && r.channels == s.channels && r.controller == s.controller
      && (r.viewers[t].stale <==> s.viewers[t].channelId != NoId)
      && (s.viewers[t].channelId != NoId && !s.viewers[t].stale ==> r.viewers[t].staleAt == Some(now))
      && r.viewers[t].(stale := s.viewers[t].stale, staleAt := s.viewers[t].staleAt) == s.viewers[t]
      && (s.viewers[t].stale ==> r.viewers[t] == s.viewers[t])
  {
    assert ViewerOk(s, t);
    assert NoId in s.channels ==> ChannelOk(s, NoId);
  }

  /** A viewer is forgotten exactly when it has been detached or stale for 30 seconds. */
  lemma ExpiryIsThirtySeconds(s: State, now: int, t: Token)
    requires Inv(s) && t in s.viewers
    ensures
      var r := Sweep(s, now);
      var v := s.viewers[t];
      && (t !in r.viewers <==>
            || (v.detachedAt.Some? && now - v.detachedAt.value >= 30)
            || (v.stale && v.staleAt.Some? && now - v.staleAt.value >= 30))
      && (t in r.viewers ==> r.viewers[t] == v)
  {
    assert ViewerOk(s, t);
  }

  /** With a viewer go its channel and its control, and nobody else's. */
  lemma ExpiryTakesChannel(s: State, now: int, c: Channel)
    requires Inv(s) && c in s.channels
    ensures
      var r := Sweep(s, now);
      && r.viewers.Keys <= s.viewers.Keys
      && (c in r.channels <==> s.channels[c].token in r.viewers)
      && (c in r.channels ==> r.channels[c] == s.channels[c])
      && (forall p :: p in s.controller && s.controller[p] == c ==>
            (p in r.controller <==> c in r.channels) && (p in r.controller ==> r.controller[p] == c))
  {
    assert ChannelOk(s, c);
  }

  // ---------------------------------------------------------------------------------------------
  // Input
  // ---------------------------------------------------------------------------------------------

  /** Input goes to the PTY of the channel's own viewer, or is refused for one of three reasons. */
  lemma InputIsAnswered(s: State, c: Channel)
    requires Inv(s)
    ensures
      var result := SendInput(s, c);
      && (result == Err(UnknownChannel) <==> c !in s.channels)
      && (result == Err(ReadOnlyChannel) <==> c in s.channels && s.channels[c].readOnly)
      && (result == Err(NoBridge) <==> c in s.channels && !s.channels[c].readOnly && ViewerOf(s, c).pty.NoPty?)
      && (result.Ok? ==>
            c in s.channels && result.value == s.channels[c].token && s.viewers[result.value].channelId == c)
  {
    assert c in s.channels ==> ChannelOk(s, c);
  }

  // ---------------------------------------------------------------------------------------------
  // Runs
  // ---------------------------------------------------------------------------------------------

  /** A run goes on with each event that can happen, and events that cannot happen change nothing. */
  lemma RunGoesOn(events: seq<Event>, e: Event)
    ensures Run(Init, events).Some? && Run(Init, events + [e]).Some?
    ensures
      var s := Run(Init, events).value;
      Run(Init, events + [e]).value == if Enabled(s, e) then Apply(s, e) else s
  {
    RunKeepsInv(events);
    RunKeepsInv(events + [e]);
    InvIsLinked(Run(Init, events).value);
    assert (events + [e])[..|events|] == events;
  }

  /** Nothing but a pending promotion holds a request back, and the sweeper not even that. */
  lemma RequestsAreServed(events: seq<Event>, c: Channel, pane: Pane, answers: ControlAnswers, now: int)
    ensures Run(Init, events).Some?
    ensures
      var s := Run(Init, events).value;
      && Run(Init, events + [SweepEvent(now)]) == Some(Sweep(s, now))
      && (s.promotion.None? ==>
            && Run(Init, events + [DetachEvent(c, now)]) == Some(Detach(s, c, now))
            && Run(Init, events + [ControlEvent(c, answers)]) == Some(TakeControl(s, c, answers).0)
            && Run(Init, events + [StaleEvent(now)]) == Some(MarkStale(s, now))
            && (c in s.channels && ViewerOf(s, c).pty != NoPty ==>
                  Run(Init, events + [FocusEvent(c, pane)]) == Some(MoveAuthority(s, c, pane))))
  {
    RunGoesOn(events, SweepEvent(now));
    RunGoesOn(events, DetachEvent(c, now));
    RunGoesOn(events, ControlEvent(c, answers));
    RunGoesOn(events, StaleEvent(now));
    RunGoesOn(events, FocusEvent(c, pane));
  }

  /** An attach of a channel with an id, offered a token that nobody holds, is served unless a promotion is pending. */
  lemma AttachIsServed(events: seq<Event>, c: Channel, pane: Pane, opts: AttachOptions, newToken: Token,
                       answers: AttachAnswers, early: bool, now: int)
    requires Run(Init, events).Some? && Run(Init, events).value.promotion.None?
    requires c != NoId && newToken != NoId && newToken !in Run(Init, events).value.viewers
    ensures Run(Init, events + [AttachEvent(c, pane, opts, newToken, answers, early, now)])
         == Some(Attach(Run(Init, events).value, c, pane, opts, newToken, answers, early, now).0)
  {
    RunGoesOn(events, AttachEvent(c, pane, opts, newToken, answers, early, now));
  }
}
