/**
 Where tmux keeps the resume tokens of the viewers of TerminalAuthority.dfy: each on the pane of its
 viewer, and on no other pane unless both ways of removing it from one failed. A sweep takes the tokens of
 expired viewers away only after it has let go of the lock, so a viewer that uses such a token again on the
 same pane before that loses it.
 */
module TerminalTokens {
  import opened Options
  import A = TerminalAuthority

  /** Pane options: the tokens that are persisted on each pane. */
  type Tokens = set<(Id, Id)>

  datatype FocusCause =
    | SelectFailed
    | ZoomFailed
    | ReadFailed
    | NotConverged
    | TokenNotPersisted
    | TokenRolledBack
    | TokenOnBothPanes

  /** Where a resume token is persisted after an attempt to move it between two panes. */
  function MovedTokens(tokens: Tokens, token: Id, from: Id, to: Id, failure: Option<FocusCause>): Tokens {
    match failure
    case None => if from == to then tokens else tokens + {(to, token)} - {(from, token)}
    case Some(TokenOnBothPanes) => tokens + {(to, token)}
    case Some(TokenRolledBack) => tokens - {(to, token)}
    case Some(_) => tokens
  }

  /** Only an attempt to move a token to another pane can fail at moving it. */
  predicate CanFail(failure: Option<FocusCause>, from: Id, to: Id) {
    failure == Some(TokenRolledBack) || failure == Some(TokenOnBothPanes) ==> from != to
  }

  /**
   A token that is on one pane only is on one pane only after a focus: the new one if the focus
   succeeded, the old one if it failed, except that both removals may fail and leave it on both.
   */
  lemma TokenIsOnOnePane(tokens: Tokens, token: Id, from: Id, to: Id, failure: Option<FocusCause>)
    requires forall p :: (p, token) in tokens <==> p == from
    requires CanFail(failure, from, to)
    ensures
      var moved := MovedTokens(tokens, token, from, to, failure);
      && (forall p :: (p, token) in moved <==>
            p == (if failure.None? then to else from) || (failure == Some(TokenOnBothPanes) && p == to))
      && (forall p, t :: t != token ==> ((p, t) in moved <==> (p, t) in tokens))
  {
  }

  // ---------------------------------------------------------------------------------------------
  // Runs
  // ---------------------------------------------------------------------------------------------

  /**
   `closing` are the tokens, on their panes, of expired viewers whose PTYs are still to be closed. `doubled`
   is history: the tokens that a focus has left on two panes.
   */
  datatype Ledger = Ledger(state: A.State, tokens: Tokens, closing: Tokens, doubled: set<Id>)

  function AttachToken(opts: A.AttachOptions, newToken: Id): Id {
    if opts.resumeToken == NoId then newToken else opts.resumeToken
  }

  /** The token of an attached channel on the pane of its viewer. */
  function Place(s: A.State, c: Id): Tokens {
    if c in s.channels then {(A.ViewerOf(s, c).paneId, s.channels[c].token)} else {}
  }

  /** The tokens that the PTYs started by a request persist. */
  function MayStore(s: A.State, e: A.Event): Tokens {
    match e
    case AttachEvent(c, p, opts, newToken, answers, _, _) =>
      if A.AttachCheck(s, c, p, opts, answers).None? then {(p, AttachToken(opts, newToken))} else {}
    case PromoteEvent(next, _) => if next.Some? then Place(s, next.value) else {}
    case ControlEvent(c, _) =>
      var pane := A.ViewerOf(s, c).paneId;
      Place(s, c) + if pane in s.controller then Place(s, s.controller[pane]) else {}
    case _ => {}
  }

  /** From `before` to `after` the request persists what its PTYs need, as far as tmux lets it. */
  ghost predicate Stores(s: A.State, e: A.Event, before: Tokens, after: Tokens) {
    && before <= after <= before + MayStore(s, e)
    && (e.AttachEvent? && e.attachAnswers.started ==> MayStore(s, e) <= after)
  }

  /** An attach with a token that nobody holds is let through only if the token is on the pane. */
  predicate Presented(s: A.State, e: A.Event, tokens: Tokens) {
    e.AttachEvent? && A.AttachCheck(s, e.channel, e.pane, e.opts, e.attachAnswers).None?
    && e.opts.resumeToken != NoId && e.opts.resumeToken !in s.viewers ==>
      (e.pane, e.opts.resumeToken) in tokens
  }

  /** A generated token is new to tmux as well. */
  ghost predicate NewToTmux(e: A.Event, tokens: Tokens) {
    e.AttachEvent? ==> forall p :: (p, e.newToken) !in tokens
  }

  /** The tokens of the PTYs that a sweep leaves to be closed. */
  function SweptPlaces(s: A.State, now: int): Tokens {
    set t | t in s.viewers && A.Expired(s.viewers[t], now) && s.viewers[t].pty != A.NoPty :: (s.viewers[t].paneId, t)
  }

  /** `closed` of the PTYs left by sweeps are closed, which removes their tokens as far as tmux lets it. */
  datatype Event =
    | ActEvent(request: A.Event, after: Tokens)
    | FocusEvent(channel: Id, pane: Id, failure: Option<FocusCause>)
    | CloseEvent(closed: Tokens, removed: Tokens)

  ghost predicate Enabled(l: Ledger, e: Event) {
    match e
    case ActEvent(request, after) =>
      && !request.FocusEvent? && A.Enabled(l.state, request)
      && NewToTmux(request, l.tokens)
      && Presented(l.state, request, l.tokens) && Stores(l.state, request, l.tokens, after)
    case FocusEvent(c, p, failure) =>
      A.Enabled(l.state, A.Event.FocusEvent(c, p)) && CanFail(failure, A.ViewerOf(l.state, c).paneId, p)
    case CloseEvent(closed, removed) => removed <= closed <= l.closing
  }

  ghost function Step(l: Ledger, e: Event): Ledger {
    if !Enabled(l, e) then l
    else
      match e
      case ActEvent(request, after) =>
        l.(state := A.Apply(l.state, request), tokens := after,
           closing := if request.SweepEvent? then l.closing + SweptPlaces(l.state, request.at) else l.closing)
      case FocusEvent(c, p, failure) =>
        var token := l.state.channels[c].token;
        l.(state := if failure.None? then A.MoveAuthority(l.state, c, p) else l.state,
           tokens := MovedTokens(l.tokens, token, A.ViewerOf(l.state, c).paneId, p, failure),
           doubled := if failure == Some(TokenOnBothPanes) then l.doubled + {token} else l.doubled)
      case CloseEvent(closed, removed) => l.(tokens := l.tokens - removed, closing := l.closing - closed)
  }

  ghost function Run(l: Ledger, events: seq<Event>): Ledger {
    if events == [] then l else Step(Run(l, events[..|events| - 1]), events[|events| - 1])
  }

  /** No viewer is put where a sweep is still going to take its token away. */
  predicate IsTimely(l: Ledger, e: Event) {
    match e
    case ActEvent(request, _) =>
      request.AttachEvent? && request.attachAnswers.started ==> MayStore(l.state, request) !! l.closing
    case FocusEvent(c, p, failure) =>
      failure.None? && c in l.state.channels ==> (p, l.state.channels[c].token) !in l.closing
    case CloseEvent(_, _) => true
  }

  ghost predicate TimelyRun(l: Ledger, events: seq<Event>) {
    || events == []
    || (&& TimelyRun(l, events[..|events| - 1])
        && (var before, e := Run(l, events[..|events| - 1]), events[|events| - 1];
            Enabled(before, e) ==> IsTimely(before, e)))
  }

  // ---------------------------------------------------------------------------------------------
  // The invariant
  // ---------------------------------------------------------------------------------------------

  ghost predicate OnOnePane(tokens: Tokens, t: Id) {
    forall p, q :: (p, t) in tokens && (q, t) in tokens ==> p == q
  }

  /** The token of a viewer is persisted on its pane. */
  predicate InPlace(l: Ledger, t: Id) {
    t in l.state.viewers ==> (l.state.viewers[t].paneId, t) in l.tokens
  }

  ghost predicate AllInPlace(l: Ledger) {
    forall t {:trigger InPlace(l, t)} :: InPlace(l, t)
  }

  /** The token is persisted where its viewer is, to stay, and nowhere else unless it was left on two panes. */
  ghost predicate TokenOk(l: Ledger, t: Id) {
    && InPlace(l, t)
    && (t in l.state.viewers ==> (l.state.viewers[t].paneId, t) !in l.closing)
    && (t !in l.doubled ==> OnOnePane(l.tokens, t))
  }

  ghost predicate Inv(l: Ledger) {
    A.Inv(l.state) && forall t {:trigger TokenOk(l, t)} :: TokenOk(l, t)
  }

  /** A request other than a focus leaves every viewer on its pane. */
  lemma PanesStay(s: A.State, e: A.Event, t: Id)
    requires A.Inv(s) && A.Enabled(s, e) && !e.FocusEvent? && t in A.Apply(s, e).viewers
    ensures
      || (t in s.viewers && A.Apply(s, e).viewers[t].paneId == s.viewers[t].paneId)
      || (e.AttachEvent? && e.attachAnswers.started && MayStore(s, e) == {(A.Apply(s, e).viewers[t].paneId, t)})
  {
    A.InvIsLinked(s);
    match e
    case AttachEvent(_, _, _, _, _, _, _) => AttachKeepsPane(s, e, t);
    case ControlEvent(c, answers) => ControlKeepsPane(s, c, answers, t);
    case DetachEvent(c, _) => assert c in s.channels ==> A.HasViewer(s, c);
    case PromoteEvent(next, started) =>
      if next.Some? {
        assert A.HasViewer(s, next.value);
        ReplaceKeepsPane(s.(promotion := None), next.value, false, started, t);
      }
    case _ =>
  }

  lemma AttachKeepsPane(s: A.State, e: A.Event, t: Id)
    requires A.Inv(s) && A.Enabled(s, e) && e.AttachEvent? && t in A.Apply(s, e).viewers
    ensures
      || (t in s.viewers && A.Apply(s, e).viewers[t].paneId == s.viewers[t].paneId)
      || (e.attachAnswers.started && MayStore(s, e) == {(A.Apply(s, e).viewers[t].paneId, t)})
  {
    A.PreparedKeepsInv(s, e.pane, e.opts, e.at);
  }

  lemma GrantKeepsPane(s: A.State, pane: Id, c: Id, t: Id)
    requires t in s.viewers
    ensures t in A.Grant(s, pane, c).viewers && A.Grant(s, pane, c).viewers[t].paneId == s.viewers[t].paneId
  {
  }

  lemma ReplaceKeepsPane(s: A.State, c: Id, readOnly: bool, started: bool, t: Id)
    requires A.HasViewer(s, c)
    ensures t in A.ReplaceBridge(s, c, readOnly, started).viewers <==> t in s.viewers
    ensures t in s.viewers ==> A.ReplaceBridge(s, c, readOnly, started).viewers[t].paneId == s.viewers[t].paneId
  {
  }

  lemma ControlKeepsPane(s: A.State, c: Id, answers: A.ControlAnswers, t: Id)
    requires A.Inv(s) && t in A.TakeControl(s, c, answers).0.viewers
    ensures t in s.viewers && A.TakeControl(s, c, answers).0.viewers[t].paneId == s.viewers[t].paneId
  {
    A.InvIsLinked(s);
    if c in s.channels && !A.Controls(s, c, A.ViewerOf(s, c).paneId) {
      assert A.HasViewer(s, c);
      var pane := A.ViewerOf(s, c).paneId;
      if pane in s.controller {
        assert A.ControllerOk(s, pane);
        TransferKeepsPane(s, c, answers, t);
      } else {
        ReplaceKeepsPane(s, c, false, answers.promoted, t);
      }
    }
  }

  lemma TransferKeepsPane(s: A.State, c: Id, answers: A.ControlAnswers, t: Id)
    requires A.HasViewer(s, c) && A.ViewerOf(s, c).paneId in s.controller
    requires A.HasViewer(s, s.controller[A.ViewerOf(s, c).paneId]) && !A.Controls(s, c, A.ViewerOf(s, c).paneId)
    ensures t in A.TakeControl(s, c, answers).0.viewers <==> t in s.viewers
    ensures t in s.viewers ==> A.TakeControl(s, c, answers).0.viewers[t].paneId == s.viewers[t].paneId
  {
    var current := s.controller[A.ViewerOf(s, c).paneId];
    var s1 := A.ReplaceBridge(s, current, true, answers.demoted);
    ReplaceKeepsPane(s, current, true, answers.demoted, t);
    var s2 := A.ReplaceBridge(s1, c, false, answers.promoted);
    ReplaceKeepsPane(s1, c, false, answers.promoted, t);
    ReplaceKeepsPane(s2, current, false, answers.restored, t);
  }

  /** What a request persists is where it belongs already, or belongs to the viewer it attaches. */
  lemma StoredIsInPlace(l: Ledger, e: A.Event, p: Id, t: Id)
    requires Inv(l) && A.Enabled(l.state, e) && Presented(l.state, e, l.tokens) && NewToTmux(e, l.tokens)
    requires (p, t) in MayStore(l.state, e)
    ensures (p, t) in l.tokens || forall q :: (q, t) !in l.tokens
  {
    assert TokenOk(l, t);
    A.InvIsLinked(l.state);
    if e.ControlEvent? && A.ViewerOf(l.state, e.channel).paneId in l.state.controller {
      assert A.ControllerOk(l.state, A.ViewerOf(l.state, e.channel).paneId);
    }
    if e.PromoteEvent? && e.next.Some? {
      assert A.HasViewer(l.state, e.next.value);
    }
    if e.ControlEvent? && e.channel in l.state.channels {
      assert A.HasViewer(l.state, e.channel);
    }
  }

  lemma ActKeepsPlace(l: Ledger, e: A.Event, after: Tokens, t: Id)
    requires Inv(l) && Enabled(l, ActEvent(e, after)) && IsTimely(l, ActEvent(e, after))
    requires t in A.Apply(l.state, e).viewers
    ensures
      var r := Step(l, ActEvent(e, after));
      (r.state.viewers[t].paneId, t) in r.tokens && (r.state.viewers[t].paneId, t) !in r.closing
  {
    assert TokenOk(l, t);
    PanesStay(l.state, e, t);
  }

  lemma ActKeepsToken(l: Ledger, e: A.Event, after: Tokens, t: Id)
    requires Inv(l) && Enabled(l, ActEvent(e, after)) && IsTimely(l, ActEvent(e, after))
    ensures TokenOk(Step(l, ActEvent(e, after)), t)
  {
    assert TokenOk(l, t);
    if t in A.Apply(l.state, e).viewers {
      ActKeepsPlace(l, e, after, t);
    }
    forall p, q | t !in l.doubled && (p, t) in after && (q, t) in after ensures p == q {
      if (p, t) !in l.tokens {
        StoredIsInPlace(l, e, p, t);
        OnePlace(l, e, p, q, t);
      } else if (q, t) !in l.tokens {
        StoredIsInPlace(l, e, q, t);
      }
    }
  }

  /** A request persists a token on one pane only. */
  lemma OnePlace(l: Ledger, e: A.Event, p: Id, q: Id, t: Id)
    requires Inv(l) && A.Enabled(l.state, e)
    requires (p, t) in MayStore(l.state, e) && (q, t) in MayStore(l.state, e)
    ensures p == q
  {
  }

  lemma FocusKeepsToken(l: Ledger, c: Id, p: Id, failure: Option<FocusCause>, t: Id)
    requires Inv(l)
    requires
      var e := Event.FocusEvent(c, p, failure);
      Enabled(l, e) && IsTimely(l, e)
    ensures TokenOk(Step(l, Event.FocusEvent(c, p, failure)), t)
  {
    A.InvIsAllLinked(l.state);
    assert A.ChannelLinked(l.state, c);
    assert TokenOk(l, t) && TokenOk(l, l.state.channels[c].token);
  }

  lemma StepKeepsInv(l: Ledger, e: Event)
    requires Inv(l) && (Enabled(l, e) ==> IsTimely(l, e))
    ensures Inv(Step(l, e))
  {
    if Enabled(l, e) {
      match e
      case ActEvent(request, after) =>
        A.StepKeepsInv(l.state, request);
        forall t ensures TokenOk(Step(l, e), t) {
          ActKeepsToken(l, request, after, t);
        }
      case FocusEvent(c, p, failure) =>
        A.MoveKeepsInv(l.state, c, p);
        forall t ensures TokenOk(Step(l, e), t) {
          FocusKeepsToken(l, c, p, failure, t);
        }
      case CloseEvent(_, _) =>
        forall t ensures TokenOk(Step(l, e), t) {
          assert TokenOk(l, t);
        }
    }
  }

  lemma {:induction false} RunKeepsInv(l: Ledger, events: seq<Event>)
    requires Inv(l) && TimelyRun(l, events)
    ensures Inv(Run(l, events))
  {
    if events != [] {
      RunKeepsInv(l, events[..|events| - 1]);
      StepKeepsInv(Run(l, events[..|events| - 1]), events[|events| - 1]);
    }
  }

  // ---------------------------------------------------------------------------------------------
  // What holds over every run
  // ---------------------------------------------------------------------------------------------

  /** The manager starts without viewers, over whatever tokens an earlier one has left in tmux. */
  function Start(tokens: Tokens): Ledger {
    Ledger(A.Init, tokens, {}, {})
  }

  lemma StartInv(tokens: Tokens)
    requires forall u :: OnOnePane(tokens, u)
    ensures Inv(Start(tokens))
  {
    forall u ensures TokenOk(Start(tokens), u) {
    }
  }

  /**
   As long as nobody attaches with, or is focused to, a token and a pane that a sweep has still to close, the
   token of each viewer is persisted on its pane in every state of every run, so that it can be resumed after a
   restart, and on no other pane unless a focus has failed at both removals.
   */
  lemma TokensFollowViewers(tokens: Tokens, events: seq<Event>, t: Id)
    requires (forall u :: OnOnePane(tokens, u)) && TimelyRun(Start(tokens), events)
    ensures
      var l := Run(Start(tokens), events);
      t in l.state.viewers ==>
        && (l.state.viewers[t].paneId, t) in l.tokens
        && (t !in l.doubled ==> forall p :: (p, t) in l.tokens <==> p == l.state.viewers[t].paneId)
  {
    StartInv(tokens);
    RunKeepsInv(Start(tokens), events);
    assert TokenOk(Run(Start(tokens), events), t);
  }

  /** Whatever happens from now on, no viewer loses its token, provided that later requests are timely. */
  ghost predicate StaysInPlace(l: Ledger) {
    forall events {:trigger Run(l, events)} :: TimelyRun(l, events) ==> AllInPlace(Run(l, events))
  }

  lemma RunOne(l: Ledger, e: Event)
    ensures Run(l, [e]) == Step(l, e)
    ensures TimelyRun(l, [e]) <==> (Enabled(l, e) ==> IsTimely(l, e))
  {
    assert [e][..0] == [] && Run(l, []) == l;
  }

  /** A viewer that stands where a sweep has still to close loses its token when that happens. */
  lemma CloseTakesToken(l: Ledger, t: Id)
    requires t in l.state.viewers && (l.state.viewers[t].paneId, t) in l.closing
    ensures !StaysInPlace(l)
  {
    var x := (l.state.viewers[t].paneId, t);
    var e := CloseEvent({x}, {x});
    RunOne(l, e);
    assert !InPlace(Run(l, [e]), t);
  }

  /** What is not timely puts a viewer where a sweep has still to close. */
  lemma LateRequestIsAtRisk(l: Ledger, e: Event) returns (t: Id)
    requires Inv(l) && Enabled(l, e) && !IsTimely(l, e)
    ensures
      var r := Step(l, e);
      t in r.state.viewers && (r.state.viewers[t].paneId, t) in r.closing
  {
    match e
    case ActEvent(request, _) =>
      t := AttachToken(request.opts, request.newToken);
      var x :| x in MayStore(l.state, request) && x in l.closing;
      assert x == (request.pane, t);
    case FocusEvent(c, p, _) =>
      t := l.state.channels[c].token;
      A.InvIsLinked(l.state);
      assert A.HasViewer(l.state, c);
  }

  /**
   In any state that timely requests lead to, the next step is safe, in that no continuation takes a viewer's
   token away, if and only if it is not an attach with, or a focus to, a token and a pane that a sweep has
   still to close.
   */
  lemma RequestIsSafeIff(tokens: Tokens, before: seq<Event>, e: Event)
    requires (forall u :: OnOnePane(tokens, u)) && TimelyRun(Start(tokens), before)
    requires Enabled(Run(Start(tokens), before), e)
    ensures StaysInPlace(Step(Run(Start(tokens), before), e)) <==> IsTimely(Run(Start(tokens), before), e)
  {
    var l := Run(Start(tokens), before);
    StartInv(tokens);
    RunKeepsInv(Start(tokens), before);
    if IsTimely(l, e) {
      StepKeepsInv(l, e);
      forall events | TimelyRun(Step(l, e), events) ensures AllInPlace(Run(Step(l, e), events)) {
        RunKeepsInv(Step(l, e), events);
        InvIsInPlace(Run(Step(l, e), events));
      }
    } else {
      var t := LateRequestIsAtRisk(l, e);
      CloseTakesToken(Step(l, e), t);
    }
  }

  lemma InvIsInPlace(l: Ledger)
    requires Inv(l)
    ensures AllInPlace(l)
  {
    forall t ensures InPlace(l, t) {
      assert TokenOk(l, t);
    }
  }

  // ---------------------------------------------------------------------------------------------
  // A token that is lost
  // ---------------------------------------------------------------------------------------------

  const FIRST := Id("c1")
  const SECOND := Id("c2")
  const PANE := Id("p")
  const TOKEN := Id("t")
  const PLACE: (Id, Id) := (PANE, TOKEN)
  const OPTIONS := A.AttachOptions(NoId, 0, 0, NoId, false)
  const ANSWERS := A.AttachAnswers(true, true, true)

  function AttachFirst(): A.Event {
    A.AttachEvent(FIRST, PANE, OPTIONS, TOKEN, ANSWERS, false, 0)
  }

  function AttachSecond(): A.Event {
    A.AttachEvent(SECOND, PANE, OPTIONS.(resumeToken := TOKEN), Id("u"), ANSWERS, false, 30)
  }

  /**
   A viewer attaches, leaves and expires. Before the sweep comes to close its PTY another one attaches with
   its token, which is still there; then the sweep goes on.
   */
  function SweepTakesItsTime(): seq<Event> {
    [ActEvent(AttachFirst(), {PLACE}), ActEvent(A.DetachEvent(FIRST, 0), {PLACE}),
     ActEvent(A.PromoteEvent(None, false), {PLACE}), ActEvent(A.SweepEvent(30), {PLACE}),
     ActEvent(AttachSecond(), {PLACE}), CloseEvent({PLACE}, {PLACE})]
  }

  lemma RunOneMore(l: Ledger, events: seq<Event>, e: Event)
    ensures Run(l, events + [e]) == Step(Run(l, events), e)
  {
    assert (events + [e])[..|events|] == events;
  }

  function AttachedAs(c: Id, closing: Tokens): Ledger {
    Ledger(A.State(map[TOKEN := A.Viewer(c, PANE, NoId, TOKEN, false, false, A.Writing, None, false, None)],
                   map[c := A.Link(TOKEN, false)], map[PANE := c], None),
           {PLACE}, closing, {})
  }

  function Detached(promotion: Option<Id>): Ledger {
    Ledger(A.State(map[TOKEN := A.Viewer(NoId, PANE, NoId, TOKEN, false, false, A.Writing, Some(0), false, None)],
                   map[], map[], promotion),
           {PLACE}, {}, {})
  }

  lemma FirstAttaches()
    ensures Step(Start({}), ActEvent(AttachFirst(), {PLACE})) == AttachedAs(FIRST, {})
  {
    var e := AttachFirst();
    assert A.Enabled(A.Init, e) && MayStore(A.Init, e) == {PLACE};
    assert A.Apply(A.Init, e) == AttachedAs(FIRST, {}).state;
  }

  lemma FirstLeaves()
    ensures Step(AttachedAs(FIRST, {}), ActEvent(A.DetachEvent(FIRST, 0), {PLACE})) == Detached(Some(PANE))
    ensures Step(Detached(Some(PANE)), ActEvent(A.PromoteEvent(None, false), {PLACE})) == Detached(None)
  {
    var l := AttachedAs(FIRST, {});
    assert A.HasViewer(l.state, FIRST) && A.Controls(l.state, FIRST, PANE);
    assert A.Detach(l.state, FIRST, 0).channels == map[] && A.Detach(l.state, FIRST, 0).controller == map[];
    assert A.Detach(l.state, FIRST, 0) == Detached(Some(PANE)).state;
  }

  lemma FirstExpires()
    ensures Step(Detached(None), ActEvent(A.SweepEvent(30), {PLACE})) == Ledger(A.Init, {PLACE}, {PLACE}, {})
  {
    var s := Detached(None).state;
    assert A.Expired(s.viewers[TOKEN], 30);
    assert A.Sweep(s, 30).viewers == map[] && A.Sweep(s, 30) == A.Init;
    assert SweptPlaces(s, 30) == {PLACE};
  }

  lemma SecondAttaches()
    ensures Step(Ledger(A.Init, {PLACE}, {PLACE}, {}), ActEvent(AttachSecond(), {PLACE})) == AttachedAs(SECOND, {PLACE})
  {
    var e := AttachSecond();
    assert A.Enabled(A.Init, e) && A.AttachCheck(A.Init, SECOND, PANE, e.opts, ANSWERS).None?;
    assert MayStore(A.Init, e) == {PLACE};
    assert A.Apply(A.Init, e) == AttachedAs(SECOND, {}).state;
  }

  /** The states that the run goes through. */
  lemma RunThrough(l0: Ledger, es: seq<Event>, l1: Ledger, l2: Ledger, l3: Ledger, l4: Ledger, l5: Ledger)
    requires |es| == 6 && Step(l0, es[0]) == l1 && Step(l1, es[1]) == l2 && Step(l2, es[2]) == l3
    requires Step(l3, es[3]) == l4 && Step(l4, es[4]) == l5
    ensures Run(l0, es) == Step(l5, es[5])
  {
    assert es[..1] == [es[0]];
    RunOne(l0, es[0]);
    RunOneMore(l0, es[..1], es[1]);
    assert es[..2] == es[..1] + [es[1]];
    RunOneMore(l0, es[..2], es[2]);
    assert es[..3] == es[..2] + [es[2]];
    RunOneMore(l0, es[..3], es[3]);
    assert es[..4] == es[..3] + [es[3]];
    RunOneMore(l0, es[..4], es[4]);
    assert es[..5] == es[..4] + [es[4]];
    RunOneMore(l0, es[..5], es[5]);
    assert es == es[..5] + [es[5]];
  }

  lemma SweepCatchesUp()
    ensures Run(Start({}), SweepTakesItsTime()) == Step(AttachedAs(SECOND, {PLACE}), CloseEvent({PLACE}, {PLACE}))
  {
    FirstAttaches();
    FirstLeaves();
    FirstExpires();
    SecondAttaches();
    RunThrough(Start({}), SweepTakesItsTime(), AttachedAs(FIRST, {}), Detached(Some(PANE)), Detached(None),
               Ledger(A.Init, {PLACE}, {PLACE}, {}), AttachedAs(SECOND, {PLACE}));
  }

  /** The second viewer is attached and live, and its token is gone. */
  lemma SweptTokenIsLost()
    ensures
      var l := Run(Start({}), SweepTakesItsTime());
      && SECOND in l.state.channels && l.state.channels[SECOND].token == TOKEN
      && A.LiveWriter(l.state, SECOND) && A.ViewerOf(l.state, SECOND).paneId == PANE
      && !InPlace(l, TOKEN) && l.tokens == {}
  {
    SweepCatchesUp();
    assert {PLACE} - {PLACE} == {};
  }
}
