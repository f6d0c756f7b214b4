/**
 Who may type into which tmux pane.

 This module is the value-level description of the terminal manager in its default per-viewer
 mode: one function for each operation, and the invariant that every run of those operations keeps
 whatever tmux answers. The class in Terminal.dfy performs the same operations on mutable maps and
 viewer objects and is proved to follow these functions.

 Requests come from one WebSocket reader, so they do not overlap. Only the sweeper runs beside
 them, and it may run between the two critical sections of a detach; the field `promotion` marks
 that gap, and no request is taken while it is set.
 */
module TerminalAuthority {
  import opened Options

  type Channel = Id
  type Pane = Id
  type Token = Id

  /** A viewer's PTY: none, or a client that was attached read-only or not. */
  datatype Pty = NoPty | Reading | Writing

  function PtyFor(readOnly: bool): Pty {
    if readOnly then Reading else Writing
  }

  /** The authority-relevant fields of a viewer. A detached viewer has the empty channel id. */
  datatype Viewer = Viewer(
    channelId: Channel,
    paneId: Pane,
    sessionId: Id,
    resumeToken: Token,
    readOnly: bool,
    letterbox: bool,
    pty: Pty,
    detachedAt: Option<int>,
    stale: bool,
    staleAt: Option<int>)

  /** An attached channel: the token of its viewer, and whether its input is refused. */
  datatype Link = Link(token: Token, readOnly: bool)

  datatype State = State(
    viewers: map<Token, Viewer>,
    channels: map<Channel, Link>,
    controller: map<Pane, Channel>,
    promotion: Option<Pane>)

  const Init := State(map[], map[], map[], None)

  const VIEWER_TTL_SECONDS := 30

  // ---------------------------------------------------------------------------------------------
  // The invariant
  // ---------------------------------------------------------------------------------------------

  predicate HasViewer(s: State, c: Channel) {
    c in s.channels && s.channels[c].token in s.viewers
  }

  /** Every attached channel has its viewer. */
  ghost predicate Linked(s: State) {
    forall c {:trigger HasViewer(s, c)} :: c in s.channels ==> HasViewer(s, c)
  }

  const NoViewer := Viewer(NoId, NoId, NoId, NoId, false, false, NoPty, None, false, None)

  /** The viewer attached through `c`. */
  function ViewerOf(s: State, c: Channel): Viewer {
    if HasViewer(s, c) then s.viewers[s.channels[c].token] else NoViewer
  }

  predicate Controls(s: State, c: Channel, p: Pane) {
    p in s.controller && s.controller[p] == c
  }

  /** A channel and its viewer point at each other, and the viewer is the one under its token. */
  ghost predicate ChannelLinked(s: State, c: Channel) {
    HasViewer(s, c) && c != NoId && ViewerOf(s, c).channelId == c
  }

  ghost predicate AllLinked(s: State) {
    forall c {:trigger ChannelLinked(s, c)} :: c in s.channels ==> ChannelLinked(s, c)
  }

  ghost predicate ChannelOk(s: State, c: Channel) {
    && ChannelLinked(s, c)
    && (ViewerOf(s, c).readOnly ==> s.channels[c].readOnly)
  }

  ghost predicate ViewerOk(s: State, t: Token) {
    t in s.viewers &&
    var v := s.viewers[t];
    && t != NoId
    && v.resumeToken == t
    && (v.channelId != NoId ==>
          && v.channelId in s.channels && s.channels[v.channelId].token == t
          && v.detachedAt.None?)
    && (v.channelId == NoId ==> !v.stale && v.detachedAt.Some?)
    && (v.stale ==> v.staleAt.Some?)
  }

  /** A recorded controller is an attached writable channel on that very pane, with a PTY that takes input. */
  ghost predicate ControllerOk(s: State, p: Pane)
  {
    p in s.controller &&
    var c := s.controller[p];
    && HasViewer(s, c)
    && !s.channels[c].readOnly
    && ViewerOf(s, c).paneId == p
    && ViewerOf(s, c).pty == Writing
  }

  ghost predicate LiveWriter(s: State, c: Channel)
  {
    c in s.channels && !ViewerOf(s, c).stale && !s.channels[c].readOnly
  }

  /** A non-stale writable channel is the controller of its pane. */
  ghost predicate WriterOk(s: State, c: Channel)
  {
    LiveWriter(s, c) ==> Controls(s, c, ViewerOf(s, c).paneId)
  }

  ghost predicate Inv(s: State) {
    && (forall c {:trigger ChannelOk(s, c)} :: c in s.channels ==> ChannelOk(s, c))
    && (forall t {:trigger ViewerOk(s, t)} :: t in s.viewers ==> ViewerOk(s, t))
    && (forall p {:trigger ControllerOk(s, p)} :: p in s.controller ==> ControllerOk(s, p))
    && (forall c {:trigger WriterOk(s, c)} :: c in s.channels ==> WriterOk(s, c))
    && (s.promotion.Some? ==> s.promotion.value !in s.controller)
  }

  // ---------------------------------------------------------------------------------------------
  // Operations
  // ---------------------------------------------------------------------------------------------

  datatype AttachOptions = AttachOptions(sessionId: Id, cols: int, rows: int, resumeToken: Token, letterbox: bool)

  /** What tmux answered during one attach. */
  datatype AttachAnswers = AttachAnswers(tokenStored: bool, captured: bool, started: bool)

  datatype AttachError =
    | SizeOutOfRange
    | AlreadyAttached
    | TokenMismatch
    | TokenInUse
    | InvalidToken
    | CaptureFailed
    | BridgeFailed

  datatype Attached = Attached(readOnly: bool, resumeToken: Token, resumed: bool)

  predicate SizeInRange(opts: AttachOptions) {
    0 <= opts.cols <= 65535 && 0 <= opts.rows <= 65535
  }

  predicate IsResume(s: State, opts: AttachOptions) {
    opts.resumeToken != NoId && opts.resumeToken in s.viewers
  }

  /** The checks that an attach makes before it changes anything. */
  function AttachCheck(s: State, c: Channel, pane: Pane, opts: AttachOptions, answers: AttachAnswers)
    : Option<AttachError>
  {
    if !SizeInRange(opts) then Some(SizeOutOfRange)
    else if c in s.channels then Some(AlreadyAttached)
    else if opts.resumeToken == NoId then None
    else if opts.resumeToken in s.viewers then
      var previous := s.viewers[opts.resumeToken];
      if previous.paneId != pane
         || (previous.sessionId != NoId && opts.sessionId != NoId && previous.sessionId != opts.sessionId)
      then Some(TokenMismatch)
      else if previous.channelId != NoId && !previous.stale then Some(TokenInUse)
      else if !answers.captured then Some(CaptureFailed)
      else None
    else if !answers.tokenStored then Some(InvalidToken)
    else if !answers.captured then Some(CaptureFailed)
    else None
  }

  /** Takes the channel, and any control it has, away from its viewer, which stays resumable. */
  function Unlink(s: State, c: Channel, keepPty: bool, now: int): State
    requires c in s.channels
  {
    var v := ViewerOf(s, c);
    s.(channels := s.channels - {c},
       viewers := s.viewers[s.channels[c].token :=
         v.(channelId := NoId, pty := if keepPty then v.pty else NoPty, detachedAt := Some(now), stale := false,
            staleAt := None)],
       controller := if Controls(s, c, v.paneId) then s.controller - {v.paneId} else s.controller)
  }

  /** A stale viewer loses its channel to the resume that supersedes it. */
  function Supersede(s: State, t: Token, now: int): State
    requires t in s.viewers
  {
    var c := s.viewers[t].channelId;
    if c in s.channels then Unlink(s, c, false, now) else s
  }

  /** A new attach does not wait for a controller whose connection is gone. */
  function ReleaseStaleController(s: State, pane: Pane): State
  {
    if pane in s.controller && s.controller[pane] in s.channels && ViewerOf(s, s.controller[pane]).stale
    then s.(controller := s.controller - {pane})
    else s
  }

  /** The state in which the PTY of an attach is started. */
  function Prepared(s: State, pane: Pane, opts: AttachOptions, now: int): State
  {
    ReleaseStaleController(if IsResume(s, opts) then Supersede(s, opts.resumeToken, now) else s, pane)
  }

  /** The new viewer controls its pane exactly when nobody else does. */
  function Insert(s: State, c: Channel, pane: Pane, opts: AttachOptions, token: Token): State {
    var readOnly := pane in s.controller;
    s.(viewers := s.viewers[token :=
         Viewer(c, pane, opts.sessionId, token, readOnly, opts.letterbox, PtyFor(readOnly), None, false, None)],
       channels := s.channels[c := Link(token, readOnly)],
       controller := if readOnly then s.controller else s.controller[pane := c])
  }

  function DropBridge(s: State, token: Token): State
    requires token in s.viewers
  {
    s.(viewers := s.viewers[token := s.viewers[token].(pty := NoPty)])
  }

  /**
   Attaches `c` to `pane`. `closedEarly` says that a resumed viewer held a tmux session of the very
   name the new one needs, so that its PTY was closed before the new one was started.
   */
  function Attach(s: State, c: Channel, pane: Pane, opts: AttachOptions, newToken: Token, answers: AttachAnswers,
                  closedEarly: bool, now: int): (State, Result<Attached, AttachError>)
  {
    var check := AttachCheck(s, c, pane, opts, answers);
    if check.Some? then (s, Err(check.value))
    else
      var s1 := Prepared(s, pane, opts, now);
      if answers.started then
        var token := if opts.resumeToken == NoId then newToken else opts.resumeToken;
        (Insert(s1, c, pane, opts, token), Ok(Attached(pane in s1.controller, token, opts.resumeToken != NoId)))
      else if closedEarly && IsResume(s1, opts) then (DropBridge(s1, opts.resumeToken), Err(BridgeFailed))
      else (s1, Err(BridgeFailed))
  }

  /** First critical section of a detach. The promotion of a successor is left to `Promote`. */
  function Detach(s: State, c: Channel, now: int): State
  {
    if c !in s.channels then s
    else
      var v := ViewerOf(s, c);
      Unlink(s, c, !v.letterbox, now)
        .(promotion := if Controls(s, c, v.paneId) then Some(v.paneId) else None)
  }

  /** The channels that a promotion on `pane` may choose from, in whatever order the map yields. */
  predicate Candidate(s: State, pane: Pane, c: Channel)
  {
    c in s.channels && ViewerOf(s, c).paneId == pane
  }

  function SetBridge(s: State, c: Channel, pty: Pty, readOnly: bool): State
    requires c in s.channels
  {
    s.(viewers := s.viewers[s.channels[c].token := ViewerOf(s, c).(pty := pty, readOnly := readOnly)])
  }

  /** Replaces the PTY of a viewer; on failure the viewer is left without one. */
  function ReplaceBridge(s: State, c: Channel, readOnly: bool, started: bool): State
    requires c in s.channels
  {
    SetBridge(s, c, if started then PtyFor(readOnly) else NoPty, if started then readOnly else ViewerOf(s, c).readOnly)
  }

  function SetReadOnly(s: State, c: Channel, readOnly: bool): State
    requires c in s.channels
  {
    s.(channels := s.channels[c := s.channels[c].(readOnly := readOnly)])
  }

  /** Second critical section of a detach: some viewer left on the pane becomes its controller. */
  function Promote(s: State, next: Option<Channel>, started: bool): State
    requires s.promotion.Some?
    requires next.Some? ==> Candidate(s, s.promotion.value, next.value)
  {
    var done := s.(promotion := None);
    if next.None? then done
    else
      var replaced := ReplaceBridge(done, next.value, false, started);
      if !started then replaced
      else SetReadOnly(replaced, next.value, false).(controller := s.controller[s.promotion.value := next.value])
  }

  /** Moves a viewer and whatever control it has to the pane it has been focused on. */
  function MoveAuthority(s: State, c: Channel, pane: Pane): State
    requires c in s.channels
  {
    var v := ViewerOf(s, c);
    var wasController := Controls(s, c, v.paneId);
    var left := if v.paneId != pane && wasController then s.controller - {v.paneId} else s.controller;
    var hasControl := if pane in left then left[pane] == c else wasController;
    s.(viewers := s.viewers[s.channels[c].token := v.(paneId := pane, readOnly := !hasControl)],
       channels := s.channels[c := s.channels[c].(readOnly := !hasControl)],
       controller := if hasControl then left[pane := c] else left)
  }

  datatype ControlAnswers = ControlAnswers(demoted: bool, promoted: bool, restored: bool)

  datatype ControlError = ChannelNotFound | DemoteFailed | PromoteFailed | RestoreFailed

  /** The previous controller lost its PTY on the way: nobody controls the pane. */
  function Orphan(s: State, pane: Pane, current: Channel): State
    requires current in s.channels
  {
    SetReadOnly(s, current, true).(controller := s.controller - {pane})
  }

  /** Whether `t` is the token of an attached viewer. */
  predicate IsAttached(s: State, t: Token)
    requires t in s.viewers
  {
    var c := s.viewers[t].channelId;
    c in s.channels && s.channels[c].token == t
  }

  function GrantedViewer(s: State, pane: Pane, c: Channel, t: Token): Viewer
    requires t in s.viewers
  {
    var v := s.viewers[t];
    if IsAttached(s, t) && v.paneId == pane then v.(readOnly := v.channelId != c) else v
  }

  function GrantedLink(s: State, pane: Pane, c: Channel, d: Channel): Link
    requires d in s.channels
  {
    if ViewerOf(s, d).paneId == pane then s.channels[d].(readOnly := d != c) else s.channels[d]
  }

  /** Makes `c` the one writer of its pane. */
  function Grant(s: State, pane: Pane, c: Channel): State
  {
    s.(controller := s.controller[pane := c],
       viewers := map t | t in s.viewers :: GrantedViewer(s, pane, c, t),
       channels := map d | d in s.channels :: GrantedLink(s, pane, c, d))
  }

  function TakeControl(s: State, c: Channel, answers: ControlAnswers): (State, Result<(), ControlError>)
  {
    if c !in s.channels then (s, Err(ChannelNotFound))
    else
      var pane := ViewerOf(s, c).paneId;
      if Controls(s, c, pane) then (s, Ok(()))
      else if pane !in s.controller || s.controller[pane] !in s.channels then
        var s1 := ReplaceBridge(s, c, false, answers.promoted);
        if answers.promoted then (Grant(s1, pane, c), Ok(())) else (s1, Err(PromoteFailed))
      else
        var current := s.controller[pane];
        var s1 := ReplaceBridge(s, current, true, answers.demoted);
        if !answers.demoted then (Orphan(s1, pane, current), Err(DemoteFailed))
        else
          var s2 := ReplaceBridge(s1, c, false, answers.promoted);
          if answers.promoted then (Grant(s2, pane, c), Ok(()))
          else
            var s3 := ReplaceBridge(s2, current, false, answers.restored);
            if answers.restored then (s3, Err(PromoteFailed))
            else (Orphan(s3, pane, current), Err(RestoreFailed))
  }

  function MarkedViewer(s: State, t: Token, now: int): Viewer
    requires t in s.viewers
  {
    var v := s.viewers[t];
    if IsAttached(s, t) && !v.stale then v.(stale := true, staleAt := Some(now)) else v
  }

  /** The connection that owned the channels is gone. */
  function MarkStale(s: State, now: int): State {
    s.(viewers := map t | t in s.viewers :: MarkedViewer(s, t, now))
  }

  predicate Expired(v: Viewer, now: int) {
    || (v.channelId == NoId && v.detachedAt.Some? && now - v.detachedAt.value >= VIEWER_TTL_SECONDS)
    || (v.stale && v.staleAt.Some? && now - v.staleAt.value >= VIEWER_TTL_SECONDS)
  }

  predicate ChannelExpired(s: State, c: Channel, now: int)
  {
    c in s.channels && Expired(ViewerOf(s, c), now)
  }

  /** Forgets every viewer that has been detached or stale for the whole time to live. */
  function Sweep(s: State, now: int): State
  {
    s.(viewers := map t | t in s.viewers && !Expired(s.viewers[t], now) :: s.viewers[t],
       channels := map c | c in s.channels && !ChannelExpired(s, c, now) :: s.channels[c],
       controller := map p | p in s.controller && !ChannelExpired(s, s.controller[p], now) :: s.controller[p])
  }

  datatype InputError = UnknownChannel | ReadOnlyChannel | NoBridge

  /** Whether input on `c` reaches a PTY at all. */
  function SendInput(s: State, c: Channel): Result<Token, InputError>
  {
    if c !in s.channels then Err(UnknownChannel)
    else if s.channels[c].readOnly then Err(ReadOnlyChannel)
    else if ViewerOf(s, c).pty == NoPty then Err(NoBridge)
    else Ok(s.channels[c].token)
  }

  // ---------------------------------------------------------------------------------------------
  // Runs
  // ---------------------------------------------------------------------------------------------

  datatype Event =
    | AttachEvent(channel: Channel, pane: Pane, opts: AttachOptions, newToken: Token, attachAnswers: AttachAnswers,
                  closedEarly: bool, at: int)
    | DetachEvent(channel: Channel, at: int)
    | PromoteEvent(next: Option<Channel>, started: bool)
    | FocusEvent(channel: Channel, pane: Pane)
    | ControlEvent(channel: Channel, controlAnswers: ControlAnswers)
    | StaleEvent(at: int)
    | SweepEvent(at: int)

  /** Which events can happen: requests are serialized, ids and generated tokens are fresh. */
  ghost predicate Enabled(s: State, e: Event)
  {
    match e
    case AttachEvent(c, _, _, newToken, _, _, _) =>
      s.promotion.None? && c != NoId && newToken != NoId && newToken !in s.viewers
    case DetachEvent(_, _) => s.promotion.None?
    case PromoteEvent(next, _) =>
      && s.promotion.Some?
      && (next.Some? ==> Candidate(s, s.promotion.value, next.value))
      && (next.None? ==> forall c :: c in s.channels ==> !Candidate(s, s.promotion.value, c))
    case FocusEvent(c, _) => s.promotion.None? && c in s.channels && ViewerOf(s, c).pty != NoPty
    case ControlEvent(_, _) => s.promotion.None?
    case StaleEvent(_) => s.promotion.None?
    case SweepEvent(_) => true
  }

  ghost function Apply(s: State, e: Event): State
    requires Enabled(s, e)
  {
    match e
    case AttachEvent(c, p, opts, newToken, answers, early, now) =>
      Attach(s, c, p, opts, newToken, answers, early, now).0
    case DetachEvent(c, now) => Detach(s, c, now)
    case PromoteEvent(next, started) => Promote(s, next, started)
    case FocusEvent(c, p) => MoveAuthority(s, c, p)
    case ControlEvent(c, answers) => TakeControl(s, c, answers).0
    case StaleEvent(now) => MarkStale(s, now)
    case SweepEvent(now) => Sweep(s, now)
  }

  /**
   One event. Once a channel has no viewer the code looks up a viewer that is not there and crashes,
   which is None; an event that cannot happen in `s` changes nothing.
   */
  ghost function Step(s: State, e: Event): Option<State> {
    if !Linked(s) then None
    else if !Enabled(s, e) then Some(s)
    else Some(Apply(s, e))
  }

  /** The state after a whole run, or None if some step of it crashes. */
  ghost function Run(s: State, events: seq<Event>): Option<State>
    decreases |events|
  {
    if events == [] then Some(s)
    else
      var before := Run(s, events[..|events| - 1]);
      if before.None? then None else Step(before.value, events[|events| - 1])
  }

  // ---------------------------------------------------------------------------------------------
  // Every operation keeps the invariant
  // ---------------------------------------------------------------------------------------------

  lemma UnlinkKeepsInv(s: State, c: Channel, keepPty: bool, now: int)
    requires Inv(s) && c in s.channels
    ensures Inv(Unlink(s, c, keepPty, now))
  {
    var r := Unlink(s, c, keepPty, now);
    assert ChannelOk(s, c);
    forall d | d in r.channels ensures ChannelOk(r, d) && WriterOk(r, d) {
      assert ChannelOk(s, d) && WriterOk(s, d);
    }
    forall u | u in r.viewers ensures ViewerOk(r, u) {
      assert ViewerOk(s, u);
    }
    forall p | p in r.controller ensures ControllerOk(r, p) {
      assert ControllerOk(s, p) && ChannelOk(s, s.controller[p]);
    }
  }

  lemma DetachKeepsInv(s: State, c: Channel, now: int)
    requires Inv(s) && s.promotion.None?
    ensures Inv(Detach(s, c, now))
  {
    if c in s.channels {
      var v := ViewerOf(s, c);
      UnlinkKeepsInv(s, c, !v.letterbox, now);
      SetPromotionKeepsInv(Unlink(s, c, !v.letterbox, now),
                           if Controls(s, c, v.paneId) then Some(v.paneId) else None);
    }
  }

  lemma SetPromotionKeepsInv(s: State, promotion: Option<Pane>)
    requires Inv(s)
    requires promotion.Some? ==> promotion.value !in s.controller
    ensures Inv(s.(promotion := promotion))
  {
    var r := s.(promotion := promotion);
    forall d | d in r.channels ensures ChannelOk(r, d) && WriterOk(r, d) {
      assert ChannelOk(s, d) && WriterOk(s, d);
    }
    forall u | u in r.viewers ensures ViewerOk(r, u) {
      assert ViewerOk(s, u);
    }
    forall p | p in r.controller ensures ControllerOk(r, p) {
      assert ControllerOk(s, p);
    }
  }

  lemma MoveKeepsChannel(s: State, c: Channel, pane: Pane, d: Channel)
    requires Inv(s) && c in s.channels && d in s.channels
    ensures ChannelOk(MoveAuthority(s, c, pane), d)
    ensures WriterOk(MoveAuthority(s, c, pane), d)
  {
    assert ChannelOk(s, c) && WriterOk(s, c);
    assert ChannelOk(s, d) && WriterOk(s, d);
  }

  lemma MoveKeepsController(s: State, c: Channel, pane: Pane, p: Pane)
    requires Inv(s) && c in s.channels
    requires p in MoveAuthority(s, c, pane).controller
    ensures ControllerOk(MoveAuthority(s, c, pane), p)
  {
    assert ChannelOk(s, c);
    assert ViewerOf(s, c).paneId in s.controller ==> ControllerOk(s, ViewerOf(s, c).paneId);
    assert p in s.controller ==> ControllerOk(s, p) && ChannelOk(s, s.controller[p]);
  }

  lemma MoveKeepsInv(s: State, c: Channel, pane: Pane)
    requires Inv(s) && c in s.channels && s.promotion.None?
    ensures Inv(MoveAuthority(s, c, pane))
  {
    var r := MoveAuthority(s, c, pane);
    assert ChannelOk(s, c);
    forall d | d in r.channels ensures ChannelOk(r, d) && WriterOk(r, d) {
      MoveKeepsChannel(s, c, pane, d);
    }
    forall u | u in r.viewers ensures ViewerOk(r, u) {
      assert ViewerOk(s, u);
    }
    forall p | p in r.controller ensures ControllerOk(r, p) {
      MoveKeepsController(s, c, pane, p);
    }
  }

  lemma SweepKeepsInv(s: State, now: int)
    requires Inv(s)
    ensures Inv(Sweep(s, now))
  {
    var r := Sweep(s, now);
    forall c | c in r.channels ensures ChannelOk(r, c) && WriterOk(r, c) {
      assert ChannelOk(s, c) && WriterOk(s, c);
    }
    forall u | u in r.viewers ensures ViewerOk(r, u) {
      assert ViewerOk(s, u);
    }
    forall p | p in r.controller ensures ControllerOk(r, p) {
      assert ControllerOk(s, p);
    }
  }

  lemma MarkStaleKeepsChannel(s: State, now: int, c: Channel)
    requires Inv(s) && c in s.channels
    ensures ChannelOk(MarkStale(s, now), c)
    ensures WriterOk(MarkStale(s, now), c)
  {
    assert ChannelOk(s, c) && WriterOk(s, c);
    assert ViewerOf(MarkStale(s, now), c) == MarkedViewer(s, s.channels[c].token, now);
  }

  lemma MarkStaleKeepsViewer(s: State, now: int, t: Token)
    requires Inv(s) && t in s.viewers
    ensures ViewerOk(MarkStale(s, now), t)
  {
    assert NoId in s.channels ==> ChannelOk(s, NoId);
    assert ViewerOk(s, t);
  }

  lemma MarkStaleKeepsController(s: State, now: int, p: Pane)
    requires Inv(s) && p in s.controller
    ensures ControllerOk(MarkStale(s, now), p)
  {
    assert ControllerOk(s, p);
    assert ViewerOf(MarkStale(s, now), s.controller[p]) == MarkedViewer(s, s.channels[s.controller[p]].token, now);
  }

  lemma MarkStaleKeepsInv(s: State, now: int)
    requires Inv(s)
    ensures Inv(MarkStale(s, now))
  {
    var r := MarkStale(s, now);
    forall c | c in r.channels ensures ChannelOk(r, c) && WriterOk(r, c) {
      MarkStaleKeepsChannel(s, now, c);
    }
    forall u | u in r.viewers ensures ViewerOk(r, u) {
      MarkStaleKeepsViewer(s, now, u);
    }
    forall p | p in r.controller ensures ControllerOk(r, p) {
      MarkStaleKeepsController(s, now, p);
    }
  }

  /** Giving a viewer another PTY, or none, is harmless unless it leaves a controller without one that takes input. */
  lemma SetBridgeKeepsInv(s: State, c: Channel, pty: Pty, readOnly: bool)
    requires Inv(s) && c in s.channels
    requires readOnly ==> s.channels[c].readOnly
    requires pty == Writing || !Controls(s, c, ViewerOf(s, c).paneId)
    ensures Inv(SetBridge(s, c, pty, readOnly))
  {
    var r := SetBridge(s, c, pty, readOnly);
    assert ChannelOk(s, c);
    forall d | d in r.channels ensures ChannelOk(r, d) && WriterOk(r, d) {
      assert ChannelOk(s, d) && WriterOk(s, d);
    }
    forall u | u in r.viewers ensures ViewerOk(r, u) {
      assert ViewerOk(s, u);
    }
    forall p | p in r.controller ensures ControllerOk(r, p) {
      assert ControllerOk(s, p) && ChannelOk(s, s.controller[p]);
    }
  }

  lemma PromoteKeepsInv(s: State, next: Option<Channel>, started: bool)
    requires Inv(s) && s.promotion.Some?
    requires next.Some? ==> Candidate(s, s.promotion.value, next.value)
    ensures Inv(Promote(s, next, started))
  {
    var done := s.(promotion := None);
    SetPromotionKeepsInv(s, None);
    if next.Some? {
      assert ChannelOk(done, next.value);
      SetBridgeKeepsInv(done, next.value, if started then Writing else NoPty,
                        if started then false else ViewerOf(s, next.value).readOnly);
      if started {
        InstallKeepsInv(ReplaceBridge(done, next.value, false, true), s.promotion.value, next.value);
      }
    }
  }

  /** A viewer with a PTY that takes input may become the controller of its pane when the pane has none. */
  lemma InstallKeepsInv(s: State, pane: Pane, c: Channel)
    requires Inv(s) && s.promotion.None? && c in s.channels
    requires ViewerOf(s, c).pty == Writing && !ViewerOf(s, c).readOnly && ViewerOf(s, c).paneId == pane
    requires pane !in s.controller
    ensures Inv(SetReadOnly(s, c, false).(controller := s.controller[pane := c]))
  {
    var r := SetReadOnly(s, c, false).(controller := s.controller[pane := c]);
    forall d | d in r.channels ensures ChannelOk(r, d) && WriterOk(r, d) {
      assert ChannelOk(s, d) && WriterOk(s, d);
    }
    forall u | u in r.viewers ensures ViewerOk(r, u) {
      assert ViewerOk(s, u);
    }
    forall p | p in r.controller ensures ControllerOk(r, p) {
      assert p in s.controller ==> ControllerOk(s, p);
    }
  }

  lemma OrphanKeepsInv(s: State, pane: Pane, current: Channel, pty: Pty, readOnly: bool)
    requires Inv(s) && s.promotion.None? && current in s.channels && Controls(s, current, pane)
    ensures Inv(Orphan(SetBridge(s, current, pty, readOnly), pane, current))
  {
    var r := Orphan(SetBridge(s, current, pty, readOnly), pane, current);
    assert ControllerOk(s, pane) && ChannelOk(s, current);
    forall d | d in r.channels ensures ChannelOk(r, d) && WriterOk(r, d) {
      assert ChannelOk(s, d) && WriterOk(s, d);
    }
    forall u | u in r.viewers ensures ViewerOk(r, u) {
      assert ViewerOk(s, u);
    }
    forall p | p in r.controller ensures ControllerOk(r, p) {
      assert ControllerOk(s, p) && ChannelOk(s, s.controller[p]);
    }
  }

  lemma GrantKeepsChannel(s: State, pane: Pane, c: Channel, d: Channel)
    requires Inv(s) && c in s.channels && ViewerOf(s, c).paneId == pane
    requires d in s.channels
    ensures ChannelOk(Grant(s, pane, c), d)
    ensures WriterOk(Grant(s, pane, c), d)
  {
    assert ChannelOk(s, d) && WriterOk(s, d);
    assert ViewerOf(Grant(s, pane, c), d) == GrantedViewer(s, pane, c, s.channels[d].token);
  }

  lemma GrantKeepsController(s: State, pane: Pane, c: Channel, p: Pane)
    requires Inv(s) && c in s.channels && ViewerOf(s, c).paneId == pane
    requires ViewerOf(s, c).pty == Writing
    requires p in Grant(s, pane, c).controller
    ensures ControllerOk(Grant(s, pane, c), p)
  {
    var d := if p == pane then c else s.controller[p];
    assert p != pane ==> ControllerOk(s, p);
    assert ViewerOf(Grant(s, pane, c), d) == GrantedViewer(s, pane, c, s.channels[d].token);
  }

  lemma GrantKeepsViewer(s: State, pane: Pane, c: Channel, t: Token)
    requires Inv(s) && t in s.viewers
    ensures ViewerOk(Grant(s, pane, c), t)
  {
    assert ViewerOk(s, t);
  }

  lemma GrantKeepsInv(s: State, pane: Pane, c: Channel)
    requires Inv(s) && s.promotion.None? && c in s.channels && ViewerOf(s, c).paneId == pane
    requires ViewerOf(s, c).pty == Writing
    ensures Inv(Grant(s, pane, c))
  {
    var r := Grant(s, pane, c);
    forall d | d in r.channels ensures ChannelOk(r, d) && WriterOk(r, d) {
      GrantKeepsChannel(s, pane, c, d);
    }
    forall u | u in r.viewers ensures ViewerOk(r, u) {
      GrantKeepsViewer(s, pane, c, u);
    }
    forall p | p in r.controller ensures ControllerOk(r, p) {
      GrantKeepsController(s, pane, c, p);
    }
  }

  lemma BridgesCommute(s: State, c: Channel, current: Channel, b1: Pty, ro1: bool, b2: Pty, ro2: bool)
    requires Inv(s) && c in s.channels && current in s.channels && c != current
    ensures s.channels[c].token != s.channels[current].token
    ensures SetBridge(SetBridge(s, current, b1, ro1), c, b2, ro2) ==
            SetBridge(SetBridge(s, c, b2, ro2), current, b1, ro1)
  {
    assert ChannelOk(s, c) && ChannelOk(s, current);
    assert SetBridge(SetBridge(s, current, b1, ro1), c, b2, ro2).viewers
        == SetBridge(SetBridge(s, c, b2, ro2), current, b1, ro1).viewers;
  }

  lemma SetBridgeOverwrites(s: State, c: Channel, b1: Pty, ro1: bool, b2: Pty, ro2: bool)
    requires c in s.channels
    ensures SetBridge(SetBridge(s, c, b1, ro1), c, b2, ro2) == SetBridge(s, c, b2, ro2)
  {
    assert SetBridge(SetBridge(s, c, b1, ro1), c, b2, ro2).viewers == SetBridge(s, c, b2, ro2).viewers;
  }

  lemma OrphanShowsInNoViewer(s: State, pane: Pane, current: Channel)
    requires current in s.channels
    ensures
      var o := Orphan(s, pane, current);
      && o.viewers == s.viewers && o.channels.Keys == s.channels.Keys
      && (forall t {:trigger IsAttached(o, t)} :: t in s.viewers ==> IsAttached(o, t) == IsAttached(s, t))
      && (forall d {:trigger ViewerOf(o, d)} :: ViewerOf(o, d) == ViewerOf(s, d))
  {
  }

  /** Granting overwrites the controller of the pane and the role of every channel on it. */
  lemma GrantForgetsOrphan(s: State, pane: Pane, c: Channel, current: Channel)
    requires current in s.channels && ViewerOf(s, current).paneId == pane
    ensures Grant(Orphan(s, pane, current), pane, c) == Grant(s, pane, c)
  {
    var o := Orphan(s, pane, current);
    OrphanShowsInNoViewer(s, pane, current);
    GrantSameViewers(s, o, pane, c);
    GrantSameChannels(s, o, pane, c);
    assert o.controller[pane := c] == s.controller[pane := c];
  }

  lemma GrantSameViewers(s: State, o: State, pane: Pane, c: Channel)
    requires o.viewers == s.viewers
    requires forall t {:trigger IsAttached(o, t)} :: t in s.viewers ==> IsAttached(o, t) == IsAttached(s, t)
    ensures Grant(o, pane, c).viewers == Grant(s, pane, c).viewers
  {
    forall t | t in s.viewers ensures GrantedViewer(o, pane, c, t) == GrantedViewer(s, pane, c, t) {
      assert IsAttached(o, t) == IsAttached(s, t);
    }
  }

  lemma GrantSameChannels(s: State, o: State, pane: Pane, c: Channel)
    requires o.channels.Keys == s.channels.Keys
    requires forall d {:trigger ViewerOf(o, d)} :: ViewerOf(o, d) == ViewerOf(s, d)
    requires forall d :: d in s.channels ==>
               o.channels[d].token == s.channels[d].token
               && (ViewerOf(s, d).paneId != pane ==> o.channels[d] == s.channels[d])
    ensures Grant(o, pane, c).channels == Grant(s, pane, c).channels
  {
    forall d | d in s.channels ensures GrantedLink(o, pane, c, d) == GrantedLink(s, pane, c, d) {
      assert ViewerOf(o, d) == ViewerOf(s, d);
    }
  }

  lemma OrphanCommutes(s: State, pane: Pane, c: Channel, current: Channel, pty: Pty, readOnly: bool)
    requires c in s.channels && current in s.channels && s.channels[c].token != s.channels[current].token
    ensures SetBridge(Orphan(s, pane, current), c, pty, readOnly) ==
            Orphan(SetBridge(s, c, pty, readOnly), pane, current)
  {
  }

  lemma HandOverKeepsInv(s: State, pane: Pane, c: Channel, current: Channel)
    requires Inv(s) && s.promotion.None? && c in s.channels && current in s.channels && c != current
    requires ViewerOf(s, c).paneId == pane && Controls(s, current, pane)
    ensures Inv(Grant(SetBridge(SetBridge(s, current, Reading, true), c, Writing, false), pane, c))
  {
    assert ControllerOk(s, pane) && ChannelOk(s, c) && ChannelOk(s, current);
    var demoted := SetBridge(s, current, Reading, true);
    var orphaned := Orphan(demoted, pane, current);
    OrphanKeepsInv(s, pane, current, Reading, true);
    SetBridgeKeepsInv(orphaned, c, Writing, false);
    OrphanCommutes(demoted, pane, c, current, Writing, false);
    GrantForgetsOrphan(SetBridge(demoted, c, Writing, false), pane, c, current);
    GrantKeepsInv(SetBridge(orphaned, c, Writing, false), pane, c);
  }

  lemma HandBackKeepsInv(s: State, pane: Pane, c: Channel, current: Channel, restored: bool)
    requires Inv(s) && s.promotion.None? && c in s.channels && current in s.channels && c != current
    requires ViewerOf(s, c).paneId == pane && Controls(s, current, pane)
    ensures
      var s2 := SetBridge(SetBridge(s, current, Reading, true), c, NoPty, ViewerOf(s, c).readOnly);
      && (restored ==> Inv(SetBridge(s2, current, Writing, false)))
      && (!restored ==> Inv(Orphan(SetBridge(s2, current, NoPty, true), pane, current)))
  {
    var ro := ViewerOf(s, c).readOnly;
    assert ChannelOk(s, c);
    SetBridgeKeepsInv(s, c, NoPty, ro);
    BridgesCommute(s, c, current, Reading, true, NoPty, ro);
    var s1 := SetBridge(s, c, NoPty, ro);
    if restored {
      SetBridgeOverwrites(s1, current, Reading, true, Writing, false);
      SetBridgeKeepsInv(s1, current, Writing, false);
    } else {
      SetBridgeOverwrites(s1, current, Reading, true, NoPty, true);
      OrphanKeepsInv(s1, pane, current, NoPty, true);
    }
  }

  lemma TakeControlFromKeepsInv(s: State, c: Channel, answers: ControlAnswers)
    requires Inv(s) && s.promotion.None? && c in s.channels
    requires ViewerOf(s, c).paneId in s.controller && s.controller[ViewerOf(s, c).paneId] != c
    ensures Inv(TakeControl(s, c, answers).0)
  {
    var pane := ViewerOf(s, c).paneId;
    var current := s.controller[pane];
    assert ControllerOk(s, pane);
    BridgesCommute(s, c, current, Reading, true, Writing, false);
    if !answers.demoted {
      OrphanKeepsInv(s, pane, current, NoPty, ViewerOf(s, current).readOnly);
    } else if answers.promoted {
      HandOverKeepsInv(s, pane, c, current);
    } else {
      HandBackKeepsInv(s, pane, c, current, answers.restored);
    }
  }

  lemma TakeControlKeepsInv(s: State, c: Channel, answers: ControlAnswers)
    requires Inv(s) && s.promotion.None?
    ensures Inv(TakeControl(s, c, answers).0)
  {
    if c in s.channels {
      assert ChannelOk(s, c);
      var pane := ViewerOf(s, c).paneId;
      if pane in s.controller {
        assert ControllerOk(s, pane);
        if s.controller[pane] != c {
          TakeControlFromKeepsInv(s, c, answers);
        }
      } else {
        SetBridgeKeepsInv(s, c, if answers.promoted then Writing else NoPty,
                          if answers.promoted then false else ViewerOf(s, c).readOnly);
        if answers.promoted {
          GrantKeepsInv(ReplaceBridge(s, c, false, true), pane, c);
        }
      }
    }
  }

  lemma SupersedeKeepsInv(s: State, t: Token, now: int)
    requires Inv(s) && t in s.viewers
    ensures
      var r := Supersede(s, t, now);
      && Inv(r)
      && r.channels.Keys <= s.channels.Keys && r.viewers.Keys == s.viewers.Keys && r.promotion == s.promotion
      && r.viewers[t].channelId == NoId
  {
    var c := s.viewers[t].channelId;
    assert ViewerOk(s, t);
    assert c in s.channels ==> ChannelOk(s, c);
    if c in s.channels {
      UnlinkKeepsInv(s, c, false, now);
    }
  }

  lemma ReleaseKeepsInv(s: State, pane: Pane)
    requires Inv(s)
    ensures Inv(ReleaseStaleController(s, pane))
  {
    var r := ReleaseStaleController(s, pane);
    forall c | c in r.channels ensures ChannelOk(r, c) && WriterOk(r, c) {
      assert ChannelOk(s, c) && WriterOk(s, c);
    }
    forall u | u in r.viewers ensures ViewerOk(r, u) {
      assert ViewerOk(s, u);
    }
    forall p | p in r.controller ensures ControllerOk(r, p) {
      assert ControllerOk(s, p);
    }
  }

  lemma PreparedKeepsInv(s: State, pane: Pane, opts: AttachOptions, now: int)
    requires Inv(s)
    ensures
      var r := Prepared(s, pane, opts, now);
      && Inv(r)
      && r.channels.Keys <= s.channels.Keys && r.viewers.Keys == s.viewers.Keys && r.promotion == s.promotion
      && (IsResume(s, opts) ==> r.viewers[opts.resumeToken].channelId == NoId)
  {
    if IsResume(s, opts) {
      SupersedeKeepsInv(s, opts.resumeToken, now);
      ReleaseKeepsInv(Supersede(s, opts.resumeToken, now), pane);
    } else {
      ReleaseKeepsInv(s, pane);
    }
  }

  ghost predicate UnusedToken(s: State, token: Token) {
    forall d :: d in s.channels ==> s.channels[d].token != token
  }

  lemma DetachedTokenIsUnused(s: State, token: Token)
    requires Inv(s)
    requires token in s.viewers ==> s.viewers[token].channelId == NoId
    ensures UnusedToken(s, token)
  {
    forall d | d in s.channels ensures s.channels[d].token != token {
      assert ChannelOk(s, d);
    }
  }

  /** Putting an attached viewer under a token that no attached viewer uses. */
  lemma InsertKeepsInv(s: State, c: Channel, pane: Pane, opts: AttachOptions, token: Token)
    requires Inv(s) && s.promotion.None? && c != NoId && c !in s.channels && token != NoId
    requires token in s.viewers ==> s.viewers[token].channelId == NoId
    ensures Inv(Insert(s, c, pane, opts, token))
  {
    var r := Insert(s, c, pane, opts, token);
    DetachedTokenIsUnused(s, token);
    forall d | d in r.channels ensures ChannelOk(r, d) && WriterOk(r, d) {
      assert d != c ==> ChannelOk(s, d) && WriterOk(s, d);
    }
    forall u | u in r.viewers ensures ViewerOk(r, u) {
      assert u != token ==> ViewerOk(s, u);
    }
    forall p | p in r.controller ensures ControllerOk(r, p) {
      assert p in s.controller ==> ControllerOk(s, p);
    }
  }

  /** A new PTY makes it irrelevant whether the viewer still had its old one. */
  lemma InsertForgetsBridge(s: State, c: Channel, pane: Pane, opts: AttachOptions, token: Token)
    requires token in s.viewers
    ensures Insert(DropBridge(s, token), c, pane, opts, token) == Insert(s, c, pane, opts, token)
  {
    assert Insert(DropBridge(s, token), c, pane, opts, token).viewers == Insert(s, c, pane, opts, token).viewers;
  }

  lemma DropBridgeKeepsInv(s: State, token: Token)
    requires Inv(s) && token in s.viewers && s.viewers[token].channelId == NoId
    ensures Inv(DropBridge(s, token))
  {
    var r := DropBridge(s, token);
    DetachedTokenIsUnused(s, token);
    forall d | d in r.channels ensures ChannelOk(r, d) && WriterOk(r, d) {
      assert ChannelOk(s, d) && WriterOk(s, d);
    }
    forall u | u in r.viewers ensures ViewerOk(r, u) {
      assert ViewerOk(s, u);
    }
    forall p | p in r.controller ensures ControllerOk(r, p) {
      assert ControllerOk(s, p);
    }
  }

  lemma AttachKeepsInv(s: State, c: Channel, pane: Pane, opts: AttachOptions, newToken: Token, answers: AttachAnswers,
                       closedEarly: bool, now: int)
    requires Inv(s) && s.promotion.None? && c != NoId && newToken != NoId && newToken !in s.viewers
    ensures Inv(Attach(s, c, pane, opts, newToken, answers, closedEarly, now).0)
  {
    if AttachCheck(s, c, pane, opts, answers).None? {
      PreparedKeepsInv(s, pane, opts, now);
      var s1 := Prepared(s, pane, opts, now);
      if answers.started {
        InsertKeepsInv(s1, c, pane, opts, if opts.resumeToken == NoId then newToken else opts.resumeToken);
      } else if closedEarly && IsResume(s1, opts) {
        DropBridgeKeepsInv(s1, opts.resumeToken);
      }
    }
  }

  lemma InvIsLinked(s: State)
    requires Inv(s)
    ensures Linked(s)
  {
    forall c | c in s.channels ensures HasViewer(s, c) {
      assert ChannelOk(s, c);
    }
  }

  lemma InvIsAllLinked(s: State)
    requires Inv(s)
    ensures AllLinked(s)
  {
    forall c | c in s.channels ensures ChannelLinked(s, c) {
      assert ChannelOk(s, c);
    }
  }

  lemma BridgeKeepsLinks(s: State, c: Channel, pty: Pty, readOnly: bool)
    requires AllLinked(s) && c in s.channels
    ensures AllLinked(SetBridge(s, c, pty, readOnly))
  {
    var r := SetBridge(s, c, pty, readOnly);
    forall d | d in r.channels ensures ChannelLinked(r, d) {
      assert ChannelLinked(s, c) && ChannelLinked(s, d);
    }
  }

  lemma StepKeepsInv(s: State, e: Event)
    requires Inv(s)
    ensures Step(s, e).Some? && Inv(Step(s, e).value)
  {
    InvIsLinked(s);
    if Enabled(s, e) {
      match e
      case AttachEvent(c, p, opts, newToken, answers, early, now) =>
        AttachKeepsInv(s, c, p, opts, newToken, answers, early, now);
      case DetachEvent(c, now) => DetachKeepsInv(s, c, now);
      case PromoteEvent(next, started) => PromoteKeepsInv(s, next, started);
      case FocusEvent(c, p) => MoveKeepsInv(s, c, p);
      case ControlEvent(c, answers) => TakeControlKeepsInv(s, c, answers);
      case StaleEvent(now) => MarkStaleKeepsInv(s, now);
      case SweepEvent(now) => SweepKeepsInv(s, now);
    }
  }

  // ---------------------------------------------------------------------------------------------
  // What holds over every run
  // ---------------------------------------------------------------------------------------------

  /** No run crashes, and every state it reaches satisfies the invariant. */
  lemma {:induction false} RunKeepsInv(events: seq<Event>)
    ensures Run(Init, events).Some? && Inv(Run(Init, events).value)
    decreases |events|
  {
    if events != [] {
      RunKeepsInv(events[..|events| - 1]);
      StepKeepsInv(Run(Init, events[..|events| - 1]).value, events[|events| - 1]);
    }
  }

  /** A pane never has two live writers, and its only one is its recorded controller. */
  lemma OneWriterPerPane(events: seq<Event>, c: Channel, d: Channel)
    ensures Run(Init, events).Some?
    ensures
      var s := Run(Init, events).value;
      LiveWriter(s, c) && LiveWriter(s, d) && ViewerOf(s, c).paneId == ViewerOf(s, d).paneId ==>
        c == d && Controls(s, c, ViewerOf(s, c).paneId)
  {
    RunKeepsInv(events);
    assert WriterOk(Run(Init, events).value, c) && WriterOk(Run(Init, events).value, d);
  }

  /**
   Input from a live channel reaches a PTY exactly when that channel controls its pane, and that PTY is one
   that takes input.
   */
  lemma InputNeedsControl(events: seq<Event>, c: Channel)
    ensures Run(Init, events).Some? && Inv(Run(Init, events).value)
    ensures
      var s := Run(Init, events).value;
      c in s.channels && !ViewerOf(s, c).stale ==>
        && (SendInput(s, c).Ok? <==> Controls(s, c, ViewerOf(s, c).paneId))
        && (SendInput(s, c).Ok? ==> ViewerOf(s, c).pty == Writing)
  {
    RunKeepsInv(events);
    var s := Run(Init, events).value;
    if c in s.channels && !ViewerOf(s, c).stale {
      assert WriterOk(s, c);
      if ViewerOf(s, c).paneId in s.controller {
        assert ControllerOk(s, ViewerOf(s, c).paneId);
      }
    }
  }

  /** `c` is still attached through the same viewer, on the same pane unless it was moved. */
  ghost predicate Survives(s: State, r: State, c: Channel, moved: bool)
    requires c in s.channels
  {
    && c in r.channels
    && r.channels[c].token == s.channels[c].token
    && (!moved ==> ViewerOf(r, c).paneId == ViewerOf(s, c).paneId)
  }

  lemma LiveChannelSurvivesPreparation(s: State, c: Channel, pane: Pane, opts: AttachOptions, now: int)
    requires Inv(s) && c in s.channels
    requires IsResume(s, opts) ==> s.viewers[opts.resumeToken].channelId != c
    ensures Survives(s, Prepared(s, pane, opts, now), c, false)
  {
    assert ChannelOk(s, c);
    if IsResume(s, opts) && s.viewers[opts.resumeToken].channelId in s.channels {
      assert ChannelOk(s, s.viewers[opts.resumeToken].channelId);
    }
  }

  lemma InsertMovesNobody(s: State, c: Channel, d: Channel, pane: Pane, opts: AttachOptions, token: Token)
    requires HasViewer(s, c) && c != d && s.channels[c].token != token
    ensures Survives(s, Insert(s, d, pane, opts, token), c, false)
    ensures token in s.viewers ==> Survives(s, DropBridge(s, token), c, false)
  {
  }

  /** The token of an attach is not that of a live channel. */
  lemma LiveTokenIsTaken(s: State, c: Channel, d: Channel, pane: Pane, opts: AttachOptions, newToken: Token,
                         answers: AttachAnswers)
    requires Inv(s) && c in s.channels && !ViewerOf(s, c).stale && newToken !in s.viewers
    requires AttachCheck(s, d, pane, opts, answers).None?
    ensures c != d && s.channels[c].token != (if opts.resumeToken == NoId then newToken else opts.resumeToken)
    ensures IsResume(s, opts) ==> s.viewers[opts.resumeToken].channelId != c
  {
    assert ChannelOk(s, c) && (IsResume(s, opts) ==> ViewerOk(s, opts.resumeToken));
  }

  lemma LiveChannelSurvivesAttach(s: State, c: Channel, d: Channel, pane: Pane, opts: AttachOptions, newToken: Token,
                                  answers: AttachAnswers, early: bool, now: int)
    requires Inv(s) && c in s.channels && !ViewerOf(s, c).stale && newToken !in s.viewers
    ensures Survives(s, Attach(s, d, pane, opts, newToken, answers, early, now).0, c, false)
  {
    if AttachCheck(s, d, pane, opts, answers).None? {
      LiveTokenIsTaken(s, c, d, pane, opts, newToken, answers);
      LiveChannelSurvivesPreparation(s, c, pane, opts, now);
      PreparedKeepsInv(s, pane, opts, now);
      var s1 := Prepared(s, pane, opts, now);
      assert ChannelOk(s1, c);
      InsertMovesNobody(s1, c, d, pane, opts, if opts.resumeToken == NoId then newToken else opts.resumeToken);
    }
  }

  lemma BridgeChangeMovesNobody(s: State, c: Channel, d: Channel, pty: Pty, readOnly: bool)
    requires c in s.channels && d in s.channels && HasViewer(s, c) && HasViewer(s, d)
    ensures HasViewer(SetBridge(s, d, pty, readOnly), c)
    ensures Survives(s, SetBridge(s, d, pty, readOnly), c, false)
  {
  }

  lemma GrantMovesNobody(s: State, pane: Pane, d: Channel, c: Channel)
    requires c in s.channels && HasViewer(s, c)
    ensures Survives(s, Grant(s, pane, d), c, false)
  {
    assert ViewerOf(Grant(s, pane, d), c) == GrantedViewer(s, pane, d, s.channels[c].token);
  }

  lemma OrphanMovesNobody(s: State, pane: Pane, current: Channel, c: Channel)
    requires c in s.channels && HasViewer(s, c) && current in s.channels
    ensures Survives(s, Orphan(s, pane, current), c, false)
  {
  }

  lemma ReplaceMovesNobody(s: State, c: Channel, d: Channel, readOnly: bool, started: bool)
    requires c in s.channels && d in s.channels && HasViewer(s, c) && HasViewer(s, d)
    ensures
      var r := ReplaceBridge(s, d, readOnly, started);
      r.channels == s.channels && r.viewers.Keys == s.viewers.Keys && Survives(s, r, c, false)
  {
    BridgeChangeMovesNobody(s, c, d, if started then PtyFor(readOnly) else NoPty,
                            if started then readOnly else ViewerOf(s, d).readOnly);
  }

  lemma ChannelSurvivesTakeControl(s: State, c: Channel, d: Channel, answers: ControlAnswers)
    requires Inv(s) && c in s.channels
    ensures Survives(s, TakeControl(s, d, answers).0, c, false)
  {
    assert ChannelOk(s, c);
    if d in s.channels && !Controls(s, d, ViewerOf(s, d).paneId) {
      assert ChannelOk(s, d);
      var pane := ViewerOf(s, d).paneId;
      if pane in s.controller {
        assert ControllerOk(s, pane);
        ChannelSurvivesTransfer(s, c, d, s.controller[pane], answers);
      } else {
        var s1 := ReplaceBridge(s, d, false, answers.promoted);
        ReplaceMovesNobody(s, c, d, false, answers.promoted);
        GrantMovesNobody(s1, pane, d, c);
      }
    }
  }

  lemma ChannelSurvivesTransfer(s: State, c: Channel, d: Channel, current: Channel, answers: ControlAnswers)
    requires c in s.channels && HasViewer(s, c) && d in s.channels && HasViewer(s, d) && HasViewer(s, current)
    requires Controls(s, current, ViewerOf(s, d).paneId) && current != d
    ensures Survives(s, TakeControl(s, d, answers).0, c, false)
  {
    var pane := ViewerOf(s, d).paneId;
    var s1 := ReplaceBridge(s, current, true, answers.demoted);
    ReplaceMovesNobody(s, c, current, true, answers.demoted);
    if !answers.demoted {
      OrphanMovesNobody(s1, pane, current, c);
    } else {
      var s2 := ReplaceBridge(s1, d, false, answers.promoted);
      ReplaceMovesNobody(s1, c, d, false, answers.promoted);
      if answers.promoted {
        GrantMovesNobody(s2, pane, d, c);
      } else {
        var s3 := ReplaceBridge(s2, current, false, answers.restored);
        ReplaceMovesNobody(s2, c, current, false, answers.restored);
        OrphanMovesNobody(s3, pane, current, c);
      }
    }
  }

  lemma ChannelSurvivesDetach(s: State, c: Channel, d: Channel, now: int)
    requires Inv(s) && c in s.channels && c != d
    ensures Survives(s, Detach(s, d, now), c, false)
  {
    assert ChannelOk(s, c);
    assert d in s.channels ==> ChannelOk(s, d);
  }

  /** Nothing but its own detach takes a live channel away, and only its own focus moves it. */
  lemma LiveChannelsSurvive(s: State, e: Event, c: Channel)
    requires Inv(s) && c in s.channels && !ViewerOf(s, c).stale
    requires !(e.DetachEvent? && e.channel == c)
    ensures Step(s, e).Some? && Inv(Step(s, e).value)
    ensures Survives(s, Step(s, e).value, c, e.FocusEvent? && e.channel == c)
  {
    StepKeepsInv(s, e);
    assert ChannelOk(s, c);
    if Enabled(s, e) {
      match e
      case AttachEvent(d, p, opts, newToken, answers, early, now) =>
        LiveChannelSurvivesAttach(s, c, d, p, opts, newToken, answers, early, now);
      case DetachEvent(d, now) => ChannelSurvivesDetach(s, c, d, now);
      case PromoteEvent(_, _) =>
      case FocusEvent(d, _) => assert ChannelOk(s, d);
      case ControlEvent(d, answers) => ChannelSurvivesTakeControl(s, c, d, answers);
      case StaleEvent(_) =>
      case SweepEvent(_) =>
    }
  }

  lemma MoveNeverGrantsControl(s: State, c: Channel, d: Channel, pane: Pane)
    requires Inv(s) && c in s.channels && d in s.channels && s.channels[c].readOnly
    ensures c in MoveAuthority(s, d, pane).channels && MoveAuthority(s, d, pane).channels[c].readOnly
  {
    assert ViewerOf(s, d).paneId in s.controller ==> ControllerOk(s, ViewerOf(s, d).paneId);
    assert pane in s.controller ==> ControllerOk(s, pane);
  }

  lemma AttachNeverGrantsControl(s: State, c: Channel, d: Channel, pane: Pane, opts: AttachOptions, newToken: Token,
                                 answers: AttachAnswers, early: bool, now: int)
    requires Inv(s) && c in s.channels && s.channels[c].readOnly
    requires c in Attach(s, d, pane, opts, newToken, answers, early, now).0.channels
    ensures Attach(s, d, pane, opts, newToken, answers, early, now).0.channels[c].readOnly
  {
  }

  lemma TakeControlGrantsOnlyItself(s: State, c: Channel, d: Channel, answers: ControlAnswers)
    requires Inv(s) && c in s.channels && s.channels[c].readOnly && c != d
    ensures c in TakeControl(s, d, answers).0.channels && TakeControl(s, d, answers).0.channels[c].readOnly
  {
  }

  /** A read-only channel becomes writable only by asking for control or by inheriting it. */
  lemma ControlIsGranted(s: State, e: Event, c: Channel)
    requires Inv(s) && c in s.channels && s.channels[c].readOnly
    requires !(e.ControlEvent? && e.channel == c)
    requires !(e.PromoteEvent? && e.next == Some(c) && e.started)
    ensures Step(s, e).Some?
    ensures c in Step(s, e).value.channels ==> Step(s, e).value.channels[c].readOnly
  {
    InvIsLinked(s);
    if Enabled(s, e) {
      match e
      case AttachEvent(d, p, opts, newToken, answers, early, now) =>
        if c in Apply(s, e).channels {
          AttachNeverGrantsControl(s, c, d, p, opts, newToken, answers, early, now);
        }
      case DetachEvent(_, _) =>
      case PromoteEvent(_, _) =>
      case FocusEvent(d, p) => MoveNeverGrantsControl(s, c, d, p);
      case ControlEvent(d, answers) => TakeControlGrantsOnlyItself(s, c, d, answers);
      case StaleEvent(_) =>
      case SweepEvent(_) =>
    }
  }

  /** When every viewer is stale, a resume finds no controller in its way. */
  lemma PreparedAfterDrop(s: State, c: Channel, opts: AttachOptions, now: int, later: int)
    requires Inv(s) && c in s.channels && opts.resumeToken == s.channels[c].token
    ensures Inv(MarkStale(s, now))
    ensures ViewerOf(s, c).paneId !in Prepared(MarkStale(s, now), ViewerOf(s, c).paneId, opts, later).controller
  {
    var m := MarkStale(s, now);
    var pane := ViewerOf(s, c).paneId;
    MarkStaleKeepsInv(s, now);
    assert ChannelOk(s, c) && ViewerOk(s, opts.resumeToken);
    SupersedeKeepsInv(m, opts.resumeToken, later);
    var s1 := Supersede(m, opts.resumeToken, later);
    if pane in s1.controller {
      var k := s1.controller[pane];
      assert ControllerOk(s1, pane);
      assert ChannelOk(s, k) && ChannelOk(m, k) && ChannelOk(m, c);
      assert ViewerOf(m, k) == MarkedViewer(s, s.channels[k].token, now);
    }
  }

  /** After the connection dropped, whoever resumes first on a pane controls it. */
  lemma FirstResumeGetsControl(s: State, c: Channel, d: Channel, opts: AttachOptions, newToken: Token,
                               answers: AttachAnswers, early: bool, now: int, later: int)
    requires Inv(s) && c in s.channels && d !in s.channels && d != NoId
    requires opts.resumeToken == s.channels[c].token && opts.sessionId == ViewerOf(s, c).sessionId
    requires SizeInRange(opts) && answers.captured && answers.started
    ensures
      var (r, result) := Attach(MarkStale(s, now), d, ViewerOf(s, c).paneId, opts, newToken, answers, early, later);
      && result == Ok(Attached(false, s.channels[c].token, true))
      && Controls(r, d, ViewerOf(s, c).paneId)
      && c !in r.channels
      && d in r.channels && r.channels[d].token == s.channels[c].token
  {
    assert ChannelOk(s, c) && ViewerOk(s, s.channels[c].token);
    PreparedAfterDrop(s, c, opts, now, later);
    assert MarkStale(s, now).viewers[s.channels[c].token] == MarkedViewer(s, s.channels[c].token, now);
  }

  /**
   A channel that could write when the connection was lost still can after a new viewer has attached to its
   pane and controls it; what tells the two apart is that the old one is stale.
   */
  lemma StaleWriterStays(s: State, c: Channel, d: Channel, opts: AttachOptions, newToken: Token,
                         answers: AttachAnswers, early: bool, now: int, later: int)
    requires Inv(s) && c in s.channels && !s.channels[c].readOnly && d !in s.channels && d != NoId
    requires opts.resumeToken == NoId && SizeInRange(opts) && answers.started && newToken !in s.viewers
    ensures
      var pane := ViewerOf(s, c).paneId;
      var r := Attach(MarkStale(s, now), d, pane, opts, newToken, answers, early, later).0;
      && c in r.channels && !r.channels[c].readOnly && ViewerOf(r, c).paneId == pane && ViewerOf(r, c).stale
      && d in r.channels && !r.channels[d].readOnly && ViewerOf(r, d).paneId == pane && Controls(r, d, pane)
  {
    var m := MarkStale(s, now);
    var pane := ViewerOf(s, c).paneId;
    MarkStaleKeepsInv(s, now);
    assert ChannelOk(s, c) && ChannelOk(m, c);
    assert ViewerOf(m, c) == MarkedViewer(s, s.channels[c].token, now);
    if pane in m.controller {
      assert ControllerOk(m, pane) && ChannelOk(s, m.controller[pane]);
      assert ViewerOf(m, m.controller[pane]) == MarkedViewer(s, s.channels[m.controller[pane]].token, now);
    }
  }

  /** After any run a channel that can write controls its pane or is stale. */
  lemma WriterControlsOrIsStale(events: seq<Event>, c: Channel)
    ensures Run(Init, events).Some?
    ensures
      var s := Run(Init, events).value;
      c in s.channels && !s.channels[c].readOnly ==>
        Controls(s, c, ViewerOf(s, c).paneId) || ViewerOf(s, c).stale
  {
    RunKeepsInv(events);
    assert WriterOk(Run(Init, events).value, c);
  }

  /** A failed demotion makes the channel read-only and leaves its viewer's own flag as it was. */
  lemma FailedDemotionSplitsFlags(s: State, c: Channel, answers: ControlAnswers)
    requires Inv(s) && c in s.channels && !answers.demoted
    requires ViewerOf(s, c).paneId in s.controller && s.controller[ViewerOf(s, c).paneId] != c
    ensures
      var current := s.controller[ViewerOf(s, c).paneId];
      var r := TakeControl(s, c, answers).0;
      current in r.channels && r.channels[current].readOnly && !ViewerOf(r, current).readOnly
  {
    assert ControllerOk(s, ViewerOf(s, c).paneId) && ChannelOk(s, s.controller[ViewerOf(s, c).paneId]);
  }
}
