/**
 The terminal manager: the maps and viewer objects that terminal requests and the sweeper change in
 place. Each method is proved to do to them what the function of the same name in
 TerminalAuthority.dfy does to their value, so everything proved there about runs holds here.
 */
module Terminal {
  import opened Options
  import opened ViewerPty
  import A = TerminalAuthority
  import L = TerminalLoops
  import opened T = TerminalTokens
  import Text

  class Viewer {
    var channelId: Id
    var paneId: Id
    var sessionId: Id
    const resumeToken: Id
    var readOnly: bool
    var letterbox: bool
    var zoomApplied: bool
    var bridge: Bridge?
    var detachedAt: Option<int>
    var stale: bool
    var staleAt: Option<int>

    constructor (token: Id)
      ensures Value() == A.Viewer(NoId, NoId, NoId, token, false, false, A.NoPty, None, false, None)
      ensures bridge == null && !zoomApplied
    {
      resumeToken := token;
      channelId, paneId, sessionId, bridge := NoId, NoId, NoId, null;
      readOnly, letterbox, zoomApplied, stale := false, false, false, false;
      detachedAt, staleAt := None, None;
    }

    function Value(): A.Viewer
      reads this
    {
      A.Viewer(channelId, paneId, sessionId, resumeToken, readOnly, letterbox, PtyOf(bridge), detachedAt, stale,
               staleAt)
    }
  }

  function PtyOf(bridge: Bridge?): A.Pty {
    if bridge == null then A.NoPty else A.PtyFor(bridge.readOnly)
  }

  function PtySet(bridge: Bridge?): set<Bridge> {
    if bridge == null then {} else {bridge}
  }

  datatype FocusError =
    | ChannelNotFound
    | NoGroupedViewer
    | PaneRequired
    | StateUnreadable
    | UnzoomFailed
    | Restored(cause: FocusCause)
    | RollbackFailed(cause: FocusCause)

  function CauseOf(e: FocusError): Option<FocusCause> {
    match e
    case Restored(cause) => Some(cause)
    case RollbackFailed(cause) => Some(cause)
    case _ => Some(SelectFailed)
  }

  /** A PTY that was started for this channel and token, in this role. */
  predicate Serves(bridge: Bridge?, channelId: Id, token: Id, readOnly: bool) {
    && bridge != null && bridge.viewSession == ViewSessionName(channelId)
    && bridge.resumeToken == token && bridge.readOnly == readOnly
  }

  /** At most `token` was persisted, on `pane`. */
  predicate Stored(before: Tokens, after: Tokens, pane: Id, token: Id) {
    after == before || after == before + {(pane, token)}
  }

  predicate StoredTwice(before: Tokens, after: Tokens, pane: Id, token: Id, otherPane: Id, other: Id) {
    before <= after <= before + {(pane, token)} + {(otherPane, other)}
  }

  /** Nothing but white space. */
  predicate IsBlank(id: Id) {
    id.NoId? || Text.IsBlank(id.text)
  }

  /** The maps of the manager that are keyed by channel. */
  datatype ChannelMaps = ChannelMaps(
    viewer: map<Id, Viewer>,
    pane: map<Id, Id>,
    session: map<Id, Id>,
    pty: map<Id, bool>,
    perViewer: map<Id, bool>,
    readOnly: map<Id, bool>)

  /**
   The entries for one channel. An attached channel's viewer is the one under its token, and the
   other maps repeat what it knows; a channel that is not attached is in none of the maps.
   */
  ghost predicate EntryOk(byToken: map<Id, Viewer>, m: ChannelMaps, s: A.State, c: Id) {
    if c in s.channels then
      && s.channels[c].token in s.viewers && s.channels[c].token in byToken
      && c in m.viewer && m.viewer[c] == byToken[s.channels[c].token]
      && c in m.pane && m.pane[c] == A.ViewerOf(s, c).paneId
      && c in m.session && m.session[c] == A.ViewerOf(s, c).sessionId
      && c in m.pty && m.pty[c]
      && c in m.perViewer && m.perViewer[c]
      && c in m.readOnly && m.readOnly[c] == s.channels[c].readOnly
    else
      && c !in m.viewer && c !in m.pane && c !in m.session && c !in m.pty && c !in m.perViewer && c !in m.readOnly
  }

  /** The channel maps share one domain and agree with the viewers. */
  ghost predicate MapsOk(byToken: map<Id, Viewer>, m: ChannelMaps, s: A.State) {
    forall c {:trigger EntryOk(byToken, m, s, c)} :: EntryOk(byToken, m, s, c)
  }

  /** `m` after the pane and the role of one channel were written. */
  function PutMaps(m: ChannelMaps, c: Id, pane: Id, readOnly: bool): ChannelMaps {
    m.(pane := m.pane[c := pane], readOnly := m.readOnly[c := readOnly])
  }

  /** `r` is `s` with another viewer and another role for `c`. */
  ghost predicate Put(s: A.State, r: A.State, c: Id, v: A.Viewer, readOnly: bool) {
    && c in s.channels && s.channels[c].token in s.viewers
    && r.viewers == s.viewers[s.channels[c].token := v]
    && r.channels == s.channels[c := A.Link(s.channels[c].token, readOnly)]
  }

  lemma PutKeepsEntry(byToken: map<Id, Viewer>, m: ChannelMaps, s: A.State, r: A.State, c: Id, v: A.Viewer,
                      readOnly: bool, d: Id)
    requires EntryOk(byToken, m, s, c) && EntryOk(byToken, m, s, d)
    requires c != d && c in s.channels && d in s.channels ==> s.channels[c].token != s.channels[d].token
    requires Put(s, r, c, v, readOnly) && v.sessionId == A.ViewerOf(s, c).sessionId
    ensures EntryOk(byToken, PutMaps(m, c, v.paneId, readOnly), r, d)
  {
  }

  lemma TokensAreDistinct(s: A.State, c: Id, d: Id)
    requires A.AllLinked(s) && c in s.channels && d in s.channels && c != d
    ensures s.channels[c].token != s.channels[d].token
  {
    assert A.ChannelLinked(s, c) && A.ChannelLinked(s, d);
  }

  lemma PutKeepsMaps(byToken: map<Id, Viewer>, m: ChannelMaps, s: A.State, r: A.State, c: Id, v: A.Viewer,
                     readOnly: bool)
    requires A.AllLinked(s) && MapsOk(byToken, m, s)
    requires Put(s, r, c, v, readOnly) && v.sessionId == A.ViewerOf(s, c).sessionId
    ensures MapsOk(byToken, PutMaps(m, c, v.paneId, readOnly), r)
  {
    forall d ensures EntryOk(byToken, PutMaps(m, c, v.paneId, readOnly), r, d) {
      if c != d && d in s.channels {
        TokensAreDistinct(s, c, d);
      }
      assert EntryOk(byToken, m, s, c) && EntryOk(byToken, m, s, d);
      PutKeepsEntry(byToken, m, s, r, c, v, readOnly, d);
    }
  }

  function DropFrom(m: ChannelMaps, c: Id): ChannelMaps {
    ChannelMaps(m.viewer - {c}, m.pane - {c}, m.session - {c}, m.pty - {c}, m.perViewer - {c}, m.readOnly - {c})
  }

  /** Detaching one channel leaves the entries of the others alone. */
  lemma UnlinkKeepsEntry(byToken: map<Id, Viewer>, m: ChannelMaps, s: A.State, c: Id, keepPty: bool, now: int, d: Id)
    requires EntryOk(byToken, m, s, d) && c in s.channels && A.HasViewer(s, c)
    requires c != d && d in s.channels ==> s.channels[c].token != s.channels[d].token
    ensures EntryOk(byToken, DropFrom(m, c), A.Unlink(s, c, keepPty, now), d)
  {
  }

  lemma UnlinkKeepsMaps(byToken: map<Id, Viewer>, m: ChannelMaps, s: A.State, c: Id, keepPty: bool, now: int)
    requires A.AllLinked(s) && MapsOk(byToken, m, s) && c in s.channels
    ensures MapsOk(byToken, DropFrom(m, c), A.Unlink(s, c, keepPty, now))
  {
    forall d ensures EntryOk(byToken, DropFrom(m, c), A.Unlink(s, c, keepPty, now), d) {
      assert EntryOk(byToken, m, s, d) && A.ChannelLinked(s, c);
      if c != d && d in s.channels {
        TokensAreDistinct(s, c, d);
      }
      UnlinkKeepsEntry(byToken, m, s, c, keepPty, now, d);
    }
  }

  /** Changing a viewer's PTY or role shows in no channel map. */
  lemma SetBridgeKeepsEntry(byToken: map<Id, Viewer>, m: ChannelMaps, s: A.State, c: Id, pty: A.Pty,
                            readOnly: bool, d: Id)
    requires EntryOk(byToken, m, s, d) && c in s.channels && A.HasViewer(s, c)
    ensures EntryOk(byToken, m, A.SetBridge(s, c, pty, readOnly), d)
  {
  }

  lemma SetBridgeKeepsMaps(byToken: map<Id, Viewer>, m: ChannelMaps, s: A.State, c: Id, pty: A.Pty, readOnly: bool)
    requires MapsOk(byToken, m, s) && c in s.channels && A.HasViewer(s, c)
    ensures MapsOk(byToken, m, A.SetBridge(s, c, pty, readOnly))
  {
    forall d ensures EntryOk(byToken, m, A.SetBridge(s, c, pty, readOnly), d) {
      assert EntryOk(byToken, m, s, d);
      SetBridgeKeepsEntry(byToken, m, s, c, pty, readOnly, d);
    }
  }

  lemma DropBridgeKeepsMaps(byToken: map<Id, Viewer>, m: ChannelMaps, s: A.State, token: Id)
    requires MapsOk(byToken, m, s) && token in s.viewers
    ensures MapsOk(byToken, m, A.DropBridge(s, token))
  {
    forall d ensures EntryOk(byToken, m, A.DropBridge(s, token), d) {
      assert EntryOk(byToken, m, s, d);
    }
  }

  function PutReadOnly(m: ChannelMaps, c: Id, readOnly: bool): ChannelMaps {
    m.(readOnly := m.readOnly[c := readOnly])
  }

  lemma SetReadOnlyKeepsMaps(byToken: map<Id, Viewer>, m: ChannelMaps, s: A.State, c: Id, readOnly: bool)
    requires MapsOk(byToken, m, s) && c in s.channels
    ensures MapsOk(byToken, PutReadOnly(m, c, readOnly), A.SetReadOnly(s, c, readOnly))
  {
    forall d ensures EntryOk(byToken, PutReadOnly(m, c, readOnly), A.SetReadOnly(s, c, readOnly), d) {
      assert EntryOk(byToken, m, s, d) && EntryOk(byToken, m, s, c);
    }
  }

  lemma MarkKeepsMaps(byToken: map<Id, Viewer>, m: ChannelMaps, s: A.State, c: Id, now: int)
    requires MapsOk(byToken, m, s) && c in s.channels
    ensures MapsOk(byToken, m, L.MarkOne(s, c, now))
  {
    forall d ensures EntryOk(byToken, m, L.MarkOne(s, c, now), d) {
      assert EntryOk(byToken, m, s, d);
    }
  }

  lemma ForgetKeepsMaps(byToken: map<Id, Viewer>, m: ChannelMaps, s: A.State, t: Id)
    requires A.Inv(s) && MapsOk(byToken, m, s) && t in s.viewers
    ensures MapsOk(byToken - {t}, DropFrom(m, s.viewers[t].channelId), L.Forget(s, t))
    ensures s.viewers[t].channelId == NoId ==> MapsOk(byToken - {t}, m, L.Forget(s, t))
  {
    var c := s.viewers[t].channelId;
    assert A.ViewerOk(s, t);
    assert NoId in s.channels ==> A.ChannelOk(s, NoId);
    forall d ensures EntryOk(byToken - {t}, DropFrom(m, c), L.Forget(s, t), d)
             ensures c == NoId ==> EntryOk(byToken - {t}, m, L.Forget(s, t), d)
    {
      assert EntryOk(byToken, m, s, d);
      assert d in s.channels ==> A.ChannelOk(s, d);
    }
  }

  function AddTo(m: ChannelMaps, c: Id, viewer: Viewer, pane: Id, session: Id, readOnly: bool): ChannelMaps {
    ChannelMaps(m.viewer[c := viewer], m.pane[c := pane], m.session[c := session], m.pty[c := true],
                m.perViewer[c := true], m.readOnly[c := readOnly])
  }

  lemma InsertKeepsEntry(byToken: map<Id, Viewer>, m: ChannelMaps, s: A.State, c: Id, pane: Id, opts: A.AttachOptions,
                         viewer: Viewer, d: Id)
    requires EntryOk(byToken, m, s, d) && c !in s.channels
    requires d in s.channels ==> s.channels[d].token != viewer.resumeToken
    ensures EntryOk(byToken[viewer.resumeToken := viewer],
                    AddTo(m, c, viewer, pane, opts.sessionId, pane in s.controller),
                    A.Insert(s, c, pane, opts, viewer.resumeToken), d)
  {
  }

  lemma InsertKeepsMaps(byToken: map<Id, Viewer>, m: ChannelMaps, s: A.State, c: Id, pane: Id, opts: A.AttachOptions,
                        viewer: Viewer)
    requires MapsOk(byToken, m, s) && A.UnusedToken(s, viewer.resumeToken) && c !in s.channels
    ensures MapsOk(byToken[viewer.resumeToken := viewer],
                   AddTo(m, c, viewer, pane, opts.sessionId, pane in s.controller),
                   A.Insert(s, c, pane, opts, viewer.resumeToken))
  {
    var byToken2 := byToken[viewer.resumeToken := viewer];
    var m2 := AddTo(m, c, viewer, pane, opts.sessionId, pane in s.controller);
    var r := A.Insert(s, c, pane, opts, viewer.resumeToken);
    forall d ensures EntryOk(byToken2, m2, r, d) {
      assert EntryOk(byToken, m, s, d);
      InsertKeepsEntry(byToken, m, s, c, pane, opts, viewer, d);
    }
  }

  /** The channel maps say nothing about controllers and pending promotions. */
  lemma MapsIgnoreControl(byToken: map<Id, Viewer>, m: ChannelMaps, s: A.State, r: A.State)
    requires MapsOk(byToken, m, s) && r.viewers == s.viewers && r.channels == s.channels
    ensures MapsOk(byToken, m, r)
  {
    forall d ensures EntryOk(byToken, m, r, d) {
      assert EntryOk(byToken, m, s, d);
    }
  }

  class TerminalManager {
    const tmux: Tmux
    var viewerByChannel: map<Id, Viewer>
    var viewerByToken: map<Id, Viewer>
    var channelToPane: map<Id, Id>
    var channelSession: map<Id, Id>
    var channelToPTY: map<Id, bool>
    var channelPerViewer: map<Id, bool>
    var channelReadOnly: map<Id, bool>
    var paneController: map<Id, Id>
    ghost var state: A.State                   // what the fields amount to
    ghost var Repr: set<Viewer>

    function Maps(): ChannelMaps
      reads this
    {
      ChannelMaps(viewerByChannel, channelToPane, channelSession, channelToPTY, channelPerViewer, channelReadOnly)
    }

    ghost function Ptys(): set<Bridge>
      reads this`Repr, Repr
    {
      set v | v in Repr && v.bridge != null :: v.bridge
    }

    /**
     The viewer stored under `t`, if any, is the one the state has there, and its PTY has been started for it
     and is on its pane.
     */
    ghost predicate ViewerIs(viewers: map<Id, A.Viewer>, t: Id)
      reads this`viewerByToken, this`Repr, Repr, Ptys()`paneId
    {
      if t in viewers then
        && t in viewerByToken && viewerByToken[t] in Repr
        && viewers[t] == viewerByToken[t].Value() && viewers[t].resumeToken == t
        && (viewerByToken[t].bridge != null ==>
              viewerByToken[t].bridge.resumeToken == t && viewerByToken[t].bridge.paneId == viewerByToken[t].paneId)
      else t !in viewerByToken
    }

    ghost predicate ViewersOk(viewers: map<Id, A.Viewer>)
      reads this`viewerByToken, this`Repr, Repr, Ptys()`paneId
    {
      forall t {:trigger ViewerIs(viewers, t)} :: ViewerIs(viewers, t)
    }

    /** The fields agree with each other and with the state. */
    ghost predicate Coherent()
      reads this, Repr, Ptys()`paneId
    {
      && paneController == state.controller
      && MapsOk(viewerByToken, Maps(), state)
      && ViewersOk(state.viewers)
    }

    ghost predicate Valid()
      reads this, Repr, Ptys()`paneId
    {
      A.Inv(state) && Coherent()
    }

    constructor (tmux: Tmux)
      ensures Valid() && state == A.Init && this.tmux == tmux
    {
      this.tmux := tmux;
      viewerByChannel, viewerByToken := map[], map[];
      channelToPane, channelSession, channelToPTY := map[], map[], map[];
      channelPerViewer, channelReadOnly := map[], map[];
      paneController, state, Repr := map[], A.Init, {};
    }

    method SendInput(channelId: Id) returns (target: Result<Bridge, A.InputError>)
      requires Valid()
      ensures target.Ok? <==> A.SendInput(state, channelId).Ok?
      ensures target.Ok? ==> channelId in viewerByChannel && target.value == viewerByChannel[channelId].bridge
      ensures target.Err? ==> target == Err(A.SendInput(state, channelId).error)
    {
      if channelId !in channelToPane {
        return Err(A.UnknownChannel);
      }
      assert EntryOk(viewerByToken, Maps(), state, channelId);
      assert ViewerIs(state.viewers, state.channels[channelId].token);
      if channelReadOnly[channelId] {
        return Err(A.ReadOnlyChannel);
      }
      var viewer := viewerByChannel[channelId];
      if viewer.bridge == null {
        return Err(A.NoBridge);
      }
      return Ok(viewer.bridge);
    }

    // -------------------------------------------------------------------------------------------
    // Focus
    // -------------------------------------------------------------------------------------------

    /** Moves the persisted resume token of a viewer to `pane`. */
    method MoveResumeToken(viewer: Viewer, pane: Id) returns (failure: Option<FocusCause>)
      modifies tmux`tokens
      ensures failure.Some? ==> viewer.paneId != pane
                                && failure.value in {TokenNotPersisted, TokenRolledBack, TokenOnBothPanes}
      ensures tmux.tokens == MovedTokens(old(tmux.tokens), viewer.resumeToken, viewer.paneId, pane, failure)
      ensures tmux.obeys ==> failure.None?
    {
      if viewer.paneId == pane {
        return None;
      }
      var persisted := tmux.SetToken(pane, viewer.resumeToken);
      if !persisted {
        return Some(TokenNotPersisted);
      }
      var removed := tmux.UnsetToken(viewer.paneId, viewer.resumeToken);
      if !removed {
        var rolledBack := tmux.UnsetToken(pane, viewer.resumeToken);
        if !rolledBack {
          return Some(TokenOnBothPanes);
        }
        return Some(TokenRolledBack);
      }
      return None;
    }

    method WriteViewer(viewer: Viewer, pane: Id, readOnly: bool, ghost viewers: map<Id, A.Viewer>)
      requires ViewersOk(viewers) && viewer.resumeToken in viewerByToken && viewerByToken[viewer.resumeToken] == viewer
      requires viewer.bridge != null
      modifies viewer`paneId, viewer`readOnly, viewer.bridge`paneId
      ensures viewer.Value() == old(viewer.Value()).(paneId := pane, readOnly := readOnly)
      ensures viewer.bridge.paneId == pane
      ensures ViewersOk(viewers[viewer.resumeToken := viewer.Value()])
    {
      viewer.paneId := pane;
      viewer.readOnly := readOnly;
      viewer.bridge.paneId := pane;
      ghost var after := viewers[viewer.resumeToken := viewer.Value()];
      forall t ensures ViewerIs(after, t) {
        assert old(ViewerIs(viewers, t)) && old(ViewerIs(viewers, viewer.resumeToken));
      }
    }

    method WriteEntry(channelId: Id, v: A.Viewer, ghost r: A.State)
      requires A.AllLinked(state) && MapsOk(viewerByToken, Maps(), state)
      requires Put(state, r, channelId, v, v.readOnly) && v.sessionId == A.ViewerOf(state, channelId).sessionId
      modifies this`channelToPane, this`channelReadOnly
      ensures MapsOk(viewerByToken, Maps(), r)
    {
      PutKeepsMaps(viewerByToken, Maps(), state, r, channelId, v, v.readOnly);
      channelToPane := channelToPane[channelId := v.paneId];
      channelReadOnly := channelReadOnly[channelId := v.readOnly];
    }

    /** Stores the pane and role of one channel together with the controllers that go with them. */
    method StoreRole(channelId: Id, viewer: Viewer, pane: Id, readOnly: bool, controllers: map<Id, Id>,
                     ghost r: A.State)
      requires Valid() && A.Inv(r) && r.controller == controllers
      requires Put(state, r, channelId, viewer.Value().(paneId := pane, readOnly := readOnly), readOnly)
      requires viewer.sessionId == A.ViewerOf(state, channelId).sessionId
      requires state.channels[channelId].token == viewer.resumeToken
      requires viewer.resumeToken in viewerByToken && viewerByToken[viewer.resumeToken] == viewer
      requires viewer.bridge != null
      modifies this`paneController, this`channelToPane, this`channelReadOnly, this`state,
               viewer`paneId, viewer`readOnly, viewer.bridge`paneId
      ensures Valid() && state == r && viewer.bridge.paneId == pane
    {
      A.InvIsAllLinked(state);
      WriteViewer(viewer, pane, readOnly, state.viewers);
      label Written:
      assert ViewersOk(r.viewers);
      WriteEntry(channelId, viewer.Value(), r);
      forall t ensures ViewerIs(r.viewers, t) {
        assert old@Written(ViewerIs(r.viewers, t));
      }
      StoreControl(controllers, r);
    }

    method StoreControl(controllers: map<Id, Id>, ghost r: A.State)
      requires MapsOk(viewerByToken, Maps(), r) && ViewersOk(r.viewers) && controllers == r.controller
      modifies this`paneController, this`state
      ensures Coherent() && state == r
    {
      paneController := controllers;
      state := r;
      forall t ensures ViewerIs(r.viewers, t) {
        assert old(ViewerIs(r.viewers, t));
      }
    }

    /** Who controls which pane once a viewer has moved: it takes its control along if the new pane is free. */
    method MoveController(channelId: Id, previousPane: Id, pane: Id)
      returns (controllers: map<Id, Id>, hasControl: bool)
      requires paneController == state.controller && channelId in state.channels
      requires previousPane == A.ViewerOf(state, channelId).paneId
      ensures controllers == A.MoveAuthority(state, channelId, pane).controller
      ensures hasControl == !A.MoveAuthority(state, channelId, pane).channels[channelId].readOnly
    {
      var wasController := previousPane in paneController && paneController[previousPane] == channelId;
      controllers := paneController;
      if previousPane != pane && wasController {
        controllers := controllers - {previousPane};
      }
      hasControl := if pane in controllers then controllers[pane] == channelId else wasController;
      if hasControl {
        controllers := controllers[pane := channelId];
      }
    }

    method MoveAuthority(channelId: Id, viewer: Viewer, pane: Id)
      requires Valid() && state.promotion.None?
      requires channelId in state.channels && channelId in viewerByChannel
      requires viewerByChannel[channelId] == viewer && viewer.bridge != null
      modifies this`paneController, this`channelToPane, this`channelReadOnly, this`state,
               viewer`paneId, viewer`readOnly, viewer.bridge`paneId
      ensures Valid() && state == A.MoveAuthority(old(state), channelId, pane) && viewer.bridge.paneId == pane
    {
      assert EntryOk(viewerByToken, Maps(), state, channelId);
      assert ViewerIs(state.viewers, state.channels[channelId].token);
      var controllers, hasControl := MoveController(channelId, viewer.paneId, pane);
      A.MoveKeepsInv(state, channelId, pane);
      StoreRole(channelId, viewer, pane, !hasControl, controllers, A.MoveAuthority(state, channelId, pane));
    }

    /** Undoes what a failed focus did to tmux, as far as tmux lets it. */
    method RestoreFocus(viewer: Viewer, bridge: Bridge, previous: ViewState, cause: FocusCause)
      returns (failure: FocusError)
      requires viewer.bridge == bridge
      modifies viewer`zoomApplied, bridge`windowTarget, bridge`wheelResidue,
               tmux`sessions, tmux`pinned, tmux`sizes, tmux`activePane, tmux`zoomed
      ensures failure == Restored(cause) || failure == RollbackFailed(cause)
      ensures failure.Restored? ==>
                exists s: ViewState ::
                  tmux.Shows(bridge.viewSession, s) && s.paneId == previous.paneId && s.zoomed == previous.zoomed
      ensures failure.Restored? ==> viewer.zoomApplied == previous.zoomed
      ensures tmux.obeys && old(bridge.Reaches(tmux, previous.paneId)) ==> failure.Restored?
    {
      var selected := bridge.SelectPane(tmux, previous.paneId);
      var zoomed := bridge.SetZoom(tmux, previous.zoomed);
      if zoomed {
        viewer.zoomApplied := previous.zoomed;
      }
      var shown := bridge.State(tmux);
      if !selected || !zoomed || shown.None?
         || shown.value.paneId != previous.paneId || shown.value.zoomed != previous.zoomed {
        return RollbackFailed(cause);
      }
      assert tmux.Shows(bridge.viewSession, shown.value);
      return Restored(cause);
    }

    /** The PTY's session is up and shows a pane of its group. */
    predicate IsReadable(bridge: Bridge)
      reads bridge, tmux
    {
      && !bridge.closed && bridge.IsOpen(tmux)
      && bridge.Reaches(tmux, tmux.activePane[tmux.sessions[bridge.viewSession]])
    }

    predicate CanFocus(bridge: Bridge, pane: Id)
      reads bridge, tmux
    {
      !bridge.closed && bridge.IsOpen(tmux) && bridge.Reaches(tmux, pane)
    }

    /** Selects the pane, sets the zoom, checks what is shown, and moves the token, up to the first step that fails. */
    method MoveView(viewer: Viewer, bridge: Bridge, pane: Id, zoom: bool)
      returns (cause: Option<FocusCause>, shown: Option<ViewState>)
      requires viewer.bridge == bridge
      modifies viewer`zoomApplied, bridge`windowTarget, bridge`wheelResidue,
               tmux`sessions, tmux`pinned, tmux`sizes, tmux`activePane, tmux`zoomed, tmux`tokens
      ensures cause.None? ==>
                && shown.Some? && shown.value.paneId == pane && shown.value.zoomed == zoom
                && tmux.Shows(bridge.viewSession, shown.value) && viewer.zoomApplied == zoom
                && tmux.zoomed - {shown.value.window} == old(tmux.zoomed) - {shown.value.window}
      ensures tmux.tokens ==
              MovedTokens(old(tmux.tokens), viewer.resumeToken, viewer.paneId, pane,
                          if cause.None? then None else CauseOf(Restored(cause.value)))
      ensures CanFail(cause, viewer.paneId, pane)
      ensures tmux.obeys && old(bridge.Reaches(tmux, pane)) ==> cause.None?
      ensures !old(bridge.Reaches(tmux, pane)) ==>
                && cause == Some(SelectFailed) && bridge.windowTarget == old(bridge.windowTarget)
                && tmux.sessions == old(tmux.sessions)
    {
      cause, shown := None, None;
      var selected := bridge.SelectPane(tmux, pane);
      if !selected {
        return Some(SelectFailed), None;
      }
      var zoomed := bridge.SetZoom(tmux, zoom);
      if !zoomed {
        return Some(ZoomFailed), None;
      }
      viewer.zoomApplied := zoom;
      shown := bridge.State(tmux);
      if shown.None? {
        return Some(ReadFailed), None;
      }
      if shown.value.paneId != pane || shown.value.zoomed != zoom {
        return Some(NotConverged), shown;
      }
      cause := MoveResumeToken(viewer, pane);
    }

    /** Makes the viewer show `pane` with the requested zoom and moves its resume token there. */
    method ShowPane(viewer: Viewer, bridge: Bridge, pane: Id, zoom: bool)
      returns (result: Result<ViewState, FocusError>)
      requires viewer.bridge == bridge
      modifies viewer`zoomApplied, bridge`windowTarget, bridge`wheelResidue,
               tmux`sessions, tmux`pinned, tmux`sizes, tmux`activePane, tmux`zoomed, tmux`tokens
      ensures result.Ok? ==>
                && result.value.paneId == pane && result.value.zoomed == zoom
                && tmux.Shows(bridge.viewSession, result.value)
                && tmux.tokens == MovedTokens(old(tmux.tokens), viewer.resumeToken, viewer.paneId, pane, None)
      ensures result.Err? ==>
                tmux.tokens ==
                MovedTokens(old(tmux.tokens), viewer.resumeToken, viewer.paneId, pane, CauseOf(result.error))
                && CanFail(CauseOf(result.error), viewer.paneId, pane)
      ensures result.Err? && result.error.Restored? ==>
                exists before: ViewState, after: ViewState ::
                  && old(tmux.Shows(bridge.viewSession, before)) && tmux.Shows(bridge.viewSession, after)
                  && before.paneId == after.paneId && before.zoomed == after.zoomed
      ensures result == Err(StateUnreadable) || (!old(bridge.closed) && old(bridge.IsOpen(tmux)))
      ensures result.Ok? ==>
                && viewer.zoomApplied == zoom
                && old(bridge.viewSession in tmux.sessions)
                && var left := old(tmux.sessions[bridge.viewSession]);
                   left != result.value.window ==> left !in tmux.zoomed
      ensures result.Err? ==> result.error !in {ChannelNotFound, NoGroupedViewer, PaneRequired}
      ensures tmux.obeys && old(CanFocus(bridge, pane)) ==> result.Ok?
      ensures tmux.obeys && old(IsReadable(bridge)) && !old(bridge.Reaches(tmux, pane)) ==>
                result == Err(Restored(SelectFailed))
    {
      var previous := bridge.State(tmux);
      if previous.None? {
        return Err(StateUnreadable);
      }
      if previous.value.zoomed {
        var unzoomed := bridge.SetZoom(tmux, false);
        if !unzoomed {
          return Err(UnzoomFailed);
        }
        viewer.zoomApplied := false;
      }
      ghost var unzoomed := tmux.zoomed;
      assert previous.value.window !in unzoomed;
      var cause, shown := MoveView(viewer, bridge, pane, zoom);
      if cause.Some? {
        var failure := RestoreFocus(viewer, bridge, previous.value, cause.value);
        return Err(failure);
      }
      assert previous.value.window in tmux.zoomed - {shown.value.window}
        <==> previous.value.window in unzoomed - {shown.value.window};
      return Ok(shown.value);
    }

    /** The part of a focus that starts once the viewer is known. */
    method FocusViewer(channelId: Id, viewer: Viewer, bridge: Bridge, pane: Id, zoom: bool)
      returns (result: Result<ViewState, FocusError>)
      requires Valid() && state.promotion.None? && channelId in state.channels
      requires channelId in viewerByChannel && viewerByChannel[channelId] == viewer && viewer.bridge == bridge
      modifies this`paneController, this`channelToPane, this`channelReadOnly, this`state,
               viewer`paneId, viewer`readOnly, viewer`zoomApplied,
               bridge`paneId, bridge`windowTarget, bridge`wheelResidue,
               tmux`sessions, tmux`pinned, tmux`sizes, tmux`activePane, tmux`zoomed, tmux`tokens
      ensures Valid()
      ensures state == if result.Ok? then A.MoveAuthority(old(state), channelId, pane) else old(state)
      ensures result.Ok? ==>
                && result.value.paneId == pane && result.value.zoomed == zoom
                && tmux.Shows(bridge.viewSession, result.value)
      ensures result.Err? && result.error.Restored? ==>
                exists before: ViewState, after: ViewState ::
                  && old(tmux.Shows(bridge.viewSession, before)) && tmux.Shows(bridge.viewSession, after)
                  && before.paneId == after.paneId && before.zoomed == after.zoomed
      ensures tmux.tokens == MovedTokens(old(tmux.tokens), viewer.resumeToken, old(viewer.paneId), pane,
                                         if result.Ok? then None else CauseOf(result.error))
      ensures result.Err? ==> CanFail(CauseOf(result.error), old(viewer.paneId), pane)
      ensures tmux.obeys && old(CanFocus(bridge, pane)) ==> result.Ok?
      ensures tmux.obeys && old(IsReadable(bridge)) && !old(bridge.Reaches(tmux, pane)) ==>
                result == Err(Restored(SelectFailed))
      ensures result.Err? ==> result.error !in {ChannelNotFound, NoGroupedViewer, PaneRequired}
    {
      result := ShowPane(viewer, bridge, pane, zoom);
      forall t ensures ViewerIs(state.viewers, t) {
        assert old(ViewerIs(state.viewers, t));
      }
      if result.Ok? {
        MoveAuthority(channelId, viewer, pane);
      }
    }

    /**
     Shows `pane` with the requested zoom and moves the channel's authority and resume token there,
     or leaves the authority alone.
     */
    method FocusPane(channelId: Id, pane: Id, zoom: bool) returns (result: Result<ViewState, FocusError>)
      requires Valid() && state.promotion.None?
      modifies this`paneController, this`channelToPane, this`channelReadOnly, this`state,
               viewerByChannel.Values, set v | v in viewerByChannel.Values && v.bridge != null :: v.bridge,
               tmux`sessions, tmux`pinned, tmux`sizes, tmux`activePane, tmux`zoomed, tmux`tokens
      ensures Valid()
      ensures result.Err? ==> state == old(state)
      ensures result.Ok? ==>
                && channelId in viewerByChannel && viewerByChannel[channelId].bridge != null
                && result.value.paneId == pane && result.value.zoomed == zoom
                && tmux.Shows(viewerByChannel[channelId].bridge.viewSession, result.value)
                && channelId in old(state).channels
                && state == A.MoveAuthority(old(state), channelId, pane)
      ensures result.Err? && result.error.Restored? ==>
                && channelId in old(viewerByChannel) && old(viewerByChannel[channelId].bridge) != null
                && var session := old(viewerByChannel[channelId].bridge).viewSession;
                   exists before: ViewState, after: ViewState ::
                     && old(tmux.Shows(session, before)) && tmux.Shows(session, after)
                     && before.paneId == after.paneId && before.zoomed == after.zoomed
      ensures result == Err(ChannelNotFound) <==> channelId !in old(state).channels
      ensures result == Err(ChannelNotFound) ==> tmux.tokens == old(tmux.tokens)
      ensures channelId in old(state).channels ==>
                && channelId in old(viewerByChannel)
                && var bridge := old(viewerByChannel[channelId].bridge);
                   && (result == Err(NoGroupedViewer) <==> bridge == null)
                   && (result == Err(PaneRequired) <==> bridge != null && IsBlank(pane))
                   && (bridge != null && !IsBlank(pane) && tmux.obeys ==>
                         && (old(CanFocus(bridge, pane)) ==> result.Ok?)
                         && (old(IsReadable(bridge)) && !old(bridge.Reaches(tmux, pane)) ==>
                               result == Err(Restored(SelectFailed))))
      ensures channelId in old(state).channels ==>
                tmux.tokens == MovedTokens(old(tmux.tokens), old(state).channels[channelId].token,
                                           A.ViewerOf(old(state), channelId).paneId, pane,
                                           if result.Ok? then None else CauseOf(result.error))
                && (result.Err? ==> CanFail(CauseOf(result.error), A.ViewerOf(old(state), channelId).paneId, pane))
    {
      assert EntryOk(viewerByToken, Maps(), state, channelId);
      if channelId !in channelToPane {
        return Err(ChannelNotFound);
      }
      var viewer := viewerByChannel[channelId];
      assert ViewerIs(state.viewers, state.channels[channelId].token);
      if viewer.bridge == null {
        return Err(NoGroupedViewer);
      }
      if IsBlank(pane) {
        return Err(PaneRequired);
      }
      result := FocusViewer(channelId, viewer, viewer.bridge, pane, zoom);
    }

    // -------------------------------------------------------------------------------------------
    // Detach
    // -------------------------------------------------------------------------------------------

    /** The window that a viewer has zoomed, if any. */
    function ZoomedWindow(viewer: Viewer): Option<Window>
      reads viewer, PtySet(viewer.bridge), tmux`sessions
    {
      if viewer.zoomApplied && viewer.bridge != null && !viewer.bridge.closed
         && viewer.bridge.viewSession in tmux.sessions
      then Some(tmux.sessions[viewer.bridge.viewSession]) else None
    }

    /** Ends the zoom a viewer applied, if tmux lets it. */
    method CleanupZoom(viewer: Viewer, ghost viewers: map<Id, A.Viewer>)
      requires ViewersOk(viewers)
      modifies viewer`zoomApplied, tmux`zoomed
      ensures ViewersOk(viewers)
      ensures tmux.obeys && old(ZoomedWindow(viewer)).Some? ==>
                old(ZoomedWindow(viewer)).value !in tmux.zoomed && !viewer.zoomApplied
      ensures viewer.zoomApplied != old(viewer.zoomApplied) ==>
                old(ZoomedWindow(viewer)).Some? && old(ZoomedWindow(viewer)).value !in tmux.zoomed
    {
      if viewer.zoomApplied && viewer.bridge != null {
        var unzoomed := viewer.bridge.SetZoom(tmux, false);
        if unzoomed {
          viewer.zoomApplied := false;
        }
      }
      forall t ensures ViewerIs(viewers, t) {
        assert old(ViewerIs(viewers, t));
      }
    }

    /** The viewer forgets its channel but stays resumable. */
    method MarkDetached(viewer: Viewer, keepBridge: bool, now: int, ghost viewers: map<Id, A.Viewer>)
      requires ViewersOk(viewers) && viewer.resumeToken in viewerByToken && viewerByToken[viewer.resumeToken] == viewer
      modifies viewer`channelId, viewer`detachedAt, viewer`stale, viewer`staleAt, viewer`bridge
      ensures viewer.Value() == old(viewer.Value()).(channelId := NoId, detachedAt := Some(now), stale := false,
                                                     staleAt := None,
                                                     pty := if keepBridge then old(viewer.Value().pty) else A.NoPty)
      ensures viewer.bridge == if keepBridge then old(viewer.bridge) else null
      ensures ViewersOk(viewers[viewer.resumeToken := viewer.Value()])
    {
      viewer.channelId := NoId;
      viewer.detachedAt := Some(now);
      viewer.stale := false;
      viewer.staleAt := None;
      if !keepBridge {
        viewer.bridge := null;
      }
      ghost var after := viewers[viewer.resumeToken := viewer.Value()];
      forall t ensures ViewerIs(after, t) {
        assert old(ViewerIs(viewers, t)) && old(ViewerIs(viewers, viewer.resumeToken));
      }
    }

    /** Takes a channel out of every channel map. */
    method DropEntry(channelId: Id, ghost byToken: map<Id, Viewer>, ghost r: A.State)
      requires MapsOk(byToken, DropFrom(Maps(), channelId), r)
      modifies this`viewerByChannel, this`channelToPane, this`channelSession, this`channelToPTY,
               this`channelPerViewer, this`channelReadOnly
      ensures MapsOk(byToken, Maps(), r)
    {
      viewerByChannel := viewerByChannel - {channelId};
      channelToPane := channelToPane - {channelId};
      channelSession := channelSession - {channelId};
      channelToPTY := channelToPTY - {channelId};
      channelPerViewer := channelPerViewer - {channelId};
      channelReadOnly := channelReadOnly - {channelId};
    }

    /** Takes the channel and any control it has away from its viewer. */
    method UnlinkViewer(channelId: Id, viewer: Viewer, keepBridge: bool, now: int) returns (wasController: bool)
      requires Valid() && channelId in state.channels && state.channels[channelId].token == viewer.resumeToken
      requires viewer.resumeToken in viewerByToken && viewerByToken[viewer.resumeToken] == viewer
      modifies this`viewerByChannel, this`channelToPane, this`channelSession, this`channelToPTY,
               this`channelPerViewer, this`channelReadOnly, this`paneController, this`state,
               viewer`channelId, viewer`detachedAt, viewer`stale, viewer`staleAt, viewer`bridge, viewer`zoomApplied,
               tmux`zoomed
      ensures Valid()
      ensures state == A.Unlink(old(state), channelId, keepBridge, now)
      ensures wasController == A.Controls(old(state), channelId, old(viewer.paneId))
      ensures viewer.paneId == old(viewer.paneId) && viewer.bridge == if keepBridge then old(viewer.bridge) else null
      ensures tmux.obeys && old(ZoomedWindow(viewer)).Some? ==> old(ZoomedWindow(viewer)).value !in tmux.zoomed
    {
      assert ViewerIs(state.viewers, viewer.resumeToken);
      A.UnlinkKeepsInv(state, channelId, keepBridge, now);
      A.InvIsAllLinked(state);
      wasController := viewer.paneId in paneController && paneController[viewer.paneId] == channelId;
      UnlinkKeepsMaps(viewerByToken, Maps(), state, channelId, keepBridge, now);
      ghost var r := A.Unlink(state, channelId, keepBridge, now);
      CleanupZoom(viewer, state.viewers);
      MarkDetached(viewer, keepBridge, now, state.viewers);
      StoreUnlinked(channelId, if wasController then paneController - {viewer.paneId} else paneController, r);
    }

    method StoreUnlinked(channelId: Id, controllers: map<Id, Id>, ghost r: A.State)
      requires MapsOk(viewerByToken, DropFrom(Maps(), channelId), r) && ViewersOk(r.viewers)
      requires controllers == r.controller
      modifies this`viewerByChannel, this`channelToPane, this`channelSession, this`channelToPTY,
               this`channelPerViewer, this`channelReadOnly, this`paneController, this`state
      ensures Coherent() && state == r
    {
      DropEntry(channelId, viewerByToken, r);
      paneController := controllers;
      state := r;
      forall t ensures ViewerIs(r.viewers, t) {
        assert old(ViewerIs(r.viewers, t));
      }
    }

    /** tmux has neither the session of a PTY nor, if it is letterboxed, its window pinned. */
    predicate IsGone(bridge: Bridge)
      reads bridge, tmux
    {
      bridge.viewSession !in tmux.sessions && (bridge.letterbox ==> bridge.windowTarget !in tmux.pinned)
    }

    /** A detach of a known viewer. Only a letterboxed one gives up its PTY. */
    method DetachViewer(channelId: Id, viewer: Viewer, now: int)
      requires Valid() && state.promotion.None? && channelId in state.channels
      requires channelId in viewerByChannel && viewerByChannel[channelId] == viewer
      modifies this, viewer, PtySet(viewer.bridge)`closed, PtySet(viewer.bridge)`tokenRemoved, tmux
      ensures Valid() && state == A.Detach(old(state), channelId, now)
      ensures viewer.paneId == old(viewer.paneId) && tmux.tokens == old(tmux.tokens)
      ensures if old(viewer.letterbox) then
                viewer.bridge == null && (old(viewer.bridge) != null ==> old(viewer.bridge).closed)
              else viewer.bridge == old(viewer.bridge)
      ensures tmux.obeys && old(ZoomedWindow(viewer)).Some? ==> old(ZoomedWindow(viewer)).value !in tmux.zoomed
      ensures (tmux.obeys || tmux.reaps) && old(viewer.letterbox) && old(viewer.bridge) != null ==>
                old(viewer.bridge.closed) || IsGone(old(viewer.bridge))
    {
      A.InvIsAllLinked(state);
      AttachedViewer(channelId);
      var bridge := viewer.bridge;
      var letterbox := viewer.letterbox;
      A.DetachKeepsInv(state, channelId, now);
      var wasController := UnlinkViewer(channelId, viewer, !letterbox, now);
      SetPromotion(if wasController then Some(viewer.paneId) else None);
      CloseDetached(bridge, letterbox);
    }

    /** First critical section of a detach; what follows it outside the lock touches only tmux. */
    method Detach(channelId: Id, now: int) returns (pane: Option<Id>)
      requires Valid() && state.promotion.None?
      modifies this, viewerByChannel.Values, set v | v in viewerByChannel.Values && v.bridge != null :: v.bridge, tmux
      ensures Valid() && state == A.Detach(old(state), channelId, now)
      ensures pane == if channelId in old(state).channels then Some(A.ViewerOf(old(state), channelId).paneId) else None
      ensures tmux.tokens == old(tmux.tokens)
      ensures channelId in old(state).channels ==>
                && channelId in old(viewerByChannel)
                && var viewer := old(viewerByChannel)[channelId];
                   && (if old(viewer.letterbox) then
                         viewer.bridge == null && (old(viewer.bridge) != null ==> old(viewer.bridge).closed)
                       else viewer.bridge == old(viewer.bridge))
                   && (tmux.obeys && old(ZoomedWindow(viewer)).Some? ==>
                         old(ZoomedWindow(viewer)).value !in tmux.zoomed)
                   && ((tmux.obeys || tmux.reaps) && old(viewer.letterbox) && old(viewer.bridge) != null ==>
                         old(viewer.bridge.closed) || IsGone(old(viewer.bridge)))
    {
      A.InvIsAllLinked(state);
      AttachedViewer(channelId);
      if channelId !in channelToPane {
        return None;
      }
      var viewer := viewerByChannel[channelId];
      pane := Some(viewer.paneId);
      DetachViewer(channelId, viewer, now);
    }

    ghost method SetPromotion(promotion: Option<Id>)
      requires Coherent() && A.Inv(state.(promotion := promotion))
      modifies this`state
      ensures Valid() && state == old(state).(promotion := promotion)
    {
      MapsIgnoreControl(viewerByToken, Maps(), state, state.(promotion := promotion));
      state := state.(promotion := promotion);
    }

    /** A letterboxed viewer does not keep its window pinned while nobody watches. */
    method CloseDetached(bridge: Bridge?, letterbox: bool)
      requires Valid()
      modifies PtySet(bridge)`closed, PtySet(bridge)`tokenRemoved, tmux`sessions, tmux`pinned, tmux`tokens
      ensures Valid() && tmux.tokens == old(tmux.tokens)
      ensures tmux.sessions == old(tmux.sessions)
              || (bridge != null && tmux.sessions == old(tmux.sessions) - {bridge.viewSession})
      ensures bridge != null && letterbox ==> bridge.closed
      ensures (tmux.obeys || tmux.reaps) && bridge != null && letterbox && !old(bridge.closed) ==>
                IsGone(bridge)
    {
      if bridge != null && letterbox {
        bridge.Close(tmux, false);
      }
      forall t ensures ViewerIs(state.viewers, t) {
        assert old(ViewerIs(state.viewers, t));
      }
    }

    /** Ends a PTY, if there is one, for another of the same size. */
    method EndBridge(bridge: Bridge?) returns (size: (int, int))
      modifies PtySet(bridge)`closed, PtySet(bridge)`tokenRemoved, tmux
      ensures tmux.tokens == old(tmux.tokens)
      ensures size == if bridge == null then (80, 24) else bridge.size
      ensures bridge != null ==> bridge.closed
    {
      size := (80, 24);
      if bridge != null {
        size := bridge.size;
        bridge.Close(tmux, false);
      }
    }

    /** Ends a viewer's PTY and starts another; on failure the viewer is left without one. */
    method ReplaceBridge(viewer: Viewer, readOnly: bool, ghost viewers: map<Id, A.Viewer>) returns (started: bool)
      requires ViewersOk(viewers) && viewer.resumeToken in viewerByToken && viewerByToken[viewer.resumeToken] == viewer
      modifies viewer`bridge, viewer`readOnly, PtySet(viewer.bridge)`closed, PtySet(viewer.bridge)`tokenRemoved, tmux
      ensures viewer.Value() == old(viewer.Value()).(pty := if started then A.PtyFor(readOnly) else A.NoPty,
                                                     readOnly := if started then readOnly else old(viewer.readOnly))
      ensures ViewersOk(viewers[viewer.resumeToken := viewer.Value()])
      ensures viewer.bridge == null || fresh(viewer.bridge)
      ensures started ==> Serves(viewer.bridge, viewer.channelId, viewer.resumeToken, readOnly)
      ensures Stored(old(tmux.tokens), tmux.tokens, viewer.paneId, viewer.resumeToken)
      ensures tmux.obeys && viewer.paneId in tmux.panes ==> started
      ensures old(viewer.bridge) != null ==> old(viewer.bridge).closed
      ensures started ==> viewer.bridge.IsOpen(tmux)
      ensures started && old(viewer.bridge) == null ==> viewer.bridge.size == (80, 24)
      ensures started && old(viewer.bridge) != null ==>
                var size := old(viewer.bridge).size;
                viewer.bridge.size == (OrDefault(size.0, 80), OrDefault(size.1, 24))
    {
      var size := EndBridge(viewer.bridge);
      var bridge, _, _ := NewBridge(tmux, viewer.channelId, viewer.paneId, readOnly, viewer.letterbox,
                                    viewer.resumeToken, size.0, size.1);
      forall t ensures ViewerIs(viewers, t) {
        assert old(ViewerIs(viewers, t));
      }
      StoreBridge(viewer, bridge, readOnly, viewers);
      started := bridge != null;
    }

    method StoreBridge(viewer: Viewer, bridge: Bridge?, readOnly: bool, ghost viewers: map<Id, A.Viewer>)
      requires ViewersOk(viewers) && viewer.resumeToken in viewerByToken && viewerByToken[viewer.resumeToken] == viewer
      requires bridge != null ==>
                 && bridge.readOnly == readOnly && bridge.resumeToken == viewer.resumeToken
                 && bridge.paneId == viewer.paneId
      modifies viewer`bridge, viewer`readOnly
      ensures viewer.bridge == bridge
      ensures viewer.Value() ==
              old(viewer.Value()).(pty := PtyOf(bridge),
                                   readOnly := if bridge != null then readOnly else old(viewer.readOnly))
      ensures ViewersOk(viewers[viewer.resumeToken := viewer.Value()])
    {
      viewer.bridge := bridge;
      if bridge != null {
        viewer.readOnly := readOnly;
      }
      ghost var after := viewers[viewer.resumeToken := viewer.Value()];
      forall t ensures ViewerIs(after, t) {
        assert old(ViewerIs(viewers, t)) && old(ViewerIs(viewers, viewer.resumeToken));
      }
    }

    method ReplaceViewerBridge(ghost channelId: Id, viewer: Viewer, readOnly: bool) returns (started: bool)
      requires Coherent() && channelId in state.channels && A.HasViewer(state, channelId)
      requires state.channels[channelId].token == viewer.resumeToken
      requires viewer.resumeToken in viewerByToken && viewerByToken[viewer.resumeToken] == viewer
      modifies viewer`bridge, viewer`readOnly, PtySet(viewer.bridge)`closed, PtySet(viewer.bridge)`tokenRemoved, tmux,
               this`state
      ensures Coherent() && state == A.ReplaceBridge(old(state), channelId, readOnly, started)
      ensures viewer.bridge == null || fresh(viewer.bridge)
      ensures started ==> Serves(viewer.bridge, viewer.channelId, viewer.resumeToken, readOnly)
      ensures Stored(old(tmux.tokens), tmux.tokens, viewer.paneId, viewer.resumeToken)
      ensures tmux.obeys && viewer.paneId in tmux.panes ==> started
    {
      ghost var before := state;
      assert ViewerIs(state.viewers, viewer.resumeToken);
      started := ReplaceBridge(viewer, readOnly, state.viewers);
      ghost var role := if started then readOnly else A.ViewerOf(before, channelId).readOnly;
      SetBridgeKeepsMaps(viewerByToken, Maps(), before, channelId, PtyOf(viewer.bridge), role);
      state := A.SetBridge(before, channelId, PtyOf(viewer.bridge), role);
    }

    /** What the maps hold for one attached channel. */
    lemma AttachedViewer(c: Id)
      requires Coherent() && A.AllLinked(state)
      ensures c in state.channels <==> c in viewerByChannel
      ensures c in state.channels <==> c in channelToPane
      ensures c in state.channels ==>
                && A.ChannelLinked(state, c)
                && viewerByChannel[c].Value() == A.ViewerOf(state, c)
                && viewerByChannel[c].resumeToken == state.channels[c].token
                && viewerByChannel[c].resumeToken in viewerByToken
                && viewerByToken[viewerByChannel[c].resumeToken] == viewerByChannel[c]
                && viewerByChannel[c] in Repr
    {
      assert EntryOk(viewerByToken, Maps(), state, c);
      if c in state.channels {
        assert A.ChannelLinked(state, c);
        assert ViewerIs(state.viewers, state.channels[c].token);
      }
    }

    method StoreController(controllers: map<Id, Id>)
      requires Coherent()
      modifies this`paneController, this`state
      ensures Coherent() && state == old(state).(controller := controllers) && paneController == controllers
    {
      MapsIgnoreControl(viewerByToken, Maps(), state, state.(controller := controllers));
      paneController := controllers;
      state := state.(controller := controllers);
    }

    method StoreReadOnly(channelId: Id, readOnly: bool)
      requires Coherent() && channelId in state.channels
      modifies this`channelReadOnly, this`state
      ensures Coherent() && state == A.SetReadOnly(old(state), channelId, readOnly)
      ensures channelReadOnly == old(channelReadOnly)[channelId := readOnly]
    {
      SetReadOnlyKeepsMaps(viewerByToken, Maps(), state, channelId, readOnly);
      channelReadOnly := channelReadOnly[channelId := readOnly];
      state := A.SetReadOnly(state, channelId, readOnly);
    }

    /** Some viewer on `pane`, in whatever order the map yields them. */
    method FindViewer(pane: Id) returns (found: Option<Id>)
      ensures found.Some? ==> found.value in viewerByChannel && viewerByChannel[found.value].paneId == pane
      ensures found.None? ==> forall c :: c in viewerByChannel ==> viewerByChannel[c].paneId != pane
    {
      var rest := viewerByChannel.Keys;
      while rest != {}
        invariant rest <= viewerByChannel.Keys
        invariant forall c :: c in viewerByChannel && c !in rest ==> viewerByChannel[c].paneId != pane
      {
        var c :| c in rest;
        if viewerByChannel[c].paneId == pane {
          return Some(c);
        }
        rest := rest - {c};
      }
      return None;
    }

    method FindCandidate(pane: Id) returns (found: Option<Id>)
      requires Coherent() && A.AllLinked(state)
      ensures found.Some? ==> A.Candidate(state, pane, found.value)
      ensures found.None? ==> forall c :: c in state.channels ==> !A.Candidate(state, pane, c)
      ensures found.None? ==> forall c :: c in viewerByChannel ==> viewerByChannel[c].paneId != pane
    {
      forall c ensures c in state.channels ==>
                 c in viewerByChannel && viewerByChannel[c].paneId == A.ViewerOf(state, c).paneId
               ensures c in viewerByChannel ==> c in state.channels
      {
        AttachedViewer(c);
      }
      found := FindViewer(pane);
    }

    /** Second critical section of a detach: some viewer left on the pane becomes its controller. */
    method AssignNextViewerController(pane: Id) returns (ghost next: Option<Id>, ghost started: bool)
      requires Valid() && state.promotion == Some(pane)
      modifies this`paneController, this`channelReadOnly, this`state,
               viewerByChannel.Values, set v | v in viewerByChannel.Values && v.bridge != null :: v.bridge, tmux
      ensures A.Enabled(old(state), A.PromoteEvent(next, started))
      ensures Valid() && state == A.Promote(old(state), next, started)
      ensures started && next.Some? ==>
                && HasOwnPty(next.value, false)
                && paneController == old(paneController)[pane := next.value]
                && channelReadOnly == old(channelReadOnly)[next.value := false]
      ensures !started ==> paneController == old(paneController) && channelReadOnly == old(channelReadOnly)
      ensures next.None? ==> forall c :: c in viewerByChannel ==> viewerByChannel[c].paneId != pane
      ensures tmux.obeys && next.Some? && pane in tmux.panes ==> started
      ensures Stores(old(state), A.PromoteEvent(next, started), old(tmux.tokens), tmux.tokens)
    {
      A.InvIsAllLinked(state);
      var chosen := FindCandidate(pane);
      next, started := chosen, false;
      forall t ensures ViewerIs(state.viewers, t) {
        assert old(ViewerIs(state.viewers, t));
      }
      A.SetPromotionKeepsInv(state, None);
      SetPromotion(None);
      if chosen.None? {
        return;
      }
      A.InvIsAllLinked(state);
      started := InstallController(pane, chosen.value);
      A.PromoteKeepsInv(old(state), next, started);
    }

    /** The viewer of a channel has a PTY of its own in that role. */
    predicate HasOwnPty(channelId: Id, readOnly: bool)
      reads this`viewerByChannel, viewerByChannel.Values
    {
      && channelId in viewerByChannel
      && var viewer := viewerByChannel[channelId];
         Serves(viewer.bridge, viewer.channelId, viewer.resumeToken, readOnly)
    }

    method InstallController(pane: Id, channelId: Id) returns (started: bool)
      requires Coherent() && A.AllLinked(state) && channelId in state.channels
      modifies this`paneController, this`channelReadOnly, this`state,
               viewerByChannel.Values, set v | v in viewerByChannel.Values && v.bridge != null :: v.bridge, tmux
      ensures Coherent()
      ensures
        var replaced := A.ReplaceBridge(old(state), channelId, false, started);
        state == if started
                 then A.SetReadOnly(replaced, channelId, false).(controller := old(state).controller[pane := channelId])
                 else replaced
      ensures started ==>
                && HasOwnPty(channelId, false)
                && paneController == old(paneController)[pane := channelId]
                && channelReadOnly == old(channelReadOnly)[channelId := false]
      ensures !started ==> paneController == old(paneController) && channelReadOnly == old(channelReadOnly)
      ensures tmux.obeys && A.ViewerOf(old(state), channelId).paneId in tmux.panes ==> started
      ensures Stored(old(tmux.tokens), tmux.tokens, A.ViewerOf(old(state), channelId).paneId,
                     old(state).channels[channelId].token)
    {
      AttachedViewer(channelId);
      started := ReplaceViewerBridge(channelId, viewerByChannel[channelId], false);
      if started {
        StoreController(paneController[pane := channelId]);
        StoreReadOnly(channelId, false);
      }
    }

    // -------------------------------------------------------------------------------------------
    // Taking control
    // -------------------------------------------------------------------------------------------

    method GrantViewer(channelId: Id, viewer: Viewer, readOnly: bool, ghost r: A.State)
      requires Coherent() && A.AllLinked(state)
      requires channelId in viewerByChannel && viewerByChannel[channelId] == viewer
      requires channelId in state.channels
      requires r == A.SetReadOnly(A.SetBridge(state, channelId, PtyOf(viewer.bridge), readOnly), channelId, readOnly)
      modifies this`channelReadOnly, this`state, viewer`readOnly
      ensures Coherent() && state == r
    {
      AttachedViewer(channelId);
      ghost var v := viewer.Value().(readOnly := readOnly);
      PutKeepsMaps(viewerByToken, Maps(), state, r, channelId, v, readOnly);
      assert EntryOk(viewerByToken, Maps(), state, channelId);
      assert channelToPane == channelToPane[channelId := v.paneId];
      channelReadOnly := channelReadOnly[channelId := readOnly];
      WriteReadOnly(viewer, readOnly, state.viewers);
      state := r;
    }

    method WriteReadOnly(viewer: Viewer, readOnly: bool, ghost viewers: map<Id, A.Viewer>)
      requires ViewersOk(viewers) && viewer.resumeToken in viewerByToken && viewerByToken[viewer.resumeToken] == viewer
      modifies viewer`readOnly
      ensures viewer.Value() == old(viewer.Value()).(readOnly := readOnly)
      ensures ViewersOk(viewers[viewer.resumeToken := viewer.Value()])
    {
      viewer.readOnly := readOnly;
      ghost var after := viewers[viewer.resumeToken := viewer.Value()];
      forall t ensures ViewerIs(after, t) {
        assert old(ViewerIs(viewers, t)) && old(ViewerIs(viewers, viewer.resumeToken));
      }
    }

    /** Makes `channelId` the one writer of `pane`, going through the viewers in any order. */
    method GrantRoles(pane: Id, channelId: Id, ghost viewers: set<Viewer>)
      requires Coherent() && A.AllLinked(state) && viewers == viewerByChannel.Values
      modifies this`paneController, this`channelReadOnly, this`state, viewers`readOnly
      ensures Coherent() && state == A.Grant(old(state), pane, channelId)
    {
      var rest := viewerByChannel.Keys;
      ghost var s0 := state;
      ghost var done: set<Id> := {};
      L.GrantNone(s0, pane, channelId);
      AttachedKeys();
      while rest != {}
        invariant rest <= viewerByChannel.Keys && rest !! done && rest + done == s0.channels.Keys
        invariant Coherent() && state == L.GrantSome(s0, pane, channelId, done)
      {
        var id :| id in rest;
        L.GrantSomeIsLinked(s0, pane, channelId, done);
        GrantOneViewer(pane, channelId, id, viewerByChannel[id]);
        L.GrantStep(s0, pane, channelId, done, id);
        rest := rest - {id};
        done := done + {id};
      }
      assert done == s0.channels.Keys;
      L.GrantAll(s0, pane, channelId);
      StoreController(paneController[pane := channelId]);
    }

    lemma AttachedKeys()
      requires Coherent() && A.AllLinked(state)
      ensures viewerByChannel.Keys == state.channels.Keys
    {
      forall c ensures c in viewerByChannel <==> c in state.channels {
        AttachedViewer(c);
      }
    }

    method GrantOneViewer(pane: Id, channelId: Id, id: Id, viewer: Viewer)
      requires Coherent() && A.AllLinked(state) && id in state.channels
      requires id in viewerByChannel && viewerByChannel[id] == viewer
      modifies this`channelReadOnly, this`state, viewer`readOnly
      ensures Coherent() && state == L.GrantOne(old(state), pane, channelId, id)
    {
      AttachedViewer(id);
      if viewer.paneId == pane {
        GrantViewer(id, viewer, id != channelId, L.GrantOne(state, pane, channelId, id));
      }
    }

    /** Control passes to `channelId` while nobody controls `pane`. */
    method ClaimControl(pane: Id, channelId: Id, viewer: Viewer) returns (promoted: bool)
      requires Coherent() && A.AllLinked(state) && channelId in state.channels
      requires channelId in viewerByChannel && viewerByChannel[channelId] == viewer
      modifies this`paneController, this`channelReadOnly, this`state, viewerByChannel.Values,
               PtySet(viewer.bridge)`closed, PtySet(viewer.bridge)`tokenRemoved, tmux
      ensures Coherent()
      ensures
        var replaced := A.ReplaceBridge(old(state), channelId, false, promoted);
        state == if promoted then A.Grant(replaced, pane, channelId) else replaced
      ensures forall v: Viewer | v in viewerByChannel.Values && v != viewer ::
                v.bridge == old(v.bridge) && v.channelId == old(v.channelId) && v.paneId == old(v.paneId)
      ensures Stored(old(tmux.tokens), tmux.tokens, old(viewer.paneId), viewer.resumeToken)
      ensures tmux.obeys && old(viewer.paneId) in tmux.panes ==> promoted
      ensures promoted ==> Serves(viewer.bridge, viewer.channelId, viewer.resumeToken, false)
    {
      AttachedViewer(channelId);
      promoted := ReplaceViewerBridge(channelId, viewer, false);
      if promoted {
        A.BridgeKeepsLinks(old(state), channelId, A.Writing, false);
        GrantRoles(pane, channelId, viewerByChannel.Values);
      }
    }

    /** The previous controller is left without a PTY: it becomes read-only and the pane is free. */
    method OrphanPane(pane: Id, current: Id)
      requires Coherent() && current in state.channels
      modifies this`paneController, this`channelReadOnly, this`state
      ensures Coherent() && state == A.Orphan(old(state), pane, current)
    {
      StoreController(paneController - {pane});
      StoreReadOnly(current, true);
    }

    /** Makes the previous controller read-only, or frees the pane if that fails. */
    method Demote(pane: Id, current: Id, viewer: Viewer) returns (demoted: bool)
      requires Coherent() && A.AllLinked(state) && current in state.channels
      requires current in viewerByChannel && viewerByChannel[current] == viewer
      modifies this`paneController, this`channelReadOnly, this`state,
               viewer`bridge, viewer`readOnly, PtySet(viewer.bridge)`closed, PtySet(viewer.bridge)`tokenRemoved, tmux
      ensures Coherent()
      ensures
        var replaced := A.ReplaceBridge(old(state), current, true, demoted);
        state == if demoted then replaced else A.Orphan(replaced, pane, current)
      ensures demoted ==> A.AllLinked(state)
      ensures Stored(old(tmux.tokens), tmux.tokens, viewer.paneId, viewer.resumeToken)
      ensures viewer.bridge == null || fresh(viewer.bridge)
      ensures demoted ==> Serves(viewer.bridge, viewer.channelId, viewer.resumeToken, true)
      ensures tmux.obeys && viewer.paneId in tmux.panes ==> demoted
    {
      AttachedViewer(current);
      demoted := ReplaceViewerBridge(current, viewer, true);
      if !demoted {
        OrphanPane(pane, current);
      } else {
        A.BridgeKeepsLinks(old(state), current, A.Reading, true);
      }
    }

    /** Gives the previous controller its PTY back, or frees the pane if that fails. */
    method Restore(pane: Id, current: Id, viewer: Viewer) returns (restored: bool)
      requires Coherent() && A.AllLinked(state) && current in state.channels
      requires current in viewerByChannel && viewerByChannel[current] == viewer
      modifies this`paneController, this`channelReadOnly, this`state,
               viewer`bridge, viewer`readOnly, PtySet(viewer.bridge)`closed, PtySet(viewer.bridge)`tokenRemoved, tmux
      ensures Coherent()
      ensures
        var replaced := A.ReplaceBridge(old(state), current, false, restored);
        state == if restored then replaced else A.Orphan(replaced, pane, current)
      ensures restored ==> Serves(viewer.bridge, viewer.channelId, viewer.resumeToken, false)
      ensures tmux.obeys && viewer.paneId in tmux.panes ==> restored
      ensures Stored(old(tmux.tokens), tmux.tokens, viewer.paneId, viewer.resumeToken)
    {
      AttachedViewer(current);
      restored := ReplaceViewerBridge(current, viewer, false);
      if !restored {
        OrphanPane(pane, current);
      }
    }

    /** After the demotion: control passes to `channelId`, or back to `current`, or to nobody. */
    method PromoteOrRestore(pane: Id, channelId: Id, target: Viewer, current: Id, holder: Viewer)
      returns (promoted: bool, restored: bool)
      requires Coherent() && A.AllLinked(state) && channelId in state.channels && current in state.channels
      requires channelId in viewerByChannel && viewerByChannel[channelId] == target
      requires current in viewerByChannel && viewerByChannel[current] == holder && target != holder
      requires Serves(holder.bridge, holder.channelId, holder.resumeToken, true)
      modifies this`paneController, this`channelReadOnly, this`state,
               viewerByChannel.Values, PtySet(target.bridge)`closed, PtySet(target.bridge)`tokenRemoved,
               PtySet(holder.bridge)`closed, PtySet(holder.bridge)`tokenRemoved, tmux
      ensures Coherent()
      ensures
        var claimed := A.ReplaceBridge(old(state), channelId, false, promoted);
        var returned := A.ReplaceBridge(claimed, current, false, restored);
        state == if promoted then A.Grant(claimed, pane, channelId)
                 else if restored then returned else A.Orphan(returned, pane, current)
      ensures promoted ==>
                && Serves(target.bridge, target.channelId, target.resumeToken, false)
                && Serves(holder.bridge, holder.channelId, holder.resumeToken, true)
      ensures !promoted && restored ==> Serves(holder.bridge, holder.channelId, holder.resumeToken, false)
      ensures tmux.obeys && old(target.paneId) in tmux.panes ==> promoted
      ensures StoredTwice(old(tmux.tokens), tmux.tokens, old(target.paneId), target.resumeToken,
                          old(holder.paneId), holder.resumeToken)
    {
      restored := false;
      promoted := ClaimControl(pane, channelId, target);
      if !promoted {
        A.BridgeKeepsLinks(old(state), channelId, A.NoPty, A.ViewerOf(state, channelId).readOnly);
        restored := Restore(pane, current, holder);
      }
    }

    /** Taking control of a pane that nobody controls. */
    static lemma ClaimValue(s: A.State, c: Id, answers: A.ControlAnswers)
      requires c in s.channels && A.ViewerOf(s, c).paneId !in s.controller
      ensures
        var claimed := A.ReplaceBridge(s, c, false, answers.promoted);
        A.TakeControl(s, c, answers) ==
        if answers.promoted then (A.Grant(claimed, A.ViewerOf(s, c).paneId, c), Ok(()))
        else (claimed, Err(A.PromoteFailed))
    {
    }

    /** Taking control from another channel, in terms of what became of the two PTYs. */
    static lemma TransferValue(s: A.State, c: Id, current: Id, answers: A.ControlAnswers)
      requires c in s.channels && current in s.channels && c != current
      requires A.Controls(s, current, A.ViewerOf(s, c).paneId)
      ensures
        var pane := A.ViewerOf(s, c).paneId;
        var demoted := A.ReplaceBridge(s, current, true, answers.demoted);
        A.TakeControl(s, c, answers) ==
        if !answers.demoted then (A.Orphan(demoted, pane, current), Err(A.DemoteFailed))
        else
          var claimed := A.ReplaceBridge(demoted, c, false, answers.promoted);
          if answers.promoted then (A.Grant(claimed, pane, c), Ok(()))
          else
            var returned := A.ReplaceBridge(claimed, current, false, answers.restored);
            if answers.restored then (returned, Err(A.PromoteFailed))
            else (A.Orphan(returned, pane, current), Err(A.RestoreFailed))
    {
    }

    /** Control passes from `current` to `channelId`, or back, or to nobody. */
    method TransferControl(pane: Id, channelId: Id, target: Viewer, current: Id, holder: Viewer)
      returns (result: Result<(), A.ControlError>, ghost answers: A.ControlAnswers)
      requires Coherent() && A.AllLinked(state) && channelId in state.channels && current in state.channels
      requires channelId in viewerByChannel && viewerByChannel[channelId] == target
      requires current in viewerByChannel && viewerByChannel[current] == holder
      requires A.ViewerOf(state, channelId).paneId == pane && A.Controls(state, current, pane)
      requires channelId != current && target != holder && target.paneId == pane == holder.paneId
      modifies this`paneController, this`channelReadOnly, this`state,
               viewerByChannel.Values, PtySet(target.bridge)`closed, PtySet(target.bridge)`tokenRemoved,
               PtySet(holder.bridge)`closed, PtySet(holder.bridge)`tokenRemoved, tmux
      ensures Coherent()
      ensures (state, result) == A.TakeControl(old(state), channelId, answers)
      ensures result.Ok? ==>
                && Serves(target.bridge, target.channelId, target.resumeToken, false)
                && Serves(holder.bridge, holder.channelId, holder.resumeToken, true)
      ensures result == Err(A.PromoteFailed) ==> Serves(holder.bridge, holder.channelId, holder.resumeToken, false)
      ensures tmux.obeys && pane in tmux.panes ==> result.Ok?
      ensures StoredTwice(old(tmux.tokens), tmux.tokens, old(target.paneId), target.resumeToken,
                          old(holder.paneId), holder.resumeToken)
    {
      answers := A.ControlAnswers(false, false, false);
      var demoted := Demote(pane, current, holder);
      if !demoted {
        TransferValue(old(state), channelId, current, answers);
        return Err(A.DemoteFailed), answers;
      }
      var promoted, restored := PromoteOrRestore(pane, channelId, target, current, holder);
      answers := A.ControlAnswers(true, promoted, restored);
      TransferValue(old(state), channelId, current, answers);
      if promoted {
        return Ok(()), answers;
      }
      return Err(if restored then A.PromoteFailed else A.RestoreFailed), answers;
    }

    /** The recorded controller of a pane may type. */
    lemma ControllerMayType(channelId: Id, pane: Id)
      requires Valid() && A.Controls(state, channelId, pane)
      ensures pane in paneController && paneController[pane] == channelId
      ensures channelId in channelReadOnly && !channelReadOnly[channelId]
    {
      assert A.ControllerOk(state, pane) && EntryOk(viewerByToken, Maps(), state, channelId);
    }

    /** Control of a pane that somebody else or nobody has. */
    method GainControl(channelId: Id, viewer: Viewer, pane: Id)
      returns (result: Result<(), A.ControlError>, ghost answers: A.ControlAnswers)
      requires Valid() && state.promotion.None? && channelId in state.channels
      requires channelId in viewerByChannel && viewerByChannel[channelId] == viewer
      requires pane == A.ViewerOf(state, channelId).paneId == viewer.paneId && !A.Controls(state, channelId, pane)
      modifies this`paneController, this`channelReadOnly, this`state,
               viewerByChannel.Values, set v | v in viewerByChannel.Values && v.bridge != null :: v.bridge, tmux
      ensures Valid() && (state, result) == A.TakeControl(old(state), channelId, answers)
      ensures result.Ok? ==> Serves(viewer.bridge, viewer.channelId, viewer.resumeToken, false)
      ensures result.Ok? || result == Err(A.PromoteFailed) ==>
                pane in old(state).controller ==>
                  var current := old(state).controller[pane];
                  && current in viewerByChannel
                  && Serves(viewerByChannel[current].bridge, viewerByChannel[current].channelId,
                            viewerByChannel[current].resumeToken, result.Ok?)
      ensures result != Err(A.ChannelNotFound) && (tmux.obeys && pane in tmux.panes ==> result.Ok?)
      ensures Stores(old(state), A.ControlEvent(channelId, answers), old(tmux.tokens), tmux.tokens)
    {
      answers := A.ControlAnswers(false, false, false);
      A.InvIsAllLinked(state);
      AttachedViewer(channelId);
      if pane !in paneController {
        var promoted := ClaimControl(pane, channelId, viewer);
        answers := answers.(promoted := promoted);
        result := if promoted then Ok(()) else Err(A.PromoteFailed);
        ClaimValue(old(state), channelId, answers);
      } else {
        var current := paneController[pane];
        assert A.ControllerOk(state, pane);
        AttachedViewer(current);
        TokensAreDistinct(state, channelId, current);
        result, answers := TransferControl(pane, channelId, viewer, current, viewerByChannel[current]);
      }
      A.TakeControlKeepsInv(old(state), channelId, answers);
    }

    /** Makes `channelId` the controller of its pane. */
    method TakeControl(channelId: Id) returns (result: Result<(), A.ControlError>, ghost answers: A.ControlAnswers)
      requires Valid() && state.promotion.None?
      modifies this`paneController, this`channelReadOnly, this`state,
               viewerByChannel.Values, set v | v in viewerByChannel.Values && v.bridge != null :: v.bridge, tmux
      ensures Valid()
      ensures (state, result) == A.TakeControl(old(state), channelId, answers)
      ensures result.Ok? && !A.Controls(old(state), channelId, A.ViewerOf(old(state), channelId).paneId) ==>
                && channelId in viewerByChannel
                && Serves(viewerByChannel[channelId].bridge, viewerByChannel[channelId].channelId,
                          viewerByChannel[channelId].resumeToken, false)
      ensures result.Ok? || result == Err(A.PromoteFailed) ==>
                var pane := A.ViewerOf(old(state), channelId).paneId;
                pane in old(state).controller && old(state).controller[pane] != channelId ==>
                  var current := old(state).controller[pane];
                  && current in viewerByChannel
                  && Serves(viewerByChannel[current].bridge, viewerByChannel[current].channelId,
                            viewerByChannel[current].resumeToken, result.Ok?)
      ensures result == Err(A.ChannelNotFound) <==> channelId !in old(state).channels
      ensures tmux.obeys && A.ViewerOf(old(state), channelId).paneId in tmux.panes ==>
                result.Ok? || channelId !in old(state).channels
      ensures result.Ok? ==>
                var pane := A.ViewerOf(old(state), channelId).paneId;
                && pane in paneController && paneController[pane] == channelId
                && channelId in channelReadOnly && !channelReadOnly[channelId]
      ensures Stores(old(state), A.ControlEvent(channelId, answers), old(tmux.tokens), tmux.tokens)
    {
      answers := A.ControlAnswers(false, false, false);
      A.InvIsAllLinked(state);
      AttachedViewer(channelId);
      if channelId !in channelToPane {
        return Err(A.ChannelNotFound), answers;
      }
      var viewer := viewerByChannel[channelId];
      var pane := viewer.paneId;
      if pane in paneController && paneController[pane] == channelId {
        ControllerMayType(channelId, pane);
        return Ok(()), answers;
      }
      result, answers := GainControl(channelId, viewer, pane);
      if result.Ok? {
        ControllerMayType(channelId, pane);
      }
    }

    // -------------------------------------------------------------------------------------------
    // Lost connections and expiry
    // -------------------------------------------------------------------------------------------

    method MarkViewer(channelId: Id, viewer: Viewer, now: int)
      requires Coherent() && A.AllLinked(state) && channelId in state.channels
      requires channelId in viewerByChannel && viewerByChannel[channelId] == viewer
      modifies this`state, viewer`stale, viewer`staleAt, viewer`zoomApplied, tmux`zoomed
      ensures Coherent() && state == L.MarkOne(old(state), channelId, now)
      ensures tmux.obeys && !old(viewer.stale) && old(ZoomedWindow(viewer)).Some? ==>
                old(ZoomedWindow(viewer)).value !in tmux.zoomed
    {
      AttachedViewer(channelId);
      if viewer.stale {
        return;
      }
      ghost var r := L.MarkOne(state, channelId, now);
      MarkKeepsMaps(viewerByToken, Maps(), state, channelId, now);
      WriteStale(viewer, now, state.viewers);
      CleanupZoom(viewer, r.viewers);
      state := r;
    }

    method WriteStale(viewer: Viewer, now: int, ghost viewers: map<Id, A.Viewer>)
      requires ViewersOk(viewers) && viewer.resumeToken in viewerByToken && viewerByToken[viewer.resumeToken] == viewer
      modifies viewer`stale, viewer`staleAt
      ensures viewer.Value() == old(viewer.Value()).(stale := true, staleAt := Some(now))
      ensures ViewersOk(viewers[viewer.resumeToken := viewer.Value()])
    {
      viewer.stale := true;
      viewer.staleAt := Some(now);
      ghost var after := viewers[viewer.resumeToken := viewer.Value()];
      forall t ensures ViewerIs(after, t) {
        assert old(ViewerIs(viewers, t)) && old(ViewerIs(viewers, viewer.resumeToken));
      }
    }

    /** The connection that owned the channels is gone. */
    method MarkChannelsStale(now: int)
      requires Valid()
      modifies this`state, viewerByChannel.Values, tmux`zoomed
      ensures Valid() && state == A.MarkStale(old(state), now)
    {
      A.InvIsAllLinked(state);
      AttachedKeys();
      var rest := viewerByChannel.Keys;
      ghost var s0 := state;
      ghost var done: set<Id> := {};
      L.MarkNone(s0, now);
      while rest != {}
        invariant rest <= viewerByChannel.Keys && rest !! done && rest + done == s0.channels.Keys
        invariant Coherent() && state == L.MarkSome(s0, done, now)
      {
        var id :| id in rest;
        L.MarkSomeIsLinked(s0, done, now);
        MarkViewer(id, viewerByChannel[id], now);
        L.MarkStep(s0, done, id, now);
        rest := rest - {id};
        done := done + {id};
      }
      assert done == s0.channels.Keys;
      L.MarkAll(s0, now);
      A.MarkStaleKeepsInv(s0, now);
    }

    predicate HasExpired(viewer: Viewer, now: int)
      reads viewer
      ensures HasExpired(viewer, now) == A.Expired(viewer.Value(), now)
    {
      || (viewer.channelId == NoId && viewer.detachedAt.Some? && now - viewer.detachedAt.value >= A.VIEWER_TTL_SECONDS)
      || (viewer.stale && viewer.staleAt.Some? && now - viewer.staleAt.value >= A.VIEWER_TTL_SECONDS)
    }

    /** Takes the channel of a forgotten viewer, and any control it has, out of the maps. */
    method DropChannel(viewer: Viewer)
      requires Valid() && viewer.resumeToken in state.viewers && state.viewers[viewer.resumeToken] == viewer.Value()
      modifies this`viewerByChannel, this`channelToPane, this`channelSession, this`channelToPTY,
               this`channelPerViewer, this`channelReadOnly, this`paneController
      ensures MapsOk(viewerByToken - {viewer.resumeToken}, Maps(), L.Forget(state, viewer.resumeToken))
      ensures paneController == L.Forget(state, viewer.resumeToken).controller
    {
      ForgetKeepsMaps(viewerByToken, Maps(), state, viewer.resumeToken);
      assert A.ViewerOk(state, viewer.resumeToken);
      assert NoId in state.channels ==> A.ChannelOk(state, NoId);
      if viewer.channelId != NoId {
        DropEntry(viewer.channelId, viewerByToken - {viewer.resumeToken}, L.Forget(state, viewer.resumeToken));
        if viewer.paneId in paneController && paneController[viewer.paneId] == viewer.channelId {
          paneController := paneController - {viewer.paneId};
        }
      }
    }

    /** Forgets one viewer; its PTY is handed back to be closed later. */
    method ForgetViewer(token: Id, viewer: Viewer) returns (bridge: Bridge?)
      requires Valid() && token in viewerByToken && viewerByToken[token] == viewer && token in state.viewers
      modifies this`viewerByChannel, this`viewerByToken, this`channelToPane, this`channelSession, this`channelToPTY,
               this`channelPerViewer, this`channelReadOnly, this`paneController, this`state, viewer, tmux`zoomed
      ensures Valid() && state == L.Forget(old(state), token)
      ensures viewerByToken == old(viewerByToken) - {token} && bridge == old(viewer.bridge)
      ensures tmux.obeys && old(ZoomedWindow(viewer)).Some? ==> old(ZoomedWindow(viewer)).value !in tmux.zoomed
    {
      assert ViewerIs(state.viewers, token);
      L.ForgetKeepsInv(state, token);
      bridge := viewer.bridge;
      DropChannel(viewer);
      viewerByToken := viewerByToken - {token};
      state := L.Forget(state, token);
      forall t ensures ViewerIs(state.viewers, t) {
        assert old(ViewerIs(state.viewers, t));
      }
      ResetViewer(viewer);
    }

    /** A forgotten viewer lets go of everything it had. */
    method ResetViewer(viewer: Viewer)
      requires Valid() && viewer.resumeToken !in viewerByToken
      modifies viewer, tmux`zoomed
      ensures Valid() && viewer.bridge == null && viewer.channelId == NoId
      ensures viewer.detachedAt.None? && !viewer.stale && viewer.staleAt.None?
      ensures tmux.obeys && old(ZoomedWindow(viewer)).Some? ==> old(ZoomedWindow(viewer)).value !in tmux.zoomed
    {
      if viewer.bridge != null {
        CleanupZoom(viewer, state.viewers);
        viewer.bridge := null;
      }
      viewer.channelId := NoId;
      viewer.detachedAt := None;
      viewer.stale := false;
      viewer.staleAt := None;
      forall t ensures ViewerIs(state.viewers, t) {
        assert old(ViewerIs(state.viewers, t));
      }
    }

    /** Forgets one viewer if its time is up; its PTY joins those to be closed. */
    method SweepViewer(token: Id, now: int, closing: seq<Bridge>) returns (expired: seq<Bridge>)
      requires Valid() && token in viewerByToken && token in state.viewers
      modifies this`viewerByChannel, this`viewerByToken, this`channelToPane, this`channelSession, this`channelToPTY,
               this`channelPerViewer, this`channelReadOnly, this`paneController, this`state,
               viewerByToken[token], tmux`zoomed
      ensures Valid()
      ensures state == if A.Expired(old(state).viewers[token], now) then L.Forget(old(state), token) else old(state)
      ensures viewerByToken == old(viewerByToken) || viewerByToken == old(viewerByToken) - {token}
      ensures expired == if A.Expired(old(state).viewers[token], now) && old(viewerByToken[token].bridge) != null
                         then closing + [old(viewerByToken[token].bridge)] else closing
    {
      expired := closing;
      var viewer := viewerByToken[token];
      assert ViewerIs(state.viewers, token);
      if HasExpired(viewer, now) {
        var bridge := ForgetViewer(token, viewer);
        if bridge != null {
          expired := expired + [bridge];
        }
      }
    }

    /** Ends the sessions of the forgotten viewers, outside the lock. */
    method CloseExpired(expired: seq<Bridge>)
      requires Valid()
      modifies tmux, set b | b in expired
      ensures Valid() && tmux.tokens <= old(tmux.tokens)
      ensures forall b :: b in expired ==> b.closed
      ensures old(tmux.tokens) - tmux.tokens <= Places(expired) == old(Places(expired))
      ensures tmux.obeys && old(forall b :: b in expired ==> !b.tokenRemoved) ==>
                tmux.tokens == old(tmux.tokens) - Places(expired)
    {
      var i := 0;
      while i < |expired|
        invariant 0 <= i <= |expired| && Valid() && tmux.tokens <= old(tmux.tokens)
        invariant forall k: nat :: k < i ==> expired[k].closed
        invariant forall b :: b in expired ==> b.paneId == old(b.paneId)
        invariant old(tmux.tokens) - tmux.tokens <= Places(expired) == old(Places(expired))
        invariant tmux.obeys && old(forall b :: b in expired ==> !b.tokenRemoved) ==>
                    && (forall b :: b in expired && b !in expired[..i] ==> !b.tokenRemoved)
                    && (forall k: nat :: k < i ==> (expired[k].paneId, expired[k].resumeToken) !in tmux.tokens)
      {
        label Closing:
        expired[i].Close(tmux, true);
        forall t ensures ViewerIs(state.viewers, t) {
          assert old@Closing(ViewerIs(state.viewers, t));
        }
        i := i + 1;
      }
    }

    /** The PTYs that belong to the expired ones among `done`. */
    ghost predicate Collected(s: A.State, bridges: map<Id, Bridge?>, done: set<Id>, now: int, expired: seq<Bridge>) {
      && (forall t {:trigger t in done} ::
            t in done && t in bridges && t in s.viewers && A.Expired(s.viewers[t], now) ==>
            bridges[t] == null || bridges[t] in expired)
      && (forall b {:trigger b in expired} :: b in expired ==>
            exists t :: t in done && t in bridges && t in s.viewers && A.Expired(s.viewers[t], now) && bridges[t] == b)
    }

    lemma CollectOne(s: A.State, bridges: map<Id, Bridge?>, done: set<Id>, now: int, expired: seq<Bridge>, t: Id)
      requires Collected(s, bridges, done, now, expired) && t in bridges && t in s.viewers
      ensures A.Expired(s.viewers[t], now) && bridges[t] != null ==>
                Collected(s, bridges, done + {t}, now, expired + [bridges[t]])
      ensures !(A.Expired(s.viewers[t], now) && bridges[t] != null) ==>
                Collected(s, bridges, done + {t}, now, expired)
    {
    }

    ghost predicate Untouched(rest: set<Id>, viewers: map<Id, Viewer>, bridges: map<Id, Bridge?>)
      reads this`viewerByToken, viewers.Values
    {
      forall t {:trigger t in rest} :: t in rest ==>
        && t in viewerByToken && t in viewers && viewerByToken[t] == viewers[t] && viewers[t].resumeToken == t
        && t in bridges && viewers[t].bridge == bridges[t]
    }

    ghost function Bridges(): map<Id, Bridge?>
      reads this`viewerByToken, viewerByToken.Values
    {
      map t | t in viewerByToken :: viewerByToken[t].bridge
    }

    /** In the middle of a sweep: the viewers in `rest` are yet to be looked at, the others have been. */
    ghost predicate Sweeping(s0: A.State, viewers: map<Id, Viewer>, bridges: map<Id, Bridge?>, rest: set<Id>, now: int,
                             expired: seq<Bridge>)
      reads this`viewerByToken, this`state, viewers.Values
    {
      var done := s0.viewers.Keys - rest;
      && rest <= s0.viewers.Keys && state == L.SweepSome(s0, done, now)
      && Untouched(rest, viewers, bridges) && Collected(s0, bridges, done, now, expired)
    }

    /** One round of the sweep. */
    method SweepNext(token: Id, now: int, closing: seq<Bridge>, ghost s0: A.State, ghost viewers: map<Id, Viewer>,
                     ghost bridges: map<Id, Bridge?>, ghost rest: set<Id>)
      returns (expired: seq<Bridge>)
      requires Valid() && A.Inv(s0) && token in rest && token in viewerByToken
      requires Sweeping(s0, viewers, bridges, rest, now, closing)
      modifies this`viewerByChannel, this`viewerByToken, this`channelToPane, this`channelSession, this`channelToPTY,
               this`channelPerViewer, this`channelReadOnly, this`paneController, this`state,
               viewerByToken[token], tmux`zoomed
      ensures Valid() && Sweeping(s0, viewers, bridges, rest - {token}, now, expired)
    {
      ghost var done := s0.viewers.Keys - rest;
      assert done + {token} == s0.viewers.Keys - (rest - {token});
      CollectOne(s0, bridges, done, now, closing, token);
      expired := SweepViewer(token, now, closing);
      if A.Expired(s0.viewers[token], now) {
        L.SweepForget(s0, done, token, now);
      } else {
        L.SweepKeep(s0, done, token, now);
      }
    }

    /** Each PTY has the token of the viewer it was started for and is on its pane. */
    ghost predicate Owned(s: A.State, bridges: map<Id, Bridge?>)
      reads (set t | t in bridges && bridges[t] != null :: bridges[t])`paneId
    {
      && bridges.Keys == s.viewers.Keys
      && forall t {:trigger bridges[t]} :: t in bridges ==>
           && (bridges[t] == null <==> s.viewers[t].pty == A.NoPty)
           && (bridges[t] != null ==> bridges[t].resumeToken == t && bridges[t].paneId == s.viewers[t].paneId)
    }

    /** The tokens that go when these PTYs are closed. */
    ghost function Places(expired: seq<Bridge>): Tokens
      reads (set b | b in expired)`paneId
    {
      set b | b in expired :: (b.paneId, b.resumeToken)
    }

    lemma CollectedPlaces(s: A.State, bridges: map<Id, Bridge?>, now: int, expired: seq<Bridge>)
      requires Owned(s, bridges) && Collected(s, bridges, s.viewers.Keys, now, expired)
      ensures Places(expired) == SweptPlaces(s, now)
    {
      forall x ensures x in Places(expired) <==> x in SweptPlaces(s, now) {
        if x in Places(expired) {
          var b :| b in expired && x == (b.paneId, b.resumeToken);
          assert b.resumeToken in s.viewers;
        }
        if x in SweptPlaces(s, now) {
          var t :| t in s.viewers && A.Expired(s.viewers[t], now) && s.viewers[t].pty != A.NoPty
                   && x == (s.viewers[t].paneId, t);
          assert t in s.viewers.Keys && bridges[t] in expired;
        }
      }
    }

    /** Before the first round nothing has been forgotten and nothing is left to close. */
    lemma SweepStarts(now: int)
      requires Valid()
      ensures viewerByToken.Keys == state.viewers.Keys
      ensures Sweeping(state, viewerByToken, Bridges(), viewerByToken.Keys, now, [])
      ensures Owned(state, Bridges())
    {
      L.SweepNone(state, now);
      forall t ensures t in viewerByToken <==> t in state.viewers
               ensures t in viewerByToken ==> viewerByToken[t].resumeToken == t
               ensures t in viewerByToken && viewerByToken[t].bridge != null ==>
                         && viewerByToken[t].bridge.resumeToken == t
                         && viewerByToken[t].bridge.paneId == state.viewers[t].paneId
               ensures t in viewerByToken ==>
                         (viewerByToken[t].bridge == null <==> state.viewers[t].pty == A.NoPty)
      {
        assert ViewerIs(state.viewers, t);
      }
    }

    /** After the last round every expired viewer is gone, and no PTY to close has the token of another. */
    lemma SweepEnds(s0: A.State, viewers: map<Id, Viewer>, bridges: map<Id, Bridge?>, now: int, expired: seq<Bridge>)
      requires A.Inv(s0) && Valid() && Sweeping(s0, viewers, bridges, {}, now, expired) && Owned(s0, bridges)
      ensures state == A.Sweep(s0, now) && Collected(s0, bridges, s0.viewers.Keys, now, expired)
      ensures Places(expired) == SweptPlaces(s0, now)
      ensures forall b :: b in expired ==> b.resumeToken !in viewerByToken
    {
      assert s0.viewers.Keys - {} == s0.viewers.Keys;
      L.SweepAll(s0, now);
      CollectedPlaces(s0, bridges, now, expired);
      forall b | b in expired ensures b.resumeToken !in viewerByToken {
        assert ViewerIs(state.viewers, b.resumeToken);
      }
    }

    /**
     Forgets every viewer that nobody came back to for the whole time to live, taking the viewers in
     any order. Exactly their PTYs are left for the caller to close.
     */
    method Sweep(now: int) returns (expired: seq<Bridge>)
      requires Valid()
      modifies this, viewerByToken.Values, tmux`zoomed
      ensures Valid() && state == A.Sweep(old(state), now)
      ensures Collected(old(state), old(Bridges()), old(viewerByToken.Keys), now, expired)
      ensures Places(expired) == SweptPlaces(old(state), now)
      ensures forall b :: b in expired ==> b.resumeToken !in viewerByToken
    {
      expired := [];
      var rest := viewerByToken.Keys;
      ghost var s0, viewers, bridges := state, viewerByToken, Bridges();
      SweepStarts(now);
      while rest != {}
        invariant Valid() && Sweeping(s0, viewers, bridges, rest, now, expired)
      {
        var token :| token in rest;
        expired := SweepNext(token, now, expired, s0, viewers, bridges, rest);
        rest := rest - {token};
      }
      SweepEnds(s0, viewers, bridges, now, expired);
    }

    // -------------------------------------------------------------------------------------------
    // Attach
    // -------------------------------------------------------------------------------------------

    /** The checks that an attach makes before it changes anything. */
    method CheckAttach(channelId: Id, pane: Id, opts: A.AttachOptions)
      returns (check: Option<A.AttachError>, ghost answers: A.AttachAnswers)
      requires Valid()
      ensures Valid() && check == A.AttachCheck(state, channelId, pane, opts, answers)
      ensures check.None? && opts.resumeToken != NoId && opts.resumeToken !in state.viewers ==>
                (pane, opts.resumeToken) in tmux.tokens
      ensures tmux.obeys ==> check != Some(A.CaptureFailed)
      ensures tmux.obeys && (pane, opts.resumeToken) in tmux.tokens ==> check != Some(A.InvalidToken)
    {
      answers := A.AttachAnswers(false, false, false);
      if !A.SizeInRange(opts) {
        return Some(A.SizeOutOfRange), answers;
      }
      assert EntryOk(viewerByToken, Maps(), state, channelId);
      if channelId in channelToPane {
        return Some(A.AlreadyAttached), answers;
      }
      if opts.resumeToken == NoId {
        return None, answers;
      }
      assert ViewerIs(state.viewers, opts.resumeToken);
      if opts.resumeToken in viewerByToken {
        var previous := viewerByToken[opts.resumeToken];
        if previous.paneId != pane
           || (previous.sessionId != NoId && opts.sessionId != NoId && previous.sessionId != opts.sessionId) {
          return Some(A.TokenMismatch), answers;
        }
        if previous.channelId != NoId && !previous.stale {
          return Some(A.TokenInUse), answers;
        }
      } else {
        var stored := tmux.HasToken(pane, opts.resumeToken);
        answers := answers.(tokenStored := stored);
        if !stored {
          forall t ensures ViewerIs(state.viewers, t) {
            assert old(ViewerIs(state.viewers, t));
          }
          return Some(A.InvalidToken), answers;
        }
      }
      var captured := tmux.Try();
      answers := answers.(captured := captured);
      forall t ensures ViewerIs(state.viewers, t) {
        assert old(ViewerIs(state.viewers, t));
      }
      return if captured then None else Some(A.CaptureFailed), answers;
    }

    /** A stale viewer loses its channel and its PTY to the resume that supersedes it. */
    method SupersedeViewer(viewer: Viewer, now: int)
      requires Valid() && viewer.resumeToken in state.viewers
      requires viewer.resumeToken in viewerByToken && viewerByToken[viewer.resumeToken] == viewer
      modifies this, viewer, PtySet(viewer.bridge)`closed, PtySet(viewer.bridge)`tokenRemoved, tmux
      ensures Valid() && state == A.Supersede(old(state), viewer.resumeToken, now)
      ensures viewerByToken == old(viewerByToken) && Repr == old(Repr)
      ensures viewer.bridge == old(viewer.bridge) || viewer.bridge == null
      ensures tmux.tokens == old(tmux.tokens)
      ensures old(viewer.channelId) != NoId && old(viewer.bridge) != null ==>
                old(viewer.bridge).closed && viewer.bridge == null
    {
      assert ViewerIs(state.viewers, viewer.resumeToken) && A.ViewerOk(state, viewer.resumeToken);
      assert NoId in state.channels ==> A.ChannelOk(state, NoId);
      if viewer.channelId != NoId {
        var bridge := viewer.bridge;
        var _ := UnlinkViewer(viewer.channelId, viewer, false, now);
        CloseDetached(bridge, true);
      }
    }

    /** A controller whose connection is gone does not keep the pane. */
    method ReleasePane(pane: Id)
      requires Valid()
      modifies this`paneController, this`state
      ensures Valid() && state == A.ReleaseStaleController(old(state), pane)
    {
      A.ReleaseKeepsInv(state, pane);
      A.InvIsAllLinked(state);
      if pane in paneController {
        var holder := paneController[pane];
        AttachedViewer(holder);
        if holder in viewerByChannel && viewerByChannel[holder].stale {
          StoreController(paneController - {pane});
        }
      }
    }

    /** Writes the fields of a viewer that is about to be stored under its token. */
    method WriteAttached(viewer: Viewer, channelId: Id, pane: Id, opts: A.AttachOptions, readOnly: bool, bridge: Bridge,
                         ghost viewers: map<Id, A.Viewer>)
      requires ViewersOk(viewers) && bridge.readOnly == readOnly && bridge.resumeToken == viewer.resumeToken
      requires bridge.paneId == pane
      modifies viewer, this`viewerByToken, this`Repr
      ensures viewerByToken == old(viewerByToken)[viewer.resumeToken := viewer] && Repr == old(Repr) + {viewer}
      ensures viewer.Value() == A.Viewer(channelId, pane, opts.sessionId, viewer.resumeToken, readOnly, opts.letterbox,
                                         A.PtyFor(readOnly), None, false, None)
      ensures ViewersOk(viewers[viewer.resumeToken := viewer.Value()]) && viewer.bridge == bridge
      ensures !viewer.zoomApplied
    {
      viewer.channelId := channelId;
      viewer.paneId := pane;
      viewer.sessionId := opts.sessionId;
      viewer.readOnly := readOnly;
      viewer.letterbox := opts.letterbox;
      viewer.zoomApplied := false;
      viewer.bridge := bridge;
      viewer.detachedAt := None;
      viewer.stale := false;
      viewer.staleAt := None;
      viewerByToken := viewerByToken[viewer.resumeToken := viewer];
      Repr := Repr + {viewer};
      ghost var after := viewers[viewer.resumeToken := viewer.Value()];
      forall t ensures ViewerIs(after, t) {
        assert old(ViewerIs(viewers, t)) && old(ViewerIs(viewers, viewer.resumeToken));
      }
    }

    method AddEntry(channelId: Id, viewer: Viewer, pane: Id, session: Id, readOnly: bool,
                    ghost byToken: map<Id, Viewer>, ghost r: A.State)
      requires MapsOk(byToken, AddTo(Maps(), channelId, viewer, pane, session, readOnly), r)
      modifies this`viewerByChannel, this`channelToPane, this`channelSession, this`channelToPTY,
               this`channelPerViewer, this`channelReadOnly
      ensures MapsOk(byToken, Maps(), r) && channelId in viewerByChannel && viewerByChannel[channelId] == viewer
    {
      viewerByChannel := viewerByChannel[channelId := viewer];
      channelToPane := channelToPane[channelId := pane];
      channelSession := channelSession[channelId := session];
      channelToPTY := channelToPTY[channelId := true];
      channelPerViewer := channelPerViewer[channelId := true];
      channelReadOnly := channelReadOnly[channelId := readOnly];
    }

    /** Stores an attached viewer in all maps. */
    method StoreAttached(viewer: Viewer, channelId: Id, pane: Id, opts: A.AttachOptions, readOnly: bool, bridge: Bridge,
                         controllers: map<Id, Id>, ghost r: A.State)
      requires Coherent() && A.UnusedToken(state, viewer.resumeToken) && channelId !in state.channels
      requires r == A.Insert(state, channelId, pane, opts, viewer.resumeToken)
      requires readOnly == (pane in state.controller) && controllers == r.controller
      requires bridge.readOnly == readOnly && bridge.resumeToken == viewer.resumeToken && bridge.paneId == pane
      modifies this, viewer
      ensures Coherent() && state == r && Repr == old(Repr) + {viewer}
      ensures viewer.bridge == bridge && channelId in viewerByChannel && viewerByChannel[channelId] == viewer
      ensures !viewer.zoomApplied
    {
      ghost var byToken := viewerByToken[viewer.resumeToken := viewer];
      InsertKeepsMaps(viewerByToken, Maps(), state, channelId, pane, opts, viewer);
      WriteAttached(viewer, channelId, pane, opts, readOnly, bridge, state.viewers);
      label Written:
      assert ViewersOk(r.viewers);
      AddEntry(channelId, viewer, pane, opts.sessionId, readOnly, byToken, r);
      assert viewerByChannel[channelId] == viewer;
      forall t ensures ViewerIs(r.viewers, t) {
        assert old@Written(ViewerIs(r.viewers, t));
      }
      StoreControl(controllers, r);
    }

    /** A viewer whose session has the very name the next one needs gives it up first. */
    method CloseNamesake(viewer: Viewer, channelId: Id) returns (closed: bool)
      requires Valid() && viewer.resumeToken in state.viewers && state.viewers[viewer.resumeToken].channelId == NoId
      requires viewer.resumeToken in viewerByToken && viewerByToken[viewer.resumeToken] == viewer
      modifies this`state, viewer`bridge, PtySet(viewer.bridge)`closed, PtySet(viewer.bridge)`tokenRemoved, tmux
      ensures Valid()
      ensures state == if closed then A.DropBridge(old(state), viewer.resumeToken) else old(state)
      ensures closed <==> old(viewer.bridge) != null && old(viewer.bridge).viewSession == ViewSessionName(channelId)
      ensures closed ==> old(viewer.bridge).closed && viewer.bridge == null
      ensures viewer.bridge == old(viewer.bridge) || viewer.bridge == null
      ensures tmux.tokens == old(tmux.tokens)
    {
      closed := false;
      if viewer.bridge != null && viewer.bridge.viewSession == ViewSessionName(channelId) {
        viewer.bridge.Close(tmux, false);
        forall t ensures ViewerIs(state.viewers, t) {
          assert old(ViewerIs(state.viewers, t));
        }
        A.DropBridgeKeepsInv(state, viewer.resumeToken);
        DropViewerBridge(viewer);
        closed := true;
      }
    }

    method DropViewerBridge(viewer: Viewer)
      requires Coherent() && viewer.resumeToken in state.viewers
      requires viewer.resumeToken in viewerByToken && viewerByToken[viewer.resumeToken] == viewer
      modifies this`state, viewer`bridge
      ensures Coherent() && state == A.DropBridge(old(state), viewer.resumeToken) && viewer.bridge == null
    {
      ghost var r := A.DropBridge(state, viewer.resumeToken);
      DropBridgeKeepsMaps(viewerByToken, Maps(), state, viewer.resumeToken);
      assert ViewerIs(state.viewers, viewer.resumeToken);
      viewer.bridge := null;
      state := r;
      forall t ensures ViewerIs(r.viewers, t) {
        assert old(ViewerIs(state.viewers, t)) && old(ViewerIs(state.viewers, viewer.resumeToken));
      }
    }

    /**
     The channel's own viewer has a PTY of the size asked for, in its role, with a session that is up, and its
     token is on the pane.
     */
    predicate Attached(viewer: Viewer, channelId: Id, pane: Id, readOnly: bool, opts: A.AttachOptions)
      reads this`viewerByChannel, viewer, tmux
    {
      && channelId in viewerByChannel && viewerByChannel[channelId] == viewer
      && Serves(viewer.bridge, channelId, viewer.resumeToken, readOnly) && viewer.bridge.IsOpen(tmux)
      && viewer.bridge.letterbox == opts.letterbox && !viewer.zoomApplied
      && viewer.bridge.size == (if opts.cols == 0 then 80 else opts.cols, if opts.rows == 0 then 24 else opts.rows)
      && (pane, viewer.resumeToken) in tmux.tokens
    }

    /** The viewer gives up the PTY it had for the one that was started. */
    method AdoptBridge(viewer: Viewer, channelId: Id, pane: Id, opts: A.AttachOptions, readOnly: bool, bridge: Bridge,
                       controllers: map<Id, Id>)
      requires Valid() && state.promotion.None? && channelId != NoId && channelId !in state.channels
      requires viewer.resumeToken != NoId && A.UnusedToken(state, viewer.resumeToken)
      requires viewer.resumeToken in state.viewers ==> state.viewers[viewer.resumeToken].channelId == NoId
      requires viewer.bridge != null ==> viewer.bridge.viewSession != bridge.viewSession
      requires readOnly == (pane in state.controller)
      requires controllers == if readOnly then paneController else paneController[pane := channelId]
      requires bridge.readOnly == readOnly && bridge.resumeToken == viewer.resumeToken && bridge.paneId == pane
      modifies this, viewer, PtySet(viewer.bridge)`closed, PtySet(viewer.bridge)`tokenRemoved,
               tmux`sessions, tmux`pinned, tmux`tokens
      ensures Valid() && state == A.Insert(old(state), channelId, pane, opts, viewer.resumeToken)
      ensures viewer.bridge == bridge && channelId in viewerByChannel && viewerByChannel[channelId] == viewer
      ensures !viewer.zoomApplied
      ensures Repr == old(Repr) + {viewer} && tmux.tokens == old(tmux.tokens)
      ensures old(viewer.bridge) != null ==> old(viewer.bridge).closed
      ensures old(bridge.IsOpen(tmux)) ==> bridge.IsOpen(tmux)
    {
      CloseDetached(viewer.bridge, true);
      A.InsertKeepsInv(state, channelId, pane, opts, viewer.resumeToken);
      StoreAttached(viewer, channelId, pane, opts, readOnly, bridge, controllers,
                    A.Insert(state, channelId, pane, opts, viewer.resumeToken));
    }

    /**
     Starts the PTY of an attach and stores the viewer. The channel controls its pane while the PTY
     is being started, unless somebody else does, and gives that up again when it fails.
     */
    method StartAttached(viewer: Viewer, channelId: Id, pane: Id, opts: A.AttachOptions)
      returns (started: bool, readOnly: bool)
      requires Valid() && state.promotion.None? && channelId != NoId && channelId !in state.channels
      requires viewer.resumeToken != NoId && A.UnusedToken(state, viewer.resumeToken)
      requires viewer.resumeToken in state.viewers ==> state.viewers[viewer.resumeToken].channelId == NoId
      requires viewer.bridge != null ==> viewer.bridge.viewSession != ViewSessionName(channelId)
      modifies this, viewer, PtySet(viewer.bridge)`closed, PtySet(viewer.bridge)`tokenRemoved, tmux
      ensures Valid() && readOnly == (pane in old(state).controller)
      ensures state == if started then A.Insert(old(state), channelId, pane, opts, viewer.resumeToken) else old(state)
      ensures Repr == if started then old(Repr) + {viewer} else old(Repr)
      ensures started ==> Attached(viewer, channelId, pane, readOnly, opts)
      ensures started && old(viewer.bridge) != null ==> old(viewer.bridge).closed
      ensures Stored(old(tmux.tokens), tmux.tokens, pane, viewer.resumeToken)
      ensures tmux.obeys && pane in tmux.panes ==> started
    {
      readOnly := pane in paneController;
      var controllers := if readOnly then paneController else paneController[pane := channelId];
      var bridge, _, _ := NewBridge(tmux, channelId, pane, readOnly, opts.letterbox, viewer.resumeToken,
                              opts.cols, opts.rows);
      forall t ensures ViewerIs(state.viewers, t) {
        assert old(ViewerIs(state.viewers, t));
      }
      if bridge == null {
        return false, readOnly;
      }
      AdoptBridge(viewer, channelId, pane, opts, readOnly, bridge, controllers);
      return true, readOnly;
    }

    /** Makes room for a resume: the viewer gives up a stale channel, and a stale controller its pane. */
    method PrepareResume(viewer: Viewer, pane: Id, opts: A.AttachOptions, now: int)
      requires Valid() && A.IsResume(state, opts) && viewer.resumeToken == opts.resumeToken
      requires viewer.resumeToken in viewerByToken && viewerByToken[viewer.resumeToken] == viewer
      modifies this, viewer, PtySet(viewer.bridge)`closed, PtySet(viewer.bridge)`tokenRemoved, tmux
      ensures Valid() && state == A.Prepared(old(state), pane, opts, now)
      ensures viewerByToken == old(viewerByToken) && Repr == old(Repr) && tmux.tokens == old(tmux.tokens)
      ensures viewer.bridge == old(viewer.bridge) || viewer.bridge == null
    {
      SupersedeViewer(viewer, now);
      ReleasePane(pane);
    }

    /** Resumes the viewer that is stored under the token of the request. */
    method ResumeViewer(viewer: Viewer, channelId: Id, pane: Id, opts: A.AttachOptions, now: int)
      returns (started: bool, readOnly: bool, ghost closedEarly: bool)
      requires Valid() && state.promotion.None? && channelId != NoId && channelId !in state.channels
      requires A.IsResume(state, opts) && viewer.resumeToken == opts.resumeToken
      requires viewer.resumeToken in viewerByToken && viewerByToken[viewer.resumeToken] == viewer
      modifies this, viewer, PtySet(viewer.bridge)`closed, PtySet(viewer.bridge)`tokenRemoved, tmux
      ensures Valid() && Repr == if started then old(Repr) + {viewer} else old(Repr)
      ensures
        var prepared := A.Prepared(old(state), pane, opts, now);
        && readOnly == (pane in prepared.controller)
        && (started ==> Attached(viewer, channelId, pane, readOnly, opts))
        && Stored(old(tmux.tokens), tmux.tokens, pane, viewer.resumeToken)
        && state == if started then A.Insert(prepared, channelId, pane, opts, viewer.resumeToken)
                    else if closedEarly then A.DropBridge(prepared, viewer.resumeToken)
                    else prepared
      ensures tmux.obeys && pane in tmux.panes ==> started
    {
      A.PreparedKeepsInv(state, pane, opts, now);
      PrepareResume(viewer, pane, opts, now);
      ghost var prepared := state;
      closedEarly := CloseNamesake(viewer, channelId);
      A.DetachedTokenIsUnused(state, viewer.resumeToken);
      A.InsertForgetsBridge(prepared, channelId, pane, opts, viewer.resumeToken);
      started, readOnly := StartAttached(viewer, channelId, pane, opts);
    }

    /** Attaches a viewer nobody here has seen before. */
    method AttachNewViewer(token: Id, channelId: Id, pane: Id, opts: A.AttachOptions)
      returns (started: bool, readOnly: bool)
      requires Valid() && state.promotion.None? && channelId != NoId && channelId !in state.channels
      requires token != NoId && token !in state.viewers
      modifies this, tmux
      ensures Valid() && fresh(Repr - old(Repr))
      ensures
        var prepared := A.ReleaseStaleController(old(state), pane);
        && readOnly == (pane in prepared.controller)
        && state == if started then A.Insert(prepared, channelId, pane, opts, token) else prepared
      ensures started ==>
                && channelId in viewerByChannel && viewerByChannel[channelId].resumeToken == token
                && Attached(viewerByChannel[channelId], channelId, pane, readOnly, opts)
      ensures Stored(old(tmux.tokens), tmux.tokens, pane, token)
      ensures tmux.obeys && pane in tmux.panes ==> started
    {
      ReleasePane(pane);
      A.DetachedTokenIsUnused(state, token);
      label Allocating:
      var viewer := new Viewer(token);
      forall t ensures ViewerIs(state.viewers, t) {
        assert old@Allocating(ViewerIs(state.viewers, t));
      }
      started, readOnly := StartAttached(viewer, channelId, pane, opts);
    }

    /** The part of an attach that comes after the checks. */
    method AttachViewer(token: Id, channelId: Id, pane: Id, opts: A.AttachOptions, now: int)
      returns (started: bool, readOnly: bool, ghost closedEarly: bool)
      requires Valid() && state.promotion.None? && channelId != NoId && channelId !in state.channels && token != NoId
      requires if opts.resumeToken == NoId then token !in state.viewers else token == opts.resumeToken
      modifies this, viewerByToken.Values, set v | v in viewerByToken.Values && v.bridge != null :: v.bridge, tmux
      ensures Valid() && fresh(Repr - old(Repr))
      ensures
        var prepared := A.Prepared(old(state), pane, opts, now);
        && readOnly == (pane in prepared.controller)
        && state == if started then A.Insert(prepared, channelId, pane, opts, token)
                    else if closedEarly && A.IsResume(prepared, opts) then A.DropBridge(prepared, token)
                    else prepared
      ensures started ==>
                && channelId in viewerByChannel && viewerByChannel[channelId].resumeToken == token
                && Attached(viewerByChannel[channelId], channelId, pane, readOnly, opts)
      ensures Stored(old(tmux.tokens), tmux.tokens, pane, token)
      ensures tmux.obeys && pane in tmux.panes ==> started
    {
      closedEarly := false;
      assert ViewerIs(state.viewers, token);
      if opts.resumeToken != NoId && opts.resumeToken in viewerByToken {
        started, readOnly, closedEarly := ResumeViewer(viewerByToken[token], channelId, pane, opts, now);
      } else {
        started, readOnly := AttachNewViewer(token, channelId, pane, opts);
      }
    }

    /** An attach that has passed the checks. */
    method AttachChecked(channelId: Id, pane: Id, opts: A.AttachOptions, newToken: Id, now: int,
                         ghost checked: A.AttachAnswers)
      returns (result: Result<A.Attached, A.AttachError>, ghost answers: A.AttachAnswers, ghost closedEarly: bool)
      requires Valid() && state.promotion.None?
      requires channelId != NoId && newToken != NoId && newToken !in state.viewers
      requires A.AttachCheck(state, channelId, pane, opts, checked).None?
      modifies this, viewerByToken.Values, set v | v in viewerByToken.Values && v.bridge != null :: v.bridge, tmux
      ensures Valid() && fresh(Repr - old(Repr)) && answers == checked.(started := result.Ok?)
      ensures (state, result) == A.Attach(old(state), channelId, pane, opts, newToken, answers, closedEarly, now)
      ensures result.Ok? ==>
                && channelId in viewerByChannel
                && viewerByChannel[channelId].resumeToken == result.value.resumeToken
                && Attached(viewerByChannel[channelId], channelId, pane, result.value.readOnly, opts)
      ensures tmux.obeys && pane in tmux.panes ==> result.Ok?
      ensures Stores(old(state), A.AttachEvent(channelId, pane, opts, newToken, answers, closedEarly, now),
                     old(tmux.tokens), tmux.tokens)
    {
      var started, readOnly;
      var token := if opts.resumeToken == NoId then newToken else opts.resumeToken;
      started, readOnly, closedEarly := AttachViewer(token, channelId, pane, opts, now);
      answers := checked.(started := started);
      if !started {
        return Err(A.BridgeFailed), answers, closedEarly;
      }
      return Ok(A.Attached(readOnly, token, opts.resumeToken != NoId)), answers, closedEarly;
    }

    /** Attaches a channel to a pane, resuming the viewer of an earlier channel if asked to. */
    method AttachWithOptions(channelId: Id, pane: Id, opts: A.AttachOptions, newToken: Id, now: int)
      returns (result: Result<A.Attached, A.AttachError>, ghost answers: A.AttachAnswers, ghost closedEarly: bool)
      requires Valid() && state.promotion.None?
      requires channelId != NoId && newToken != NoId && newToken !in state.viewers
      modifies this, viewerByToken.Values, set v | v in viewerByToken.Values && v.bridge != null :: v.bridge, tmux
      ensures Valid() && fresh(Repr - old(Repr))
      ensures (state, result) == A.Attach(old(state), channelId, pane, opts, newToken, answers, closedEarly, now)
      ensures result.Ok? ==>
                && channelId in viewerByChannel
                && viewerByChannel[channelId].resumeToken == result.value.resumeToken
                && Attached(viewerByChannel[channelId], channelId, pane, result.value.readOnly, opts)
      ensures tmux.obeys ==> result != Err(A.CaptureFailed) && (pane in tmux.panes ==> result != Err(A.BridgeFailed))
      ensures tmux.obeys && (pane, opts.resumeToken) in old(tmux.tokens) ==> result != Err(A.InvalidToken)
      ensures
        var e := A.AttachEvent(channelId, pane, opts, newToken, answers, closedEarly, now);
        && Presented(old(state), e, old(tmux.tokens))
        && Stores(old(state), e, old(tmux.tokens), tmux.tokens)
    {
      closedEarly := false;
      var check: Option<A.AttachError>;
      check, answers := CheckAttach(channelId, pane, opts);
      if check.Some? {
        return Err(check.value), answers, closedEarly;
      }
      result, answers, closedEarly := AttachChecked(channelId, pane, opts, newToken, now, answers);
    }
  }
}
