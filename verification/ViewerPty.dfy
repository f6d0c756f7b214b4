/**
 A tmux server as far as terminal viewers can see and change it, and the PTY bridge that shows one
 pane of it through a grouped session. Every tmux command may fail, and a command that fails
 changes nothing; nobody but the bridge's owner runs commands while one of its operations is going
 on.
 */
module ViewerPty {
  import opened Options

  /** Grouped sessions share their windows, so a window is named by its group and its index. */
  datatype Window = Window(group: string, index: int)

  datatype ViewState = ViewState(paneId: Id, window: Window, zoomed: bool)

  class Tmux {
    const panes: map<Id, Window>           // the window each pane is in
    const obeys: bool                      // no command fails but for what it names not being there
    const reaps: bool                      // no session or pin outlives the command that ends it
    var sessions: map<Id, Window>          // the current window of each grouped session
    var activePane: map<Window, Id>
    var zoomed: set<Window>
    var pinned: set<Window>                    // windows whose size is set by hand
    var sizes: map<Window, (int, int)>         // the sizes set by hand
    var tokens: set<(Id, Id)>          // (pane, resume token) options

    constructor (layout: map<Id, Window>, obeys: bool, reaps: bool)
      ensures panes == layout && tokens == {} && sessions == map[] && this.obeys == obeys && this.reaps == reaps
    {
      panes, this.obeys, this.reaps := layout, obeys, reaps;
      sessions, activePane, zoomed, pinned, sizes, tokens := map[], map[], {}, {}, map[], {};
    }

    /** What a session shows: its current window, the active pane there, and whether it is zoomed. */
    predicate Shows(session: Id, state: ViewState)
      reads this
    {
      && session in sessions && sessions[session] == state.window
      && state.window in activePane && activePane[state.window] == state.paneId
      && state.zoomed == (state.window in zoomed)
    }

    /** Whether the next command succeeds. */
    method Answer() returns (ok: bool)
      ensures obeys ==> ok
    {
      ok := *;
      ok := ok || obeys;
    }

    method DescribePane(pane: Id) returns (ok: bool, window: Window)
      ensures ok ==> pane in panes && window == panes[pane]
      ensures obeys && pane in panes ==> ok
    {
      window := Window("", 0);
      ok := Answer();
      if pane !in panes {
        ok := false;
      } else {
        window := panes[pane];
      }
    }

    method NewSession(session: Id, window: Window) returns (ok: bool)
      modifies this`sessions
      ensures sessions == if ok then old(sessions)[session := window] else old(sessions)
      ensures obeys ==> ok
    {
      ok := Answer();
      if ok {
        sessions := sessions[session := window];
      }
    }

    method KillSession(session: Id)
      modifies this`sessions
      ensures sessions == old(sessions) || sessions == old(sessions) - {session}
      ensures obeys || reaps ==> sessions == old(sessions) - {session}
    {
      var ok := Answer();
      if ok || reaps {
        sessions := sessions - {session};
      }
    }

    method SelectWindow(session: Id, window: Window) returns (ok: bool)
      modifies this`sessions
      ensures sessions == if ok then old(sessions)[session := window] else old(sessions)
      ensures ok ==> session in old(sessions)
      ensures obeys && session in old(sessions) ==> ok
    {
      ok := Answer();
      ok := ok && session in sessions;
      if ok {
        sessions := sessions[session := window];
      }
    }

    /** Selecting a pane may end the zoom of its window. */
    method SelectPane(pane: Id, window: Window) returns (ok: bool)
      modifies this`activePane, this`zoomed
      ensures activePane == if ok then old(activePane)[window := pane] else old(activePane)
      ensures zoomed - {window} == old(zoomed) - {window} && (!ok ==> zoomed == old(zoomed))
      ensures obeys ==> ok
    {
      ok := Answer();
      if ok {
        activePane := activePane[window := pane];
        var unzooms: bool := *;
        if unzooms {
          zoomed := zoomed - {window};
        }
      }
    }

    method PinWindow(window: Window) returns (ok: bool)
      modifies this`pinned
      ensures pinned == if ok then old(pinned) + {window} else old(pinned)
      ensures obeys ==> ok
    {
      ok := Answer();
      if ok {
        pinned := pinned + {window};
      }
    }

    method ReleaseWindow(window: Window) returns (ok: bool)
      modifies this`pinned
      ensures pinned == if ok then old(pinned) - {window} else old(pinned)
      ensures obeys || reaps ==> ok
    {
      ok := Answer();
      ok := ok || reaps;
      if ok {
        pinned := pinned - {window};
      }
    }

    method ResizeWindow(window: Window, size: (int, int)) returns (ok: bool)
      modifies this`sizes
      ensures sizes == if ok then old(sizes)[window := size] else old(sizes)
      ensures obeys ==> ok
    {
      ok := Answer();
      if ok {
        sizes := sizes[window := size];
      }
    }

    method ReadZoom(session: Id) returns (ok: bool, on: bool)
      ensures ok ==> session in sessions && on == (sessions[session] in zoomed)
      ensures obeys && session in sessions ==> ok
    {
      on := false;
      ok := Answer();
      if session !in sessions {
        ok := false;
      } else {
        on := sessions[session] in zoomed;
      }
    }

    method ToggleZoom(session: Id) returns (ok: bool)
      modifies this`zoomed
      ensures ok ==> session in sessions
      ensures zoomed == if !ok then old(zoomed)
                        else if sessions[session] in old(zoomed) then old(zoomed) - {sessions[session]}
                        else old(zoomed) + {sessions[session]}
      ensures obeys && session in sessions ==> ok
    {
      ok := Answer();
      if session !in sessions {
        ok := false;
      } else if ok {
        var window := sessions[session];
        zoomed := if window in zoomed then zoomed - {window} else zoomed + {window};
      }
    }

    method ReadState(session: Id) returns (state: Option<ViewState>)
      ensures state.Some? ==> Shows(session, state.value)
      ensures obeys && session in sessions && sessions[session] in activePane ==> state.Some?
    {
      var ok := Answer();
      if ok && session in sessions && sessions[session] in activePane {
        var window := sessions[session];
        state := Some(ViewState(activePane[window], window, window in zoomed));
      } else {
        state := None;
      }
    }

    method SetToken(pane: Id, token: Id) returns (ok: bool)
      modifies this`tokens
      ensures tokens == if ok then old(tokens) + {(pane, token)} else old(tokens)
      ensures obeys ==> ok
    {
      ok := Answer();
      if ok {
        tokens := tokens + {(pane, token)};
      }
    }

    method UnsetToken(pane: Id, token: Id) returns (ok: bool)
      modifies this`tokens
      ensures tokens == if ok then old(tokens) - {(pane, token)} else old(tokens)
      ensures obeys ==> ok
    {
      ok := Answer();
      if ok {
        tokens := tokens - {(pane, token)};
      }
    }

    method HasToken(pane: Id, token: Id) returns (stored: bool)
      ensures stored ==> (pane, token) in tokens
      ensures obeys && (pane, token) in tokens ==> stored
    {
      var ok := Answer();
      stored := ok && (pane, token) in tokens;
    }

    /** A command whose effect nobody here looks at: a capture, or the start of a client. */
    method Try() returns (ok: bool)
      ensures obeys ==> ok
    {
      ok := Answer();
    }
  }

  /** The viewer's own grouped session; two channels never share one. */
  function ViewSessionName(channelId: Id): Id {
    Id("ac-view-" + (match channelId case NoId => "" case Id(text) => text))
  }

  class Bridge {
    const viewSession: Id
    const resumeToken: Id
    const letterbox: bool
    const readOnly: bool
    const size: (int, int)
    var paneId: Id
    var windowTarget: Window
    var wheelResidue: int
    var closed: bool
    var tokenRemoved: bool

    constructor (viewSession: Id, paneId: Id, window: Window, readOnly: bool, letterbox: bool, token: Id,
                 size: (int, int))
      ensures this.viewSession == viewSession && this.paneId == paneId && this.windowTarget == window
      ensures this.readOnly == readOnly && this.letterbox == letterbox && this.resumeToken == token
      ensures this.size == size && !closed
    {
      this.viewSession, this.paneId, this.windowTarget := viewSession, paneId, window;
      this.readOnly, this.letterbox, this.resumeToken, this.size := readOnly, letterbox, token, size;
      wheelResidue, closed, tokenRemoved := 0, false, false;
    }

    /**
     Makes `target` the current window of the viewer's session. A letterboxed viewer sizes its
     window by hand, so it takes that with it.
     */
    method SelectWindow(tmux: Tmux, target: Window) returns (ok: bool)
      modifies this`windowTarget, tmux`sessions, tmux`pinned, tmux`sizes
      ensures ok ==> windowTarget == target && tmux.sessions == old(tmux.sessions)[viewSession := target]
      ensures !ok ==> windowTarget == old(windowTarget)
                      && tmux.sessions - {viewSession} == old(tmux.sessions) - {viewSession}
      ensures !letterbox || old(windowTarget) == target ==> tmux.pinned == old(tmux.pinned)
      ensures letterbox && ok && old(windowTarget) != target ==>
                tmux.pinned == old(tmux.pinned) - {old(windowTarget)} + {target}
      ensures !ok ==> old(tmux.pinned) - {old(windowTarget), target} <= tmux.pinned <= old(tmux.pinned) + {target}
      ensures !ok && tmux.reaps ==> tmux.pinned <= old(tmux.pinned)
      ensures letterbox && ok && old(windowTarget) != target ==> tmux.sizes == old(tmux.sizes)[target := size]
      ensures !letterbox || old(windowTarget) == target || !ok ==> tmux.sizes == old(tmux.sizes)
      ensures tmux.obeys && viewSession in old(tmux.sessions) ==> ok
      ensures viewSession !in old(tmux.sessions) ==> !ok && tmux.sessions == old(tmux.sessions)
    {
      var previous := windowTarget;
      if letterbox && previous != target {
        var released := tmux.ReleaseWindow(previous);
        if !released {
          return false;
        }
      }
      var selected := tmux.SelectWindow(viewSession, target);
      if !selected {
        return false;
      }
      if letterbox && previous != target {
        var pinned := tmux.PinWindow(target);
        if !pinned {
          var _ := tmux.ReleaseWindow(target);
          return false;
        }
        var sized := tmux.ResizeWindow(target, size);
        if !sized {
          var _ := tmux.ReleaseWindow(target);
          return false;
        }
      }
      windowTarget := target;
      return true;
    }

    /** A pane that this viewer can be made to show, as long as its session is up: one in the group it belongs to. */
    predicate Reaches(tmux: Tmux, pane: Id)
      reads this, tmux`sessions
    {
      !closed && viewSession in tmux.sessions && pane in tmux.panes && tmux.panes[pane].group == windowTarget.group
    }

    /** Shows `pane`, provided it is in the group this viewer belongs to. */
    method SelectPane(tmux: Tmux, pane: Id) returns (ok: bool)
      modifies this`windowTarget, this`wheelResidue,
               tmux`sessions, tmux`pinned, tmux`sizes, tmux`activePane, tmux`zoomed
      ensures ok ==>
                && !closed && pane in tmux.panes && tmux.panes[pane].group == old(windowTarget).group
                && windowTarget == tmux.panes[pane] && wheelResidue == 0
                && tmux.sessions == old(tmux.sessions)[viewSession := tmux.panes[pane]]
                && tmux.activePane == old(tmux.activePane)[tmux.panes[pane] := pane]
                && tmux.zoomed - {tmux.panes[pane]} == old(tmux.zoomed) - {tmux.panes[pane]}
      ensures !ok ==>
                && wheelResidue == old(wheelResidue)
                && tmux.sessions - {viewSession} == old(tmux.sessions) - {viewSession}
                && tmux.activePane == old(tmux.activePane) && tmux.zoomed == old(tmux.zoomed)
      ensures !old(Reaches(tmux, pane)) ==>
                !ok && windowTarget == old(windowTarget) && tmux.sessions == old(tmux.sessions)
      ensures !letterbox ==> tmux.pinned == old(tmux.pinned)
      ensures ok && letterbox && old(windowTarget) != windowTarget ==>
                && tmux.pinned == old(tmux.pinned) - {old(windowTarget)} + {windowTarget}
                && windowTarget in tmux.sizes && tmux.sizes[windowTarget] == size
      ensures ok && old(windowTarget) == windowTarget ==> tmux.pinned == old(tmux.pinned)
      ensures tmux.obeys && old(Reaches(tmux, pane)) ==> ok
    {
      if closed {
        return false;
      }
      var described, window := tmux.DescribePane(pane);
      if !described || window.group != windowTarget.group {
        return false;
      }
      var moved := SelectWindow(tmux, window);
      if !moved {
        return false;
      }
      var selected := tmux.SelectPane(pane, window);
      if !selected {
        return false;
      }
      wheelResidue := 0;
      return true;
    }

    /** Zooming toggles, so the current state is read first. */
    method SetZoom(tmux: Tmux, on: bool) returns (ok: bool)
      modifies tmux`zoomed
      ensures ok ==>
                && !closed && viewSession in tmux.sessions
                && (tmux.sessions[viewSession] in tmux.zoomed) == on
                && tmux.zoomed - {tmux.sessions[viewSession]} == old(tmux.zoomed) - {tmux.sessions[viewSession]}
      ensures !ok ==> tmux.zoomed == old(tmux.zoomed)
      ensures tmux.obeys && !closed && viewSession in tmux.sessions ==> ok
    {
      if closed {
        return false;
      }
      var known, isZoomed := tmux.ReadZoom(viewSession);
      if !known {
        return false;
      }
      if isZoomed == on {
        return true;
      }
      ok := tmux.ToggleZoom(viewSession);
    }

    /** The viewer's session is there and shows some pane. */
    predicate IsOpen(tmux: Tmux)
      reads tmux
    {
      viewSession in tmux.sessions && tmux.sessions[viewSession] in tmux.activePane
    }

    method State(tmux: Tmux) returns (state: Option<ViewState>)
      ensures state.Some? ==> !closed && tmux.Shows(viewSession, state.value)
      ensures tmux.obeys && !closed && IsOpen(tmux) ==> state.Some?
    {
      if closed {
        return None;
      }
      state := tmux.ReadState(viewSession);
    }

    /** Ends the viewer's session; with `removeToken` the pane forgets the resume token as well. */
    method Close(tmux: Tmux, removeToken: bool)
      modifies this`closed, this`tokenRemoved, tmux`sessions, tmux`pinned, tmux`tokens
      ensures closed
      ensures tmux.sessions == old(tmux.sessions) || tmux.sessions == old(tmux.sessions) - {viewSession}
      ensures tmux.pinned == old(tmux.pinned) || (letterbox && tmux.pinned == old(tmux.pinned) - {windowTarget})
      ensures || tmux.tokens == old(tmux.tokens)
              || (removeToken && tmux.tokens == old(tmux.tokens) - {(paneId, resumeToken)})
      ensures (tmux.obeys || tmux.reaps) && !old(closed) ==> tmux.sessions == old(tmux.sessions) - {viewSession}
      ensures (tmux.obeys || tmux.reaps) && !old(closed) && letterbox ==>
                tmux.pinned == old(tmux.pinned) - {windowTarget}
      ensures old(closed) ==> tmux.sessions == old(tmux.sessions) && tmux.pinned == old(tmux.pinned)
      ensures tmux.obeys && removeToken && !old(tokenRemoved) ==> (paneId, resumeToken) !in tmux.tokens
      ensures tokenRemoved == (old(tokenRemoved) || removeToken)
    {
      if !closed {
        closed := true;
        if letterbox {
          var _ := tmux.ReleaseWindow(windowTarget);
        }
        tmux.KillSession(viewSession);
      }
      if removeToken && !tokenRemoved {
        tokenRemoved := true;
        var _ := tmux.UnsetToken(paneId, resumeToken);
      }
    }
  }

  function OrDefault(value: int, default: int): int {
    if value == 0 then default else value
  }

  /** The command that kept a PTY from being started. */
  datatype StartFailure =
    | DescribeFailed
    | SessionFailed
    | WindowFailed
    | PinFailed
    | SizeFailed
    | TokenFailed
    | ClientFailed

  /** The failures that come after the pin has been noted for release. */
  predicate ReleasesPin(f: StartFailure) {
    f == TokenFailed || f == ClientFailed
  }

  /** Which windows are pinned after a letterboxed start on `window`; `released` if the pin could be taken back. */
  function PinnedAfter(pinned: set<Window>, window: Window, failure: Option<StartFailure>, released: bool)
    : set<Window>
  {
    if failure.None? || failure == Some(SizeFailed) then pinned + {window}
    else if !ReleasesPin(failure.value) then pinned
    else if released then pinned - {window} else pinned + {window}
  }

  /**
   A failed start leaves a window pinned that was not if and only if the very sizing failed, or the pin could
   not be taken back later.
   */
  lemma PinIsLeftBehind(pinned: set<Window>, window: Window, failure: StartFailure, released: bool)
    requires window !in pinned
    ensures window in PinnedAfter(pinned, window, Some(failure), released)
       <==> failure == SizeFailed || (ReleasesPin(failure) && !released)
  {
  }

  /** Points a new grouped session at `pane`; a letterboxed viewer then sizes the window by hand. */
  method OpenWindow(tmux: Tmux, session: Id, pane: Id, window: Window, letterbox: bool, size: (int, int))
    returns (failure: Option<StartFailure>)
    modifies tmux`sessions, tmux`activePane, tmux`zoomed, tmux`pinned, tmux`sizes
    ensures failure.None? ==>
              && tmux.sessions == old(tmux.sessions)[session := window]
              && tmux.activePane == old(tmux.activePane)[window := pane]
    ensures failure.Some? ==>
              && (failure.value == WindowFailed || (letterbox && failure.value in {PinFailed, SizeFailed}))
              && (tmux.sessions == old(tmux.sessions) || tmux.sessions == old(tmux.sessions)[session := window])
              && (tmux.activePane == old(tmux.activePane) || tmux.activePane == old(tmux.activePane)[window := pane])
    ensures tmux.pinned == if letterbox then PinnedAfter(old(tmux.pinned), window, failure, false) else old(tmux.pinned)
    ensures tmux.zoomed - {window} == old(tmux.zoomed) - {window}
    ensures tmux.sizes == if letterbox && failure.None? then old(tmux.sizes)[window := size] else old(tmux.sizes)
    ensures tmux.obeys && session in old(tmux.sessions) ==> failure.None?
  {
    var selected := tmux.SelectWindow(session, window);
    if selected {
      selected := tmux.SelectPane(pane, window);
    }
    if !selected {
      return Some(WindowFailed);
    }
    if letterbox {
      var pinned := tmux.PinWindow(window);
      if !pinned {
        return Some(PinFailed);
      }
      var sized := tmux.ResizeWindow(window, size);
      if !sized {
        return Some(SizeFailed);
      }
    }
    return None;
  }

  /** Persists the token and starts the client. */
  method StartClient(tmux: Tmux, pane: Id, token: Id) returns (failure: Option<StartFailure>)
    modifies tmux`tokens
    ensures failure.None? ==> tmux.tokens == old(tmux.tokens) + {(pane, token)}
    ensures failure.Some? ==> ReleasesPin(failure.value)
    ensures tmux.tokens == if failure == Some(TokenFailed) then old(tmux.tokens) else old(tmux.tokens) + {(pane, token)}
    ensures tmux.obeys ==> failure.None?
  {
    var stored := tmux.SetToken(pane, token);
    if !stored {
      return Some(TokenFailed);
    }
    var ok := tmux.Try();
    return if ok then None else Some(ClientFailed);
  }

  /** What was set up last goes first. */
  method UndoWindow(tmux: Tmux, session: Id, window: Window, letterbox: bool) returns (ghost released: bool)
    modifies tmux`sessions, tmux`pinned
    ensures tmux.sessions == old(tmux.sessions) || tmux.sessions == old(tmux.sessions) - {session}
    ensures tmux.pinned == if letterbox && released then old(tmux.pinned) - {window} else old(tmux.pinned)
    ensures tmux.obeys || tmux.reaps ==> released == letterbox
    ensures tmux.obeys || tmux.reaps ==> tmux.sessions == old(tmux.sessions) - {session}
  {
    released := false;
    if letterbox {
      var ok := tmux.ReleaseWindow(window);
      released := ok;
    }
    tmux.KillSession(session);
  }

  /** Shows `pane` in a session that was just made and starts the client; on failure the session goes again. */
  method StartSession(tmux: Tmux, session: Id, pane: Id, window: Window, letterbox: bool, token: Id, size: (int, int))
    returns (failure: Option<StartFailure>, ghost released: bool)
    modifies tmux`sessions, tmux`activePane, tmux`zoomed, tmux`pinned, tmux`sizes, tmux`tokens
    ensures failure.None? ==>
              && tmux.sessions == old(tmux.sessions)[session := window]
              && tmux.activePane == old(tmux.activePane)[window := pane]
              && tmux.tokens == old(tmux.tokens) + {(pane, token)}
    ensures failure.Some? ==>
              && failure.value !in {DescribeFailed, SessionFailed}
              && tmux.sessions - {session} == old(tmux.sessions) - {session}
              && (tmux.obeys || tmux.reaps ==> tmux.sessions == old(tmux.sessions) - {session})
    ensures tmux.tokens == old(tmux.tokens) || tmux.tokens == old(tmux.tokens) + {(pane, token)}
    ensures tmux.pinned == if letterbox then PinnedAfter(old(tmux.pinned), window, failure, released)
                           else old(tmux.pinned)
    ensures letterbox && failure.None? ==> window in tmux.sizes && tmux.sizes[window] == size
    ensures tmux.obeys && session in old(tmux.sessions) ==> failure.None?
    ensures tmux.reaps && letterbox && failure.Some? && ReleasesPin(failure.value) ==> released
  {
    failure := OpenWindow(tmux, session, pane, window, letterbox, size);
    released := false;
    if failure.Some? {
      tmux.KillSession(session);
      return;
    }
    failure := StartClient(tmux, pane, token);
    if failure.Some? {
      released := UndoWindow(tmux, session, window, letterbox);
    }
  }

  /**
   Starts a grouped session on `pane` with a client in a new PTY. On failure the session goes again, and
   so does the pin of a letterboxed window, unless it was the sizing of that window that failed.
   */
  method NewBridge(tmux: Tmux, channelId: Id, pane: Id, readOnly: bool, letterbox: bool, token: Id,
                   cols: int, rows: int)
    returns (bridge: Bridge?, ghost failure: Option<StartFailure>, ghost released: bool)
    modifies tmux`sessions, tmux`activePane, tmux`zoomed, tmux`pinned, tmux`sizes, tmux`tokens
    ensures bridge != null <==> failure.None?
    ensures bridge != null && letterbox ==>
              bridge.windowTarget in tmux.sizes && tmux.sizes[bridge.windowTarget] == bridge.size
    ensures bridge != null ==>
              && fresh(bridge) && bridge.viewSession == ViewSessionName(channelId)
              && bridge.paneId == pane && bridge.readOnly == readOnly && bridge.letterbox == letterbox
              && bridge.resumeToken == token
              && bridge.size == (if cols == 0 then 80 else cols, if rows == 0 then 24 else rows)
              && !bridge.closed && tmux.tokens == old(tmux.tokens) + {(pane, token)}
    ensures bridge != null ==>
              && pane in tmux.panes && bridge.windowTarget == tmux.panes[pane]
              && tmux.sessions == old(tmux.sessions)[bridge.viewSession := bridge.windowTarget]
              && tmux.activePane == old(tmux.activePane)[bridge.windowTarget := pane]
    ensures bridge == null ==>
              tmux.sessions - {ViewSessionName(channelId)} == old(tmux.sessions) - {ViewSessionName(channelId)}
    ensures tmux.tokens == old(tmux.tokens) || tmux.tokens == old(tmux.tokens) + {(pane, token)}
    ensures pane !in tmux.panes ==> failure == Some(DescribeFailed)
    ensures tmux.obeys && pane in tmux.panes ==> bridge != null
    ensures tmux.reaps && bridge == null ==>
              tmux.sessions == if failure.value in {DescribeFailed, SessionFailed} then old(tmux.sessions)
                               else old(tmux.sessions) - {ViewSessionName(channelId)}
    ensures tmux.pinned == if letterbox && pane in tmux.panes
                           then PinnedAfter(old(tmux.pinned), tmux.panes[pane], failure, released)
                           else old(tmux.pinned)
    ensures tmux.reaps && letterbox && failure.Some? && ReleasesPin(failure.value) ==> released
  {
    bridge, failure, released := null, Some(DescribeFailed), false;
    var described, window := tmux.DescribePane(pane);
    if !described {
      return;
    }
    var session := ViewSessionName(channelId);
    var created := tmux.NewSession(session, window);
    if !created {
      failure := Some(SessionFailed);
      return;
    }
    var size := (OrDefault(cols, 80), OrDefault(rows, 24));
    var started, undone := StartSession(tmux, session, pane, window, letterbox, token, size);
    failure, released := started, undone;
    if started.Some? {
      return;
    }
    bridge := new Bridge(session, pane, window, readOnly, letterbox, token, size);
  }
}
