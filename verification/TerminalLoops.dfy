/**
 The operations of TerminalAuthority.dfy that touch many viewers at once, taken one viewer at a
 time: going through the viewers in any order ends in the same state.
 */
module TerminalLoops {
  import opened Options
  import opened TerminalAuthority

  // Granting control to one channel of a pane

  function GrantOne(s: State, pane: Pane, c: Channel, d: Channel): State
    requires d in s.channels
  {
    if ViewerOf(s, d).paneId == pane && HasViewer(s, d)
    then s.(viewers := s.viewers[s.channels[d].token := ViewerOf(s, d).(readOnly := d != c)],
            channels := s.channels[d := s.channels[d].(readOnly := d != c)])
    else s
  }

  function GrantSome(s: State, pane: Pane, c: Channel, done: set<Channel>): State {
    s.(viewers := map t | t in s.viewers ::
         if s.viewers[t].channelId in done then GrantedViewer(s, pane, c, t) else s.viewers[t],
       channels := map d | d in s.channels ::
         if d in done then GrantedLink(s, pane, c, d) else s.channels[d])
  }

  lemma GrantNone(s: State, pane: Pane, c: Channel)
    ensures GrantSome(s, pane, c, {}) == s
  {
    assert GrantSome(s, pane, c, {}).viewers == s.viewers;
    assert GrantSome(s, pane, c, {}).channels == s.channels;
  }

  lemma GrantStepViewers(s: State, pane: Pane, c: Channel, done: set<Channel>, d: Channel)
    requires ChannelLinked(s, d) && d in s.channels && d !in done
    ensures GrantOne(GrantSome(s, pane, c, done), pane, c, d).viewers == GrantSome(s, pane, c, done + {d}).viewers
  {
    var before := GrantSome(s, pane, c, done);
    var after := GrantSome(s, pane, c, done + {d});
    forall t | t in s.viewers && t != s.channels[d].token ensures before.viewers[t] == after.viewers[t] {
    }
  }

  lemma GrantStepChannels(s: State, pane: Pane, c: Channel, done: set<Channel>, d: Channel)
    requires ChannelLinked(s, d) && d in s.channels && d !in done
    ensures GrantOne(GrantSome(s, pane, c, done), pane, c, d).channels == GrantSome(s, pane, c, done + {d}).channels
  {
  }

  lemma GrantStep(s: State, pane: Pane, c: Channel, done: set<Channel>, d: Channel)
    requires AllLinked(s) && d in s.channels && d !in done
    ensures GrantOne(GrantSome(s, pane, c, done), pane, c, d) == GrantSome(s, pane, c, done + {d})
  {
    assert ChannelLinked(s, d);
    GrantStepViewers(s, pane, c, done, d);
    GrantStepChannels(s, pane, c, done, d);
  }

  lemma GrantSomeIsLinked(s: State, pane: Pane, c: Channel, done: set<Channel>)
    requires AllLinked(s)
    ensures AllLinked(GrantSome(s, pane, c, done))
  {
    var r := GrantSome(s, pane, c, done);
    forall d | d in r.channels ensures ChannelLinked(r, d) {
      assert ChannelLinked(s, d);
    }
  }

  lemma GrantAll(s: State, pane: Pane, c: Channel)
    ensures GrantSome(s, pane, c, s.channels.Keys).(controller := s.controller[pane := c]) == Grant(s, pane, c)
  {
    var all := GrantSome(s, pane, c, s.channels.Keys);
    assert all.viewers == Grant(s, pane, c).viewers;
    assert all.channels == Grant(s, pane, c).channels;
  }

  // Marking the viewers of a lost connection

  function MarkOne(s: State, d: Channel, now: int): State
    requires d in s.channels
  {
    if HasViewer(s, d) && !ViewerOf(s, d).stale
    then s.(viewers := s.viewers[s.channels[d].token := ViewerOf(s, d).(stale := true, staleAt := Some(now))])
    else s
  }

  function MarkSome(s: State, done: set<Channel>, now: int): State {
    s.(viewers := map t | t in s.viewers ::
         if s.viewers[t].channelId in done then MarkedViewer(s, t, now) else s.viewers[t])
  }

  lemma MarkNone(s: State, now: int)
    ensures MarkSome(s, {}, now) == s
  {
    assert MarkSome(s, {}, now).viewers == s.viewers;
  }

  lemma MarkStep(s: State, done: set<Channel>, d: Channel, now: int)
    requires AllLinked(s) && d in s.channels && d !in done
    ensures MarkOne(MarkSome(s, done, now), d, now) == MarkSome(s, done + {d}, now)
  {
    assert ChannelLinked(s, d);
    assert MarkOne(MarkSome(s, done, now), d, now).viewers == MarkSome(s, done + {d}, now).viewers;
  }

  lemma MarkSomeIsLinked(s: State, done: set<Channel>, now: int)
    requires AllLinked(s)
    ensures AllLinked(MarkSome(s, done, now))
  {
    var r := MarkSome(s, done, now);
    forall d | d in r.channels ensures ChannelLinked(r, d) {
      assert ChannelLinked(s, d);
    }
  }

  lemma MarkAll(s: State, now: int)
    ensures MarkSome(s, s.channels.Keys, now) == MarkStale(s, now)
  {
    assert MarkSome(s, s.channels.Keys, now).viewers == MarkStale(s, now).viewers;
  }

  // Forgetting expired viewers

  function Forget(s: State, t: Token): State
    requires t in s.viewers
  {
    var v := s.viewers[t];
    s.(viewers := s.viewers - {t},
       channels := s.channels - {v.channelId},
       controller := if v.channelId in s.channels && Controls(s, v.channelId, v.paneId)
                     then s.controller - {v.paneId} else s.controller)
  }

  function Gone(s: State, done: set<Token>, t: Token, now: int): bool {
    t in done && t in s.viewers && Expired(s.viewers[t], now)
  }

  function ChannelGone(s: State, done: set<Token>, c: Channel, now: int): bool {
    c in s.channels && Gone(s, done, s.channels[c].token, now)
  }

  function SweepSome(s: State, done: set<Token>, now: int): State {
    s.(viewers := map t | t in s.viewers && !Gone(s, done, t, now) :: s.viewers[t],
       channels := map c | c in s.channels && !ChannelGone(s, done, c, now) :: s.channels[c],
       controller := map p | p in s.controller && !ChannelGone(s, done, s.controller[p], now) :: s.controller[p])
  }

  lemma SweepNone(s: State, now: int)
    ensures SweepSome(s, {}, now) == s
  {
    var r := SweepSome(s, {}, now);
    assert r.viewers == s.viewers && r.channels == s.channels && r.controller == s.controller;
  }

  lemma SweepKeep(s: State, done: set<Token>, t: Token, now: int)
    requires t in s.viewers && !Expired(s.viewers[t], now)
    ensures SweepSome(s, done + {t}, now) == SweepSome(s, done, now)
  {
    var a := SweepSome(s, done, now);
    var b := SweepSome(s, done + {t}, now);
    assert a.viewers == b.viewers && a.channels == b.channels && a.controller == b.controller;
  }

  lemma SweepForgetChannels(s: State, done: set<Token>, t: Token, now: int)
    requires Inv(s) && t in s.viewers && t !in done && Expired(s.viewers[t], now)
    ensures SweepSome(s, done, now).channels - {s.viewers[t].channelId} == SweepSome(s, done + {t}, now).channels
  {
    var a := SweepSome(s, done, now).channels - {s.viewers[t].channelId};
    var b := SweepSome(s, done + {t}, now).channels;
    assert ViewerOk(s, t);
    forall c | c in s.channels ensures c in a <==> c in b {
      assert ChannelOk(s, c);
    }
  }

  lemma SweepForgetControllers(s: State, done: set<Token>, t: Token, now: int)
    requires Inv(s) && t in s.viewers && t !in done && Expired(s.viewers[t], now)
    ensures Forget(SweepSome(s, done, now), t).controller == SweepSome(s, done + {t}, now).controller
  {
    var a := Forget(SweepSome(s, done, now), t).controller;
    var b := SweepSome(s, done + {t}, now).controller;
    assert ViewerOk(s, t);
    forall p | p in s.controller ensures p in a <==> p in b {
      assert ControllerOk(s, p) && ChannelOk(s, s.controller[p]);
    }
  }

  lemma SweepForget(s: State, done: set<Token>, t: Token, now: int)
    requires Inv(s) && t in s.viewers && t !in done && Expired(s.viewers[t], now)
    ensures t in SweepSome(s, done, now).viewers
    ensures Forget(SweepSome(s, done, now), t) == SweepSome(s, done + {t}, now)
  {
    SweepForgetChannels(s, done, t, now);
    SweepForgetControllers(s, done, t, now);
    assert SweepSome(s, done, now).viewers - {t} == SweepSome(s, done + {t}, now).viewers;
  }

  lemma SweepAll(s: State, now: int)
    requires Inv(s)
    ensures SweepSome(s, s.viewers.Keys, now) == Sweep(s, now)
  {
    var all := SweepSome(s, s.viewers.Keys, now);
    var r := Sweep(s, now);
    assert all.viewers == r.viewers;
    forall c | c in s.channels ensures ChannelGone(s, s.viewers.Keys, c, now) == ChannelExpired(s, c, now) {
      assert ChannelOk(s, c);
    }
    assert all.channels == r.channels;
    forall p | p in s.controller
      ensures ChannelGone(s, s.viewers.Keys, s.controller[p], now) == ChannelExpired(s, s.controller[p], now)
    {
      assert ControllerOk(s, p) && ChannelOk(s, s.controller[p]);
    }
    assert all.controller == r.controller;
  }

  lemma ForgetKeepsInv(s: State, t: Token)
    requires Inv(s) && t in s.viewers
    ensures Inv(Forget(s, t))
  {
    var r := Forget(s, t);
    assert ViewerOk(s, t);
    forall c | c in r.channels ensures ChannelOk(r, c) && WriterOk(r, c) {
      assert ChannelOk(s, c) && WriterOk(s, c);
    }
    forall u | u in r.viewers ensures ViewerOk(r, u) {
      assert ViewerOk(s, u);
    }
    forall p | p in r.controller ensures ControllerOk(r, p) {
      assert ControllerOk(s, p) && ChannelOk(s, s.controller[p]);
    }
  }
}
