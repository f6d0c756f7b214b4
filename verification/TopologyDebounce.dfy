/**
 Sending topology snapshots no more often than they settle: a snapshot waits for half a second, and a
 newer one takes its place. Timers that were stopped too late still fire; generations tell them apart.
 */
module TopologyDebounce {
  import opened Options

  /** `content` is what the hash of a payload is taken of; different contents have different hashes. */
  datatype Payload = Payload(reason: string, content: string)

  /** `timers` may still fire. History: `latest` was let in last, and `taken` are all those on their way out. */
  datatype State = State(
    last: Option<string>,
    pending: Option<Payload>,
    generation: nat,
    stopped: bool,
    timers: set<nat>,
    latest: Option<Payload>,
    taken: seq<Payload>)

  const Init := State(None, None, 0, false, {}, None, [])

  /** A poll that found nothing new is passed over; other reasons always count. */
  predicate IsRepeat(s: State, p: Payload) {
    p.reason == "poll" && (s.last == Some(p.content) || (s.pending.Some? && s.pending.value.content == p.content))
  }

  function Queue(s: State, p: Payload): State {
    if s.stopped || IsRepeat(s, p) then s
    else
      s.(pending := Some(p), generation := s.generation + 1, timers := s.timers + {s.generation + 1},
         latest := Some(p))
  }

  /** A timer fires: only the newest one finds something to send. */
  function Fire(s: State, g: nat): State {
    var fired := s.(timers := s.timers - {g});
    if s.stopped || g != s.generation || s.pending.None? then fired
    else fired.(pending := None, taken := s.taken + [s.pending.value])
  }

  /** A snapshot that was taken has been sent. */
  function Sent(s: State, p: Payload): State {
    s.(last := Some(p.content))
  }

  function Stop(s: State): State {
    s.(stopped := true, generation := s.generation + 1, pending := None)
  }

  datatype Event = QueueEvent(payload: Payload) | FireEvent(generation: nat) | SentEvent(payload: Payload) | StopEvent

  predicate Enabled(s: State, e: Event) {
    match e
    case FireEvent(g) => g in s.timers
    case SentEvent(p) => p in s.taken
    case _ => true
  }

  function Step(s: State, e: Event): State {
    if !Enabled(s, e) then s
    else
      match e
      case QueueEvent(p) => Queue(s, p)
      case FireEvent(g) => Fire(s, g)
      case SentEvent(p) => Sent(s, p)
      case StopEvent => Stop(s)
  }

  function Run(s: State, events: seq<Event>): State {
    if events == [] then s else Step(Run(s, events[..|events| - 1]), events[|events| - 1])
  }

  lemma RunOneMore(events: seq<Event>, e: Event)
    ensures Run(Init, events + [e]) == Step(Run(Init, events), e) && Run(Init, []) == Init
  {
    assert (events + [e])[..|events|] == events;
  }

  ghost predicate Inv(s: State) {
    && (s.pending.Some? ==> !s.stopped && s.generation in s.timers && s.pending == s.latest)
    && (forall g :: g in s.timers ==> g <= s.generation)
    && (s.latest.Some? && !s.stopped ==>
          s.pending == s.latest || (s.taken != [] && Some(s.taken[|s.taken| - 1]) == s.latest))
  }

  lemma {:induction false} RunKeepsInv(events: seq<Event>)
    ensures Inv(Run(Init, events))
  {
    if events != [] {
      RunKeepsInv(events[..|events| - 1]);
    }
  }

  /**
   Until it is stopped, the newest snapshot let in is on its way or waits with a timer of its own that
   will take it; and when that timer fires, it is that snapshot which goes.
   */
  lemma NewestIsNotLost(events: seq<Event>)
    requires Run(Init, events).latest.Some? && !Run(Init, events).stopped
    ensures
      var s := Run(Init, events);
      if s.pending.Some? then
        && s.pending == s.latest && s.generation in s.timers
        && Fire(s, s.generation).taken == s.taken + [s.latest.value]
      else s.taken != [] && s.taken[|s.taken| - 1] == s.latest.value
  {
    RunKeepsInv(events);
  }

  predicate OnlyTimers(events: seq<Event>) {
    forall i: nat :: i < |events| ==> events[i].FireEvent?
  }

  /** Timers send what waits, once, or nothing. */
  lemma {:induction false} TimersTakePending(s: State, fires: seq<Event>)
    requires OnlyTimers(fires)
    ensures
      var r := Run(s, fires);
      && r.generation == s.generation
      && (|| (r.taken == s.taken && r.pending == s.pending)
          || (s.pending.Some? && r.taken == s.taken + [s.pending.value] && r.pending.None?))
  {
    if fires != [] {
      TimersTakePending(s, fires[..|fires| - 1]);
    }
  }

  /**
   A change to `b` waits and a snapshot `a` reports that all is as it was last sent. Whatever timers fire
   then, the undone change goes out if and only if it is a poll that reports the undo: a poll is passed over,
   any other reason takes the place of what waits. After the former the next poll lets the old state in again.
   */
  lemma UndoneChangeGoesOut(events: seq<Event>, a: Payload, b: Payload, fires: seq<Event>)
    requires Run(Init, events).pending == Some(b) && Run(Init, events).last == Some(a.content)
    requires a.content != b.content && OnlyTimers(fires)
    ensures
      var s := Run(Init, events);
      var waiting := Queue(s, a);
      var fired := Fire(waiting, waiting.generation);
      && Enabled(waiting, FireEvent(waiting.generation))
      && (fired.taken == s.taken + [b] <==> a.reason == "poll")
      && (fired.taken == s.taken + [a] <==> a.reason != "poll")
      && (Run(waiting, fires).taken == s.taken + [b] ==> a.reason == "poll")
      && (a.reason == "poll" ==> Queue(Sent(fired, b), a).pending == Some(a))
  {
    var s := Run(Init, events);
    RunKeepsInv(events);
    TimersTakePending(Queue(s, a), fires);
    assert (s.taken + [b])[|s.taken|] == b && (s.taken + [a])[|s.taken|] == a;
  }

  /**
   Until it is stopped, whatever is queued waits with a timer of its own, unless it is a poll that found what
   was last sent or what waits already.
   */
  lemma ChangeIsLetIn(events: seq<Event>, p: Payload)
    ensures
      var s := Run(Init, events);
      var r := Step(s, QueueEvent(p));
      var isKnown := s.last == Some(p.content) || (s.pending.Some? && s.pending.value.content == p.content);
      if s.stopped || (p.reason == "poll" && isKnown) then r == s
      else
        && r.pending == Some(p) && r.generation == s.generation + 1 && r.timers == s.timers + {r.generation}
        && Fire(r, r.generation).taken == s.taken + [p]
        && (forall g :: g in s.timers ==> Fire(r, g).taken == s.taken)
  {
    RunKeepsInv(events);
  }

  /** Whatever went out is noted as sent, and until it changes a poll that finds it again is passed over. */
  lemma SentIsNoted(events: seq<Event>, p: Payload, again: Payload)
    requires p in Run(Init, events).taken && again.reason == "poll" && again.content == p.content
    ensures
      var r := Run(Init, events + [SentEvent(p)]);
      && r.last == Some(p.content) && r.taken == Run(Init, events).taken
      && Run(Init, events + [SentEvent(p)] + [QueueEvent(again)]) == r
  {
    RunOneMore(events, SentEvent(p));
    RunOneMore(events + [SentEvent(p)], QueueEvent(again));
  }

  /** Once stopped, nothing more goes out. */
  lemma {:induction false} StoppedIsSilent(s: State, events: seq<Event>)
    requires s.stopped
    ensures Run(s, events).stopped && Run(s, events).taken == s.taken
  {
    if events != [] {
      StoppedIsSilent(s, events[..|events| - 1]);
    }
  }

  /** The agent's fields; `hash` stands for the content it is taken of. */
  class Debouncer {
    var lastHash: Option<string>
    var pending: Option<Payload>
    var generation: nat
    var stopped: bool
    ghost var state: State

    ghost predicate Valid()
      reads this
    {
      && Inv(state)
      && lastHash == state.last && pending == state.pending
      && generation == state.generation && stopped == state.stopped
    }

    constructor ()
      ensures Valid() && state == Init
    {
      lastHash, pending, generation, stopped, state := None, None, 0, false, Init;
    }

    /** The number of the timer that was started, if any. */
    method Queue(p: Payload) returns (timer: Option<nat>)
      requires Valid()
      modifies this
      ensures Valid() && state == Step(old(state), QueueEvent(p))
      ensures timer.Some? <==>
                && !old(stopped)
                && (p.reason == "poll" ==>
                      old(lastHash) != Some(p.content)
                      && (old(pending).Some? ==> old(pending).value.content != p.content))
      ensures timer.Some? ==> timer.value == generation && timer.value in state.timers
    {
      timer := None;
      var isKnown := lastHash == Some(p.content) || (pending.Some? && pending.value.content == p.content);
      if !stopped && !(p.reason == "poll" && isKnown) {
        pending := Some(p);
        generation := generation + 1;
        timer := Some(generation);
      }
      state := Step(state, QueueEvent(p));
    }

    /** The snapshot to send, if the timer is still the newest. */
    method Fire(g: nat) returns (payload: Option<Payload>)
      requires Valid() && g in state.timers
      modifies this
      ensures Valid() && state == Step(old(state), FireEvent(g))
      ensures state.taken == if payload.Some? then old(state).taken + [payload.value] else old(state).taken
    {
      payload := None;
      if !stopped && g == generation && pending.Some? {
        payload := pending;
        pending := None;
      }
      state := Step(state, FireEvent(g));
    }

    method MarkSent(p: Payload)
      requires Valid() && p in state.taken
      modifies this
      ensures Valid() && state == Step(old(state), SentEvent(p))
    {
      lastHash := Some(p.content);
      state := Step(state, SentEvent(p));
    }

    method Stop()
      requires Valid()
      modifies this
      ensures Valid() && state == Step(old(state), StopEvent)
    {
      stopped := true;
      generation := generation + 1;
      pending := None;
      state := Step(state, StopEvent);
    }
  }
}
