/**
 * The "ready" gate of the service: a trailing-edge debounce of 1000 time
 * units that resolves a deferred once, after which the debounced trigger
 * is replaced by a function that does nothing.
 */
module ReadyGate {

  import opened Options

  /** The debounce wait, in the clock's time units. */
  const QuietPeriod: int := 1000

  /** Nothing triggered yet; a timer due at `deadline`; resolved for good. */
  datatype Gate = Pending | Armed(deadline: int) | Resolved

  /** A call of the debounced trigger at time `now` (from registerApp or hasUserRight). */
  function Trigger(g: Gate, now: int): Gate
  {
    if g.Resolved? then Resolved else Armed(now + QuietPeriod)
  }

  /** The clock reaching `now`: an armed timer whose deadline has passed fires and resolves the gate. */
  function Elapse(g: Gate, now: int): Gate
  {
    if g.Armed? && g.deadline <= now then Resolved else g
  }

  /** What the gate sees: a trigger call, or the clock advancing. */
  datatype Event = Call(at: int) | Clock(at: int)

  function Step(g: Gate, e: Event): Gate
  {
    match e
    case Call(t) => Trigger(g, t)
    case Clock(t) => Elapse(g, t)
  }

  /** The gate after `events`, oldest first. */
  function Run(g: Gate, events: seq<Event>): Gate
    decreases |events|
  {
    if events == [] then g else Step(Run(g, events[..|events| - 1]), events[|events| - 1])
  }

  /** The time of the last trigger call among `events`, if there is one. */
  function LastCall(events: seq<Event>): Option<int>
    decreases |events|
  {
    if events == [] then None
    else if events[|events| - 1].Call? then Some(events[|events| - 1].at)
    else LastCall(events[..|events| - 1])
  }

  /** Once resolved, the gate stays resolved whatever happens next. */
  lemma {:induction false} ResolvedIsTerminal(events: seq<Event>)
    ensures Run(Resolved, events) == Resolved
    decreases |events|
  {
    if events != [] {
      ResolvedIsTerminal(events[..|events| - 1]);
    }
  }

  lemma {:induction false} RunAppend(g: Gate, a: seq<Event>, b: seq<Event>)
    ensures Run(g, a + b) == Run(Run(g, a), b)
    decreases |b|
  {
    if b == [] {
      assert a + b == a;
    } else {
      assert (a + b)[..|a + b| - 1] == a + b[..|b| - 1];
      RunAppend(g, a, b[..|b| - 1]);
    }
  }

  /** The gate resolves at most once: a resolved prefix leaves it resolved after any continuation. */
  lemma StaysResolved(g: Gate, a: seq<Event>, b: seq<Event>)
    requires Run(g, a) == Resolved
    ensures Run(g, a + b) == Resolved
  {
    RunAppend(g, a, b);
    ResolvedIsTerminal(b);
  }

  /**
   * From a fresh gate: it is still pending exactly when nothing triggered it,
   * and an armed timer is due one quiet period after the last trigger call.
   */
  lemma {:induction false} GateTracksLastCall(events: seq<Event>)
    ensures Run(Pending, events) == Pending <==> LastCall(events).None?
    ensures Run(Pending, events).Armed? ==>
              LastCall(events).Some? && Run(Pending, events).deadline == LastCall(events).value + QuietPeriod
    decreases |events|
  {
    if events != [] {
      GateTracksLastCall(events[..|events| - 1]);
    }
  }

  /**
   * A clock step resolves a gate that is not yet resolved exactly when a call
   * happened and a full quiet period has passed since the last one.
   */
  lemma ResolvesAfterQuietPeriod(events: seq<Event>, now: int)
    requires Run(Pending, events) != Resolved
    ensures Run(Pending, events + [Clock(now)]) == Resolved <==>
              LastCall(events).Some? && LastCall(events).value + QuietPeriod <= now
  {
    GateTracksLastCall(events);
    assert (events + [Clock(now)])[..|events + [Clock(now)]| - 1] == events;
  }

  /** Calls at 0, 300 and 900: the gate resolves at 1900, not at 1000. */
  lemma BurstExample()
    ensures Run(Pending, [Call(0), Call(300), Call(900), Clock(1000)]) == Armed(1900)
    ensures Run(Pending, [Call(0), Call(300), Call(900), Clock(1899)]) == Armed(1900)
    ensures Run(Pending, [Call(0), Call(300), Call(900), Clock(1900)]) == Resolved
  {
    var burst := [Call(0), Call(300), Call(900)];
    assert Run(Pending, burst[..1]) == Armed(1000);
    assert Run(Pending, burst[..2]) == Armed(1300) by { assert burst[..2][..1] == burst[..1]; }
    assert Run(Pending, burst) == Armed(1900) by { assert burst[..2] == burst[..|burst| - 1]; }
    forall t | t in [1000, 1899, 1900]
      ensures Run(Pending, burst + [Clock(t)]) == Elapse(Armed(1900), t)
    {
      assert (burst + [Clock(t)])[..|burst + [Clock(t)]| - 1] == burst;
    }
    assert burst + [Clock(1000)] == [Call(0), Call(300), Call(900), Clock(1000)];
    assert burst + [Clock(1899)] == [Call(0), Call(300), Call(900), Clock(1899)];
    assert burst + [Clock(1900)] == [Call(0), Call(300), Call(900), Clock(1900)];
  }
}
