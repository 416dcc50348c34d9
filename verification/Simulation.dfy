/**
 * The simulation ticks and the keyboard events they send into the remote
 * session.
 *
 * The console keys and the timer's elapsed events are interleaved into one
 * input stream. A key goes to the control loop; an elapsed event sends one
 * key press of code 65 (down, then up) to the session, but only while the
 * timer is enabled. The session's keyboard is seen only through the trace of
 * events sent to it.
 */
module Simulation {
  import opened Control

  /** The virtual key code every tick presses and releases. */
  const SimulatedKeyCode: int := 65

  /** A keyboard call on the remote session. */
  datatype Event = KeyDown(code: int) | KeyUp(code: int)

  /** What the program reacts to: a console key or the timer elapsing. */
  datatype Input = Press(key: Key) | Elapsed

  /** The control state together with every keyboard event sent so far. */
  datatype Session = Session(control: State, trace: seq<Event>)

  /** The event at position `i` of a trace made only of ticks. */
  function TapEvent(i: nat): Event {
    if i % 2 == 0 then KeyDown(SimulatedKeyCode) else KeyUp(SimulatedKeyCode)
  }

  /** The trace `n` ticks produce, as a reference for what the session receives. */
  function Taps(n: nat): (r: seq<Event>)
    ensures |r| == 2 * n
    ensures forall i :: 0 <= i < |r| ==> r[i] == TapEvent(i)
  {
    if n == 0 then [] else Taps(n - 1) + [KeyDown(SimulatedKeyCode), KeyUp(SimulatedKeyCode)]
  }

  /** One tick: a key-down of code 65 and then its key-up, appended to the trace. */
  function Tick(trace: seq<Event>): seq<Event> {
    trace + [KeyDown(SimulatedKeyCode), KeyUp(SimulatedKeyCode)]
  }

  /**
   * Reaction to one input. A key changes only the control state; an elapsed
   * event changes only the trace, and only while the timer is enabled.
   */
  function Deliver(sess: Session, input: Input): (r: Session)
    ensures input.Press? ==> r.trace == sess.trace && r.control == Step(sess.control, input.key)
    ensures input.Elapsed? && !sess.control.timerEnabled ==> r == sess
    ensures input.Elapsed? && sess.control.timerEnabled ==>
              && r.control == sess.control
              && |r.trace| == |sess.trace| + 2
              && r.trace[..|sess.trace|] == sess.trace
              && r.trace[|sess.trace|] == KeyDown(SimulatedKeyCode)
              && r.trace[|sess.trace| + 1] == KeyUp(SimulatedKeyCode)
  {
    match input
    case Press(k) => sess.(control := Step(sess.control, k))
    case Elapsed => if sess.control.timerEnabled then sess.(trace := Tick(sess.trace)) else sess
  }

  /** Trace `t` is trace `t0` followed by more events. */
  predicate Extends(t: seq<Event>, t0: seq<Event>) {
    |t0| <= |t| && t[..|t0|] == t0
  }

  /**
   * Trace `t` is trace `t0` followed by whole ticks only: the added events
   * alternate key-down and key-up of code 65, starting with the key-down.
   */
  predicate GrowsByTicks(t: seq<Event>, t0: seq<Event>) {
    && Extends(t, t0)
    && (|t| - |t0|) % 2 == 0
    && forall i :: |t0| <= i < |t| ==> t[i] == TapEvent(i - |t0|)
  }

  /** One input adds at most one whole tick to the trace. */
  lemma DeliverGrowsByTicks(sess: Session, input: Input)
    ensures GrowsByTicks(Deliver(sess, input).trace, sess.trace)
    ensures |Deliver(sess, input).trace| <= |sess.trace| + 2
  {
  }

  /** Whole ticks after whole ticks are whole ticks. */
  lemma GrowsByTicksTransitive(t0: seq<Event>, t1: seq<Event>, t2: seq<Event>)
    requires GrowsByTicks(t1, t0) && GrowsByTicks(t2, t1)
    ensures GrowsByTicks(t2, t0)
  {
    assert t2[..|t0|] == t2[..|t1|][..|t0|];
    forall i | |t0| <= i < |t2|
      ensures t2[i] == TapEvent(i - |t0|)
    {
      if i < |t1| {
        assert t2[i] == t2[..|t1|][i];
      }
    }
  }

  /**
   * The program's reaction to a whole interleaved input stream. Events sent
   * to the session are never taken back, what is added is whole
   * key-down/key-up pairs of code 65, and each input sends at most one pair.
   */
  function Simulate(sess: Session, inputs: seq<Input>): (r: Session)
    ensures GrowsByTicks(r.trace, sess.trace)
    ensures |r.trace| <= |sess.trace| + 2 * |inputs|
    decreases |inputs|
  {
    if |inputs| == 0 then sess
    else
      var next := Deliver(sess, inputs[0]);
      var r := Simulate(next, inputs[1..]);
      DeliverGrowsByTicks(sess, inputs[0]);
      GrowsByTicksTransitive(sess.trace, next.trace, r.trace);
      r
  }

  /** `n` timer elapsed events in a row. */
  function Elapses(n: nat): (r: seq<Input>)
    ensures |r| == n
    ensures forall i :: 0 <= i < n ==> r[i] == Elapsed
  {
    if n == 0 then [] else [Elapsed] + Elapses(n - 1)
  }

  /** The console keys of an input stream, in order. */
  function Presses(inputs: seq<Input>): (r: seq<Key>)
    ensures |r| <= |inputs|
  {
    if |inputs| == 0 then []
    else if inputs[0].Press? then [inputs[0].key] + Presses(inputs[1..])
    else Presses(inputs[1..])
  }

  /**
   * How many elapsed events of the stream arrive while the timer is enabled,
   * with the control state following the keys alone.
   */
  function EnabledTicks(s: State, inputs: seq<Input>): (r: nat)
    ensures r <= |inputs|
    decreases |inputs|
  {
    if |inputs| == 0 then 0
    else match inputs[0]
      case Press(k) => EnabledTicks(Step(s, k), inputs[1..])
      case Elapsed => (if s.timerEnabled then 1 else 0) + EnabledTicks(s, inputs[1..])
  }

  /** A tick in front of `n` ticks is `n + 1` ticks. */
  lemma TapsCons(n: nat)
    ensures [KeyDown(SimulatedKeyCode), KeyUp(SimulatedKeyCode)] + Taps(n) == Taps(n + 1)
  {
    var lhs := [KeyDown(SimulatedKeyCode), KeyUp(SimulatedKeyCode)] + Taps(n);
    forall i | 0 <= i < |lhs|
      ensures lhs[i] == Taps(n + 1)[i]
    {
      if i >= 2 {
        assert lhs[i] == Taps(n)[i - 2];
      }
    }
  }

  /** Ticks never change the control state: it follows the console keys alone. */
  lemma {:induction false} SimulateControl(sess: Session, inputs: seq<Input>)
    ensures Simulate(sess, inputs).control == Run(sess.control, Presses(inputs))
    decreases |inputs|
  {
    if |inputs| > 0 {
      SimulateControl(Deliver(sess, inputs[0]), inputs[1..]);
      if inputs[0].Press? {
        var ks := Presses(inputs[1..]);
        assert Presses(inputs) == [inputs[0].key] + ks;
        assert ([inputs[0].key] + ks)[1..] == ks;
        if sess.control.exited {
          assert Run(sess.control, ks) == sess.control;
        }
      }
    }
  }

  /**
   * The session receives nothing but whole ticks, one key-down/key-up pair of
   * code 65 per elapsed event that arrives while the timer is enabled.
   */
  lemma {:induction false} SimulateTrace(sess: Session, inputs: seq<Input>)
    ensures Simulate(sess, inputs).trace == sess.trace + Taps(EnabledTicks(sess.control, inputs))
    decreases |inputs|
  {
    if |inputs| == 0 {
      assert sess.trace + [] == sess.trace;
    } else {
      var next := Deliver(sess, inputs[0]);
      var rest := inputs[1..];
      var m := EnabledTicks(next.control, rest);
      SimulateTrace(next, rest);
      if inputs[0].Elapsed? && sess.control.timerEnabled {
        TickThenTaps(sess.trace, m);
      }
    }
  }

  /** A tick followed by `m` ticks is `m + 1` ticks, after any earlier trace. */
  lemma TickThenTaps(t: seq<Event>, m: nat)
    ensures Tick(t) + Taps(m) == t + Taps(m + 1)
  {
    TapsCons(m);
    var tap := [KeyDown(SimulatedKeyCode), KeyUp(SimulatedKeyCode)];
    assert t + tap + Taps(m) == t + (tap + Taps(m));
  }

  /**
   * Once the control loop has been left, the timer is stopped for good: no
   * input changes the session any more.
   */
  lemma {:induction false} ExitedIsQuiet(sess: Session, inputs: seq<Input>)
    requires sess.control.exited && !sess.control.timerEnabled
    ensures Simulate(sess, inputs) == sess
    decreases |inputs|
  {
    if |inputs| > 0 {
      ExitedIsQuiet(Deliver(sess, inputs[0]), inputs[1..]);
    }
  }

  /**
   * Escape during a running simulation: no tick reaches the session after it,
   * whatever inputs follow, including a timer that would otherwise elapse.
   */
  lemma NoTickAfterEscape(sess: Session, rest: seq<Input>)
    requires !sess.control.exited
    ensures Simulate(sess, [Press(Escape)] + rest).trace == sess.trace
  {
    var inputs := [Press(Escape)] + rest;
    assert inputs[0] == Press(Escape) && inputs[1..] == rest;
    ExitedIsQuiet(Deliver(sess, Press(Escape)), rest);
  }

  /**
   * While paused, no tick is sent until a Space key starts the simulation,
   * whatever Up, Down, other keys or elapsed events arrive.
   */
  lemma {:induction false} PausedIsQuiet(sess: Session, inputs: seq<Input>)
    requires Valid(sess.control) && !sess.control.running
    requires forall i :: 0 <= i < |inputs| ==> inputs[i] != Press(Spacebar)
    ensures Simulate(sess, inputs).trace == sess.trace
    decreases |inputs|
  {
    if |inputs| > 0 {
      assert inputs[0] != Press(Spacebar);
      var next := Deliver(sess, inputs[0]);
      if inputs[0].Press? {
        StepPreservesValid(sess.control, inputs[0].key);
      }
      PausedIsQuiet(next, inputs[1..]);
    }
  }

  /**
   * Two adjacent Space keys give back the session they started from.
   */
  lemma SpaceTwiceIsQuiet(sess: Session)
    requires Valid(sess.control) && !sess.control.exited
    ensures Simulate(sess, [Press(Spacebar), Press(Spacebar)]) == sess
  {
    var inputs := [Press(Spacebar), Press(Spacebar)];
    assert inputs[1..] == [Press(Spacebar)];
    assert inputs[1..][1..] == [];
  }

  /**
   * Elapsed events in front of `tail` add no key for the control loop, and
   * while the timer is enabled each of them is one tick.
   */
  lemma {:induction false} ElapsesWhileEnabled(s: State, n: nat, tail: seq<Input>)
    requires s.timerEnabled
    ensures Presses(Elapses(n) + tail) == Presses(tail)
    ensures EnabledTicks(s, Elapses(n) + tail) == n + EnabledTicks(s, tail)
    decreases n
  {
    if n == 0 {
      assert Elapses(n) + tail == tail;
    } else {
      var inputs := Elapses(n) + tail;
      assert inputs[0] == Elapsed;
      assert inputs[1..] == Elapses(n - 1) + tail;
      ElapsesWhileEnabled(s, n - 1, tail);
    }
  }

  /**
   * From a paused simulation, Space, then `n` elapsed events, then Space:
   * the session receives exactly `n` ticks, one per elapsed event, and the
   * control state is back to what it was.
   */
  lemma TicksBetweenSpaces(sess: Session, n: nat)
    requires Valid(sess.control) && !sess.control.exited && !sess.control.running
    ensures var r := Simulate(sess, [Press(Spacebar)] + Elapses(n) + [Press(Spacebar)]);
      && r.control == sess.control
      && r.trace == sess.trace + Taps(n)
  {
    var inputs := [Press(Spacebar)] + Elapses(n) + [Press(Spacebar)];
    var c := sess.control;
    var c1 := Step(c, Spacebar);
    assert inputs[0] == Press(Spacebar);
    assert inputs[1..] == Elapses(n) + [Press(Spacebar)];
    ElapsesWhileEnabled(c1, n, [Press(Spacebar)]);
    var last := [Press(Spacebar)];
    assert last[1..] == [];
    assert Presses(last) == [Spacebar];
    assert Presses(inputs) == [Spacebar, Spacebar];
    assert EnabledTicks(c1, last) == 0;
    assert EnabledTicks(c, inputs) == n;
    SimulateControl(sess, inputs);
    SimulateTrace(sess, inputs);
    assert [Spacebar, Spacebar][1..] == [Spacebar];
  }
}
