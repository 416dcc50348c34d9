/**
 * The whole program: the startup checks, then the control loop and the ticks
 * on one interleaved input stream, starting paused at 1000 ms with nothing
 * sent to the session yet.
 */
module Program {
  import opened Control
  import opened Simulation
  import opened Startup

  /**
   * How a run ends: refused at startup with the guard that failed and the
   * line printed for it, or launched and driven by the inputs.
   */
  datatype Outcome = Refused(failed: Guard, printed: string) | Launched(icaPath: string, session: Session)

  /** The session as it is when the simulation is armed, before any input. */
  const Armed: Session := Session(Init, [])

  /**
   * One run of the program. A refused start prints the one message that
   * names the failing guard and sends nothing to the session. A launched
   * one ends in the control loop's state after the keys of the inputs, and
   * has sent one whole tick per elapsed event that arrived while the timer
   * was enabled. Its control state is valid, and its timer is stopped once
   * Escape has been read.
   */
  function Execute(env: Environment, inputs: seq<Input>): (r: Outcome)
    ensures r.Refused? <==> Validate(env).Err?
    ensures r.Refused? ==> r.failed == Validate(env).error && !Passes(env, r.failed)
    ensures r.Refused? ==> forall g :: r.printed == Message(g) <==> g == r.failed
    ensures r.Launched? ==>
              && |env.args| > 0 && r.icaPath == env.args[0]
              && Valid(r.session.control)
              && |r.session.trace| % 2 == 0
              && (forall i :: 0 <= i < |r.session.trace| ==> r.session.trace[i] == TapEvent(i))
              && (Press(Escape) in inputs ==> r.session.control.exited && !r.session.control.timerEnabled)
    ensures r.Launched? ==>
              && r.session.control == Run(Init, Presses(inputs))
              && r.session.trace == Taps(EnabledTicks(Init, inputs))
  {
    match Validate(env)
    case Err(g) =>
      assert forall h :: Message(g) == Message(h) <==> h == g by {
        forall h
          ensures Message(g) == Message(h) <==> h == g
        {
          MessageIdentifiesGuard(g, h);
        }
      }
      Refused(g, Message(g))
    case Ok(path) =>
      var sess := Simulate(Armed, inputs);
      SimulateControl(Armed, inputs);
      SimulateTrace(Armed, inputs);
      RunPreservesValid(Init, Presses(inputs));
      EscapeReachesControl(inputs);
      assert [] + Taps(EnabledTicks(Init, inputs)) == Taps(EnabledTicks(Init, inputs));
      Launched(path, sess)
  }

  /** An Escape among the inputs is an Escape among the keys the control loop sees. */
  lemma {:induction false} EscapeReachesControl(inputs: seq<Input>)
    ensures Press(Escape) in inputs <==> Escape in Presses(inputs)
    decreases |inputs|
  {
    if |inputs| > 0 {
      EscapeReachesControl(inputs[1..]);
      assert inputs == [inputs[0]] + inputs[1..];
      if inputs[0].Press? {
        assert Presses(inputs) == [inputs[0].key] + Presses(inputs[1..]);
      }
    }
  }
}
