/**
 * The operator's console control loop of the work simulator.
 *
 * Every key read from the console is one transition of a small state
 * machine over four facts: whether the simulation is running, the timer
 * interval in milliseconds, whether the timer is enabled, and whether the
 * loop has been left. Up and Down adjust the interval with saturation,
 * Space starts or pauses the simulation, Escape leaves the loop (after
 * which the timer is stopped), and every other key is ignored.
 */
module Control {

  /** The console keys the control loop tells apart; `Other` stands for any other key. */
  datatype Key = Spacebar | UpArrow | DownArrow | Escape | Other

  /** The amount one Up or Down key changes the interval by, in milliseconds. */
  const IntervalStepMs: int := 1000
  /** The shortest interval Down can reach, in milliseconds. */
  const MinIntervalMs: int := 1000
  /** The longest interval Up can reach, in milliseconds. */
  const MaxIntervalMs: int := 60000
  /** The interval the timer is created with, in milliseconds. */
  const InitialIntervalMs: int := 1000

  /**
   * The control state. `timerEnabled` mirrors the timer's Start/Stop calls;
   * `exited` records that Escape has ended the loop.
   */
  datatype State = State(running: bool, intervalMs: int, timerEnabled: bool, exited: bool)

  /** Before the first key: paused, 1000 ms, timer not started. */
  const Init: State := State(false, InitialIntervalMs, false, false)

  /**
   * The states the control loop can be in: the interval is a whole number of
   * steps within the bounds, and the timer runs exactly while the simulation
   * runs until the loop is left, after which it is stopped for good.
   */
  predicate Valid(s: State) {
    && MinIntervalMs <= s.intervalMs <= MaxIntervalMs
    && s.intervalMs % IntervalStepMs == 0
    && (if s.exited then !s.timerEnabled else s.timerEnabled == s.running)
  }

  /** The interval after Up: one step longer, but never past the ceiling. */
  function Increase(ms: int): (r: int)
    ensures r <= MaxIntervalMs && r <= ms + IntervalStepMs
    ensures r == MaxIntervalMs || r == ms + IntervalStepMs
  {
    if ms + IntervalStepMs < MaxIntervalMs then ms + IntervalStepMs else MaxIntervalMs
  }

  /** The interval after Down: one step shorter, but never below the floor. */
  function Decrease(ms: int): (r: int)
    ensures r >= MinIntervalMs && r >= ms - IntervalStepMs
    ensures r == MinIntervalMs || r == ms - IntervalStepMs
  {
    if ms - IntervalStepMs > MinIntervalMs then ms - IntervalStepMs else MinIntervalMs
  }

  /** The body of the key switch: what one key does inside the loop. */
  function Dispatch(s: State, k: Key): State {
    match k
    case Spacebar =>
      var running := !s.running;
      s.(running := running, timerEnabled := running)
    case UpArrow => s.(intervalMs := Increase(s.intervalMs))
    case DownArrow => s.(intervalMs := Decrease(s.intervalMs))
    case _ => s
  }

  /**
   * One iteration of the control loop: the switch on the key, then, when the
   * key was Escape, leaving the loop and stopping the timer. A loop that has
   * been left reads no more keys.
   */
  function Step(s: State, k: Key): (r: State)
    ensures s.exited ==> r == s
    ensures !s.exited && k.Spacebar? ==>
              && r.running == !s.running
              && r.timerEnabled == r.running
              && r.intervalMs == s.intervalMs
              && !r.exited
    ensures !s.exited && k.UpArrow? ==>
              && r.intervalMs <= MaxIntervalMs
              && (s.intervalMs + IntervalStepMs <= MaxIntervalMs ==> r.intervalMs == s.intervalMs + IntervalStepMs)
              && (s.intervalMs + IntervalStepMs >= MaxIntervalMs ==> r.intervalMs == MaxIntervalMs)
              && r == s.(intervalMs := r.intervalMs)
    ensures !s.exited && k.DownArrow? ==>
              && r.intervalMs >= MinIntervalMs
              && (s.intervalMs - IntervalStepMs >= MinIntervalMs ==> r.intervalMs == s.intervalMs - IntervalStepMs)
              && (s.intervalMs - IntervalStepMs <= MinIntervalMs ==> r.intervalMs == MinIntervalMs)
              && r == s.(intervalMs := r.intervalMs)
    ensures !s.exited && k.Escape? ==>
              r == s.(exited := true, timerEnabled := false)
    ensures k.Other? ==> r == s
  {
    if s.exited then s
    else
      var d := Dispatch(s, k);
      if k.Escape? then d.(exited := true, timerEnabled := false) else d
  }

  /**
   * The control loop over a whole key stream: keys are consumed one at a time
   * until the loop has been left; keys after Escape are never read.
   */
  function Run(s: State, keys: seq<Key>): (r: State)
    ensures s.exited ==> r == s
    ensures r.exited <==> s.exited || exists i :: 0 <= i < |keys| && keys[i].Escape?
    decreases |keys|
  {
    if |keys| == 0 || s.exited then s
    else
      var r := Run(Step(s, keys[0]), keys[1..]);
      assert forall i :: 0 <= i < |keys| - 1 ==> keys[1..][i] == keys[i + 1];
      r
  }

  /** `n` presses of the same key. */
  function Repeat(k: Key, n: nat): (r: seq<Key>)
    ensures |r| == n
    ensures forall i :: 0 <= i < n ==> r[i] == k
  {
    if n == 0 then [] else [k] + Repeat(k, n - 1)
  }

  /** One key keeps a valid state valid. */
  lemma StepPreservesValid(s: State, k: Key)
    requires Valid(s)
    ensures Valid(Step(s, k))
  {
  }

  /** Any key stream keeps a valid state valid. */
  lemma {:induction false} RunPreservesValid(s: State, keys: seq<Key>)
    requires Valid(s)
    ensures Valid(Run(s, keys))
    decreases |keys|
  {
    if |keys| > 0 && !s.exited {
      StepPreservesValid(s, keys[0]);
      RunPreservesValid(Step(s, keys[0]), keys[1..]);
    }
  }

  /**
   * Starting from the initial state, every finite key stream leaves the
   * interval within [1000, 60000] ms and a multiple of 1000 ms, and the timer
   * enabled exactly while the simulation runs (or stopped once Escape was read).
   */
  lemma ReachableValid(keys: seq<Key>)
    ensures var r := Run(Init, keys);
      && MinIntervalMs <= r.intervalMs <= MaxIntervalMs
      && r.intervalMs % IntervalStepMs == 0
      && (!r.exited ==> r.timerEnabled == r.running)
      && (r.exited ==> !r.timerEnabled)
  {
    RunPreservesValid(Init, keys);
  }

  /** Reading `a` and then `b` is reading `a + b`. */
  lemma {:induction false} RunAppend(s: State, a: seq<Key>, b: seq<Key>)
    ensures Run(s, a + b) == Run(Run(s, a), b)
    decreases |a|
  {
    if |a| > 0 && !s.exited {
      assert (a + b)[0] == a[0];
      assert (a + b)[1..] == a[1..] + b;
      RunAppend(Step(s, a[0]), a[1..], b);
    } else if |a| == 0 {
      assert a + b == b;
    }
  }

  /**
   * `n` Up keys lengthen the interval by `n` steps, saturating at the
   * ceiling, and change nothing else.
   */
  lemma {:induction false} UpsSaturate(s: State, n: nat)
    requires !s.exited && s.intervalMs <= MaxIntervalMs
    ensures var target := s.intervalMs + n * IntervalStepMs;
      Run(s, Repeat(UpArrow, n)) == s.(intervalMs := if target < MaxIntervalMs then target else MaxIntervalMs)
    decreases n
  {
    if n > 0 {
      var keys := Repeat(UpArrow, n);
      assert keys[0] == UpArrow && keys[1..] == Repeat(UpArrow, n - 1);
      UpsSaturate(Step(s, UpArrow), n - 1);
    }
  }

  /**
   * `n` Down keys shorten the interval by `n` steps, saturating at the
   * floor, and change nothing else.
   */
  lemma {:induction false} DownsSaturate(s: State, n: nat)
    requires !s.exited && s.intervalMs >= MinIntervalMs
    ensures var target := s.intervalMs - n * IntervalStepMs;
      Run(s, Repeat(DownArrow, n)) == s.(intervalMs := if target > MinIntervalMs then target else MinIntervalMs)
    decreases n
  {
    if n > 0 {
      var keys := Repeat(DownArrow, n);
      assert keys[0] == DownArrow && keys[1..] == Repeat(DownArrow, n - 1);
      DownsSaturate(Step(s, DownArrow), n - 1);
    }
  }

  /** From the initial 1000 ms, three Up keys give 4000 ms. */
  lemma ThreeUpsFromInit()
    ensures Run(Init, [UpArrow, UpArrow, UpArrow]).intervalMs == 4000
  {
    assert [UpArrow, UpArrow, UpArrow] == Repeat(UpArrow, 3);
    UpsSaturate(Init, 3);
  }

  /** From the initial 1000 ms, 59 or more Up keys give exactly 60000 ms. */
  lemma ManyUpsFromInit(n: nat)
    requires n >= 59
    ensures Run(Init, Repeat(UpArrow, n)).intervalMs == 60000
  {
    UpsSaturate(Init, n);
  }

  /** Down at the 1000 ms floor leaves the whole state as it was. */
  lemma DownAtFloor(s: State)
    requires !s.exited && s.intervalMs == MinIntervalMs
    ensures Step(s, DownArrow) == s
  {
  }

  /**
   * Two Space keys in a row give back the state they started from: the
   * running flag, the interval and the timer are all as before.
   */
  lemma SpaceTwice(s: State)
    requires Valid(s) && !s.exited
    ensures Run(s, [Spacebar, Spacebar]) == s
  {
    assert [Spacebar, Spacebar][1..] == [Spacebar];
  }

  /**
   * Escape leaves the loop whatever follows it, keeps the running flag and
   * the interval, and leaves the timer stopped.
   */
  lemma EscapeEnds(s: State, rest: seq<Key>)
    requires !s.exited
    ensures var r := Run(s, [Escape] + rest);
      && r.exited && !r.timerEnabled
      && r.running == s.running && r.intervalMs == s.intervalMs
  {
    assert ([Escape] + rest)[0] == Escape;
  }

  /** Keys other than Space, Up, Down and Escape change no state at all. */
  lemma {:induction false} OtherKeysIgnored(s: State, keys: seq<Key>)
    requires forall i :: 0 <= i < |keys| ==> keys[i].Other?
    ensures Run(s, keys) == s
    decreases |keys|
  {
    if |keys| > 0 && !s.exited {
      assert keys[0].Other?;
      OtherKeysIgnored(s, keys[1..]);
    }
  }
}
