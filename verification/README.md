# CitrixWorkSimulator — a Dafny model of the control loop, the ticks and the startup checks

CitrixWorkSimulator keeps a Citrix remote session alive by sending it a synthetic key press at a fixed period. The operator controls it from the console. It can also refuse to start. This project models the three pieces of logic in `Program.cs`:

- **Control loop** (`Control.dfy`). Each console key is one transition of a state `(running, intervalMs, timerEnabled, exited)`. The initial state is `(false, 1000, false, false)`.
  - Space toggles `running` and starts or stops the timer to match.
  - Up sets the interval to `min(interval + 1000, 60000)`.
  - Down sets it to `max(interval − 1000, 1000)`.
  - Escape leaves the loop, and the timer is then stopped.
  - Any other key does nothing.
  - `Run` folds `Step` over a key stream. It reads no key after Escape.
- **Ticks** (`Simulation.dfy`). Console keys and timer `Elapsed` events are interleaved in one input stream. While the timer is enabled, an elapsed event calls the session keyboard's `SendKeyDown(65)` and then `SendKeyUp(65)`. Both calls are taken to succeed, and each is recorded in a trace of keyboard calls. Otherwise an elapsed event does nothing.
- **Startup checks** (`Startup.dfy`). Six guards are tried in source order:
  1. the platform is Windows;
  2. the CCM registry key exists;
  3. its `AllowSimulationAPI` value exists;
  4. that value is a DWORD equal to 1;
  5. an argument is given;
  6. the `.ica` file exists.

  `Validate` returns the first guard that fails, or `Ok(args[0])`. The platform, the registry and the file system are inputs: an `Environment` record holds what they would answer. Each guard has its own error line, given by `Message`.
- **The whole run** (`Program.dfy`). `Execute` runs the startup checks. A refused run prints the failing guard's line. When the checks pass, `Execute` drives the simulation from the armed state.

## Model

| member | source | states |
|---|---|---|
| Control.Increase | Program.cs:101 | The Up interval is at most 60000 and at most one step longer. It equals one of those two bounds, so it is their minimum. |
| Control.Decrease | Program.cs:107 | The Down interval is at least 1000 and at least one step shorter. It equals one of those two bounds, so it is their maximum. |
| Control.Step | Program.cs:79-114 | Space flips `running`, sets `timerEnabled` to the new `running`, and keeps the interval. Up and Down change only the interval, saturating at 60000 and 1000. Escape sets `exited` and stops the timer, keeping `running` and the interval. Other keys change nothing. After exit, no key has an effect. |
| Control.Run | Program.cs:79-112 | The loop has been left after a key stream exactly when an Escape occurs in it (or the loop was already left). A left loop is never changed again. |
| Control.StepPreservesValid | Program.cs:83-110 | One key keeps the interval a multiple of 1000 in [1000, 60000]. It keeps the timer enabled exactly while running, and stopped after exit. |
| Control.RunPreservesValid | Program.cs:79-114 | Every finite key stream preserves that invariant. |
| Control.ReachableValid | Program.cs:14 | From the initial 1000 ms paused state, every key stream leaves the interval a multiple of 1000 in [1000, 60000]. The timer is enabled exactly while running, and stopped once Escape is read. |
| Control.RunAppend | Program.cs:79-112 | Reading `a` then `b` is the same as reading `a + b`. |
| Control.UpsSaturate | Program.cs:99-104 | `n` Up keys set the interval to `min(interval + 1000·n, 60000)` and change nothing else. |
| Control.DownsSaturate | Program.cs:105-110 | `n` Down keys set the interval to `max(interval − 1000·n, 1000)` and change nothing else. |
| Control.ThreeUpsFromInit | Program.cs:101 | From the initial 1000 ms, three Up keys give 4000 ms. |
| Control.ManyUpsFromInit | Program.cs:101 | From the initial 1000 ms, any number of Up keys of at least 59 gives exactly 60000 ms. |
| Control.DownAtFloor | Program.cs:107 | Down at 1000 ms leaves the whole state unchanged. |
| Control.SpaceTwice | Program.cs:83-97 | Two Space keys in a row restore `running`, the interval and the timer state. |
| Control.EscapeEnds | Program.cs:112-114 | After Escape, whatever follows, the loop has been left and the timer is stopped. `running` and the interval are as before. |
| Control.OtherKeysIgnored | Program.cs:82-111 | A stream of keys other than Space, Up, Down and Escape leaves the state unchanged. |
| Simulation.Taps | Program.cs:129-133 | `n` ticks are `2n` events that alternate `KeyDown(65)` and `KeyUp(65)`, starting with the key-down. |
| Simulation.Deliver | Program.cs:129-133 | A key changes only the control state. An elapsed event with the timer enabled appends exactly `KeyDown(65)` then `KeyUp(65)` and changes nothing else. An elapsed event with the timer disabled changes nothing. |
| Simulation.Simulate | Program.cs:79-133 | Over any interleaving of keys and timer events, events already sent are never taken back. What is added alternates `KeyDown(65)` and `KeyUp(65)`, starting with the key-down, so the trace only grows by whole pairs, at most one pair per input. |
| Simulation.SimulateControl | Program.cs:129-133 | Ticks never touch the control state. After any interleaving, that state is the control loop's run over the keys alone. |
| Simulation.SimulateTrace | Program.cs:129-133 | The session receives exactly one `KeyDown(65), KeyUp(65)` pair per elapsed event that arrives while the timer is enabled, and nothing else. |
| Simulation.ExitedIsQuiet | Program.cs:114-116 | Once the loop is left and the timer stopped, no input changes the session. |
| Simulation.NoTickAfterEscape | Program.cs:112-116 | After Escape, no tick reaches the session, whatever inputs and timer events follow. |
| Simulation.PausedIsQuiet | Program.cs:85-96 | While paused, nothing is sent to the session until a Space key arrives, whatever Up, Down, other keys or elapsed events come. |
| Simulation.SpaceTwiceIsQuiet | Program.cs:85-96 | Two adjacent Space inputs give back the whole session unchanged, from any valid state before exit. |
| Simulation.TicksBetweenSpaces | Program.cs:83-97 | From paused: Space, then `n` elapsed events, then Space. The session receives exactly `n` `KeyDown(65), KeyUp(65)` pairs, one per elapsed event, and the control state returns to what it was. |
| Startup.Validate | Program.cs:18-58 | A launch always uses the first argument, which is non-empty and names an existing file. A refusal always names a guard that fails. |
| Startup.MessageIdentifiesGuard | Program.cs:18-58 | The six error lines are pairwise different, so two guards print the same line only if they are the same guard. |
| Startup.ValidateIsFirstFailure | Program.cs:18-58 | Startup agrees with an in-order scan of the six guards. It reports the first failing guard, or launches with `args[0]` when none fails. |
| Startup.ReportsGuard | Program.cs:18-58 | Guard `i` is reported if and only if it fails and every earlier guard passes. |
| Startup.LaunchesIffAllPass | Program.cs:18-58 | Startup launches if and only if all six guards pass, and then with `args[0]`. |
| Startup.AllowValueMustBeDwordOne | Program.cs:40-44 | Once the earlier guards pass, the AllowSimulationAPI guard refuses if and only if the value is not a DWORD equal to 1. |
| Startup.NotDwordOneExamples | Program.cs:40-44 | A DWORD 0, a string "1" and a QWORD 1 are each refused by the AllowSimulationAPI guard. |
| Program.Execute | Program.cs:16-116 | The run is refused exactly when startup fails, and then names a failing guard. It prints that guard's line and no other guard's. A launched run uses `args[0]`. Its control state is the control loop's run from the initial state over the keys among the inputs. Its trace is exactly one `KeyDown(65), KeyUp(65)` pair per elapsed event that arrives while the timer is enabled. The control state stays valid, and once Escape has been read the timer is stopped. |

## Design notes

- `Timer.Interval` is a `double` in the program. It is modelled as `int` milliseconds: every reachable value is a whole multiple of 1000 in [1000, 60000] (`Control.ReachableValid`).
- The key switch has no Escape case, so `Dispatch` leaves the state alone on Escape. The exit from the `do … while` loop and the `Stop()` call after it (Program.cs:112-114) form the Escape branch of `Step`.
- Registry values are tagged by the .NET type the registry API returns: `int` for REG_DWORD, `long` for REG_QWORD, `string`, `string[]` and `byte[]`. Only the first passes the `is int` test, so a QWORD 1 or a string "1" is refused.

## Left out

- Registry, platform and file-system queries: these are the fields of `Environment`. `File.Exists` is `FileExists`: the path is non-empty and in `existingFiles`. Other paths for which .NET answers false, such as malformed ones, are assumed absent from `existingFiles`. `Path.GetFullPath` is not modelled.
- Console I/O: keys are a `seq<Key>`. Of the printed lines, only the startup error lines (`Startup.Message`, printed by `Program.Execute` on refusal) are modelled. The instructions, the "started"/"stopped" lines and the interval lines of the control loop are not.
- The ICA client COM object: the connect call, `OnConnect`, CCM session enumeration, monitoring and its shutdown calls are foreign code. The keyboard calls appear only as trace events.
- Timer timing and concurrency: elapsed events are interleaved inputs that fire only while the timer is enabled. Real time, the thread-pool callback, and a tick racing a concurrent Space or Escape are not modelled.
- How setting `Interval` on a running timer restarts its countdown is timer-library behaviour. The interval is kept in the state but does not drive when elapsed events arrive.
- Simulation.Deliver: the two keyboard calls are assumed to succeed; a failing call is swallowed by the timer in the program. In the program, a tick before the asynchronous connect and `OnConnect` have finished sends no pair. A `SendKeyDown` (Program.cs:131) that throws sends nothing. A `SendKeyUp` (Program.cs:132) that throws leaves a lone key-down. The model always records the whole pair.
