/**
 * The startup checks that run before the remote session is launched.
 *
 * Six guards are tried in a fixed order and the first one that fails ends the
 * program with its error message; the session is launched, with the first
 * command-line argument as the .ica file, only when all six pass. The
 * platform, the registry and the file system are not queried here: what they
 * would answer is given as an `Environment`.
 */
module Startup {

  datatype Option<T> = None | Some(value: T)

  /** Either the .ica path to launch with, or the guard that refused to start. */
  datatype Result<T, E> = Ok(value: T) | Err(error: E)

  /** The range of a .NET `int`, which a REG_DWORD value is read as. */
  newtype Int32 = x: int | -0x8000_0000 <= x < 0x8000_0000
  /** The range of a .NET `long`, which a REG_QWORD value is read as. */
  newtype Int64 = x: int | -0x8000_0000_0000_0000 <= x < 0x8000_0000_0000_0000

  /** A registry value as the registry API hands it back, tagged by its .NET type. */
  datatype RegistryValue =
    | DwordValue(dword: Int32)
    | QwordValue(qword: Int64)
    | StringValue(text: string)
    | MultiStringValue(lines: seq<string>)
    | BinaryValue(bytes: seq<bv8>)

  /**
   * Whether a file exists at `path`. The empty path never names a file,
   * whatever the file system holds.
   */
  predicate FileExists(env: Environment, path: string) {
    path != "" && path in env.existingFiles
  }

  /** What the Citrix ICA Client CCM registry key holds that startup looks at. */
  datatype CcmKey = CcmKey(allowSimulationApi: Option<RegistryValue>)

  /**
   * What startup observes: the platform, the CCM registry key (absent when it
   * cannot be opened), the command-line arguments, and the set of paths for
   * which a file exists.
   */
  datatype Environment = Environment(
    isWindows: bool,
    ccmKey: Option<CcmKey>,
    args: seq<string>,
    existingFiles: set<string>)

  /** The startup guards. */
  datatype Guard =
    | WindowsPlatform
    | CcmKeyPresent
    | AllowValuePresent
    | AllowValueIsDwordOne
    | IcaPathGiven
    | IcaFileExists

  /** The guards in the order startup tries them. */
  const Guards: seq<Guard> :=
    [WindowsPlatform, CcmKeyPresent, AllowValuePresent, AllowValueIsDwordOne, IcaPathGiven, IcaFileExists]

  /** The value that enables the simulation API: a DWORD equal to 1 and nothing else. */
  predicate EnablesSimulation(v: RegistryValue) {
    v.DwordValue? && v.dword == 1
  }

  /**
   * What each guard asks of the environment, on its own. A guard that reads
   * something an earlier guard checks for also asks for it to be there.
   */
  predicate Passes(env: Environment, g: Guard) {
    match g
    case WindowsPlatform => env.isWindows
    case CcmKeyPresent => env.ccmKey.Some?
    case AllowValuePresent => env.ccmKey.Some? && env.ccmKey.value.allowSimulationApi.Some?
    case AllowValueIsDwordOne =>
      && env.ccmKey.Some?
      && env.ccmKey.value.allowSimulationApi.Some?
      && EnablesSimulation(env.ccmKey.value.allowSimulationApi.value)
    case IcaPathGiven => |env.args| > 0
    case IcaFileExists => |env.args| > 0 && FileExists(env, env.args[0])
  }

  /** The messages printed when a guard fails, just before the program exits. */
  const NotWindowsMessage: string := "ERROR: Only Windows platform is supported! Exiting..."
  const NoCcmKeyMessage: string :=
    @"ERROR: HKEY_LOCAL_MACHINE\SOFTWARE\WOW6432Node\Citrix\ICA Client\CCM doesn't exist! Exiting..."
  const NoAllowValueMessage: string :=
    @"ERROR: HKEY_LOCAL_MACHINE\SOFTWARE\WOW6432Node\Citrix\ICA Client\CCM\AllowSimulationAPI doesn't exist! Exiting..."
  const AllowValueNotDwordOneMessage: string :=
    @"ERROR: HKEY_LOCAL_MACHINE\SOFTWARE\WOW6432Node\Citrix\ICA Client\CCM\AllowSimulationAPI has to be a DWORD with value 1! Exiting..."
  const NoIcaPathMessage: string := "ERROR: No .ica path was provided! Exiting..."
  const NoIcaFileMessage: string := "ERROR: The .ica file provided doesn't exist! Exiting..."

  /** The message printed when `g` fails. */
  function Message(g: Guard): string {
    match g
    case WindowsPlatform => NotWindowsMessage
    case CcmKeyPresent => NoCcmKeyMessage
    case AllowValuePresent => NoAllowValueMessage
    case AllowValueIsDwordOne => AllowValueNotDwordOneMessage
    case IcaPathGiven => NoIcaPathMessage
    case IcaFileExists => NoIcaFileMessage
  }

  /**
   * The startup checks in the order the program makes them. The result is the
   * .ica path to launch with, or the first guard that failed.
   */
  function Validate(env: Environment): (r: Result<string, Guard>)
    ensures r.Ok? ==> |env.args| > 0 && r.value == env.args[0]
    ensures r.Ok? ==> r.value != "" && r.value in env.existingFiles
    ensures r.Err? ==> !Passes(env, r.error)
  {
    if !env.isWindows then Err(WindowsPlatform)
    else if env.ccmKey.None? then Err(CcmKeyPresent)
    else if env.ccmKey.value.allowSimulationApi.None? then Err(AllowValuePresent)
    else if !EnablesSimulation(env.ccmKey.value.allowSimulationApi.value) then Err(AllowValueIsDwordOne)
    else if |env.args| == 0 then Err(IcaPathGiven)
    else if !FileExists(env, env.args[0]) then Err(IcaFileExists)
    else Ok(env.args[0])
  }

  /**
   * A reference for "the first failing guard": scan the guards in order and
   * stop at the first that does not pass.
   */
  function FirstFailing(env: Environment, gs: seq<Guard>): (r: Option<nat>)
    ensures r.None? <==> forall j :: 0 <= j < |gs| ==> Passes(env, gs[j])
    ensures r.Some? ==> r.value < |gs| && !Passes(env, gs[r.value])
    ensures r.Some? ==> forall j :: 0 <= j < r.value ==> Passes(env, gs[j])
    decreases |gs|
  {
    if |gs| == 0 then None
    else if !Passes(env, gs[0]) then Some(0)
    else match FirstFailing(env, gs[1..])
      case None => None
      case Some(k) => Some(k + 1)
  }

  /**
   * Startup refuses with exactly the first guard, in the program's order,
   * that fails, and launches with the first argument exactly when none fails.
   */
  lemma ValidateIsFirstFailure(env: Environment)
    ensures match FirstFailing(env, Guards)
      case None => Validate(env) == Ok(env.args[0])
      case Some(i) => Validate(env) == Err(Guards[i])
  {
    var gs := Guards;
    assert gs[0] == WindowsPlatform && gs[1] == CcmKeyPresent && gs[2] == AllowValuePresent;
    assert gs[3] == AllowValueIsDwordOne && gs[4] == IcaPathGiven && gs[5] == IcaFileExists;
  }

  /**
   * Guard `i` is the one reported if and only if it fails and every guard
   * before it passes.
   */
  lemma ReportsGuard(env: Environment, i: nat)
    requires i < |Guards|
    ensures Validate(env) == Err(Guards[i]) <==>
              !Passes(env, Guards[i]) && forall j :: 0 <= j < i ==> Passes(env, Guards[j])
  {
    ValidateIsFirstFailure(env);
    var f := FirstFailing(env, Guards);
    if f.Some? && f.value != i {
      assert Guards[f.value] != Guards[i];
    }
  }

  /** Startup launches if and only if every guard passes, and then with the first argument. */
  lemma LaunchesIffAllPass(env: Environment)
    ensures Validate(env).Ok? <==> forall j :: 0 <= j < |Guards| ==> Passes(env, Guards[j])
    ensures Validate(env).Ok? ==> Validate(env).value == env.args[0]
  {
    ValidateIsFirstFailure(env);
  }

  /**
   * Once the earlier guards pass, the AllowSimulationAPI value is accepted
   * only as a DWORD equal to 1; anything else is refused with the
   * "has to be a DWORD with value 1" guard.
   */
  lemma AllowValueMustBeDwordOne(env: Environment)
    requires env.isWindows && env.ccmKey.Some? && env.ccmKey.value.allowSimulationApi.Some?
    ensures Validate(env) == Err(AllowValueIsDwordOne) <==>
              env.ccmKey.value.allowSimulationApi.value != DwordValue(1)
  {
  }

  /** A DWORD 0, a string "1" and a QWORD 1 are all refused by the same guard. */
  lemma NotDwordOneExamples(args: seq<string>, files: set<string>)
    ensures Validate(Environment(true, Some(CcmKey(Some(DwordValue(0)))), args, files)) == Err(AllowValueIsDwordOne)
    ensures Validate(Environment(true, Some(CcmKey(Some(StringValue("1")))), args, files)) == Err(AllowValueIsDwordOne)
    ensures Validate(Environment(true, Some(CcmKey(Some(QwordValue(1)))), args, files)) == Err(AllowValueIsDwordOne)
  {
  }

  /** No two guards print the same message, so the printed line tells which guard failed. */
  lemma MessageIdentifiesGuard(g: Guard, h: Guard)
    ensures Message(g) == Message(h) <==> g == h
  {
    if g != h {
      assert |Message(g)| != |Message(h)| by {
        MessageLengths();
      }
    }
  }

  /** The six messages have six different lengths. */
  lemma MessageLengths()
    ensures |NotWindowsMessage| == 53
    ensures |NoCcmKeyMessage| == 94
    ensures |NoAllowValueMessage| == 113
    ensures |AllowValueNotDwordOneMessage| == 130
    ensures |NoIcaPathMessage| == 44
    ensures |NoIcaFileMessage| == 55
  {
  }
}
