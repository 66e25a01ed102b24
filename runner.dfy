/** The Python runner of the Unity scripting package
    (`resource/packages/com.unity.scripting.python/Editor/PythonRunner.cs`):
    the once-only initialisation of the in-process and out-of-process APIs,
    the site-packages put at the head of `sys.path`, the Python code built to
    start, stop and call the rpyc server, and the checks on a script path
    before it is run. The Python engine, the file system and the spawned
    client Python are inputs; the code handed to `PythonEngine.Exec` is
    recorded instead of run. */
module PythonRunner {
  import opened Text
  import opened PythonSettingsEditor

  const ImportServerString := "from unity_rpyc import unity_server as unity_server\n"

  const PackageSitePackages := "Packages/com.unity.scripting.python/Python/site-packages"
  const ProjectSitePackages := "Assets/Python/site-packages"

  /** What initialisation reads from the editor and the machine. */
  datatype RunnerHost = RunnerHost(
    engineVersion: string,                // PythonEngine.Version
    fullPath: string -> string,           // Path.GetFullPath
    projectSitePackagesExists: bool,      // Directory.Exists(ProjectSitePackages)
    settingsSitePackages: seq<string>,    // PythonSettings.SitePackages
    interpreter: string,                  // PythonSettings.PythonInterpreter
    timeoutMs: int,
    validation: ValidationHost,
    rpycImport: RpycImport,               // PythonEngine.ImportModule("rpyc") on the server side
    probe: ProbeSpawn,                    // the client Python asked to import rpyc
    fileExists: string -> bool)

  /** The server-side `PythonEngine.ImportModule("rpyc")`: it returns the
      module, which is always truthy, or a failed import throws Python.NET's
      `PythonException`, which no `try` around it catches. */
  datatype RpycImport = RpycImports | RpycImportFails(message: string)

  /** The client probe: `spawn_subpython` gives no process, the process exits
      with a code, or something throws. */
  datatype ProbeSpawn = SpawnReturnsNull | SpawnExits(code: int) | SpawnThrows(exception: CsException)

  // ---------------------------------------------------------------------
  // Site-packages

  /** An absolute path with forward slashes. */
  function Normalised(path: string, h: RunnerHost): string
  {
    ForwardSlashes(h.fullPath(path))
  }

  /** The settings' entries, each made absolute with forward slashes. */
  function SettingsEntries(paths: seq<string>, h: RunnerHost): (r: seq<string>)
    ensures |r| == |paths| && forall i :: 0 <= i < |paths| ==> r[i] == Normalised(paths[i], h)
  {
    if paths == [] then [] else [Normalised(paths[0], h)] + SettingsEntries(paths[1..], h)
  }

  /** What `GetExtraSitePackages` returns: the package's directory, the
      project's directory when it exists, then the settings' entries. */
  function ExtraSitePackages(h: RunnerHost): seq<string>
  {
    [Normalised(PackageSitePackages, h)]
    + (if h.projectSitePackagesExists then [Normalised(ProjectSitePackages, h)] else [])
    + SettingsEntries(h.settingsSitePackages, h)
  }

  /** `GetExtraSitePackages`. */
  method GetExtraSitePackages(h: RunnerHost) returns (sitePackages: seq<string>)
    ensures sitePackages == ExtraSitePackages(h)
  {
    var head := [Normalised(PackageSitePackages, h)];
    if h.projectSitePackagesExists {
      head := head + [Normalised(ProjectSitePackages, h)];
    } else {
      assert head == head + [];
    }
    var entries := NormaliseEach(h.settingsSitePackages, h);
    sitePackages := head + entries;
  }

  /** The loop of `GetExtraSitePackages` over the settings' entries. */
  method NormaliseEach(paths: seq<string>, h: RunnerHost) returns (entries: seq<string>)
    ensures entries == SettingsEntries(paths, h)
  {
    entries := [];
    var i := 0;
    while i < |paths|
      invariant 0 <= i <= |paths|
      invariant entries == SettingsEntries(paths[..i], h)
    {
      SettingsEntriesStep(paths, i, h);
      entries := entries + [Normalised(paths[i], h)];
      i := i + 1;
    }
    assert paths[..i] == paths;
  }

  lemma SettingsEntriesStep(paths: seq<string>, i: nat, h: RunnerHost)
    requires i < |paths|
    ensures SettingsEntries(paths[..i + 1], h) == SettingsEntries(paths[..i], h) + [Normalised(paths[i], h)]
  {
    assert paths[..i + 1] == paths[..i] + [paths[i]];
    SettingsEntriesAppend(paths[..i], paths[i], h);
  }

  lemma SettingsEntriesAppend(paths: seq<string>, p: string, h: RunnerHost)
    ensures SettingsEntries(paths + [p], h) == SettingsEntries(paths, h) + [Normalised(p, h)]
  {
  }

  /** The package's directory comes first, the project's is second exactly
      when it exists, the settings' entries follow in their order, and no
      entry contains a backslash. */
  lemma ExtraSitePackagesOrder(h: RunnerHost)
    ensures var r := ExtraSitePackages(h);
      var offset := if h.projectSitePackagesExists then 2 else 1;
      |r| == offset + |h.settingsSitePackages|
      && r[0] == Normalised(PackageSitePackages, h)
      && (h.projectSitePackagesExists ==> r[1] == Normalised(ProjectSitePackages, h))
      && (forall i :: 0 <= i < |h.settingsSitePackages| ==> r[offset + i] == Normalised(h.settingsSitePackages[i], h))
      && forall i :: 0 <= i < |r| ==> '\\' !in r[i]
  {
    var r := ExtraSitePackages(h);
    var offset := if h.projectSitePackagesExists then 2 else 1;
    forall i | 0 <= i < |r| ensures '\\' !in r[i] {
      if i >= offset {
        assert r[i] == Normalised(h.settingsSitePackages[i - offset], h);
      }
    }
  }

  // ---------------------------------------------------------------------
  // Version and probe checks

  /** The in-process engine must report a version that, trimmed, starts with "2.7". */
  function InProcessVersionError(engineVersion: string): Option<CsException>
  {
    if StartsWith(Trim(engineVersion), RequiredVersion) then None
    else Some(Install(EngineVersionWrong(engineVersion)))
  }

  /** The version check passes exactly on a 2.7 engine; otherwise it raises an
      install exception naming the version it saw. */
  lemma InProcessVersionChecks(engineVersion: string)
    ensures var e := InProcessVersionError(engineVersion);
      (e.None? <==> StartsWith(Trim(engineVersion), RequiredVersion))
      && (e.Some? ==> e.value.PythonInstallException? && e.value.reason == EngineVersionWrong(engineVersion))
  {
  }

  /** The client probe: exit code 0 means the client Python finds rpyc. */
  function RpycProbe(p: ProbeSpawn, interpreter: string): Option<CsException>
  {
    match p
    case SpawnReturnsNull =>
      Some(Install(ClientDidNotStart(interpreter)))
    case SpawnExits(code) =>
      if code == 0 then None else Some(Install(ClientLacksRpyc(interpreter)))
    case SpawnThrows(x) =>
      if x.PythonInstallException? then Some(x)
      else Some(PythonInstallException(ClientSpawnThrew(interpreter), Some(x)))
  }

  /** The probe passes only on exit code 0; every failure is an install
      exception, and one raised as such passes through unchanged. */
  lemma RpycProbeOutcomes(p: ProbeSpawn, interpreter: string)
    ensures RpycProbe(p, interpreter).None? <==> p == SpawnExits(0)
    ensures RpycProbe(p, interpreter).Some? ==> RpycProbe(p, interpreter).value.PythonInstallException?
    ensures p.SpawnExits? && p.code != 0 ==>
              RpycProbe(p, interpreter) == Some(Install(ClientLacksRpyc(interpreter)))
    ensures p.SpawnThrows? && p.exception.PythonInstallException? ==> RpycProbe(p, interpreter) == Some(p.exception)
  {
  }

  /** The validation host once the in-process API is initialised: looking up a
      bare name no longer runs that initialisation. */
  function AfterInProcess(v: ValidationHost): ValidationHost
  {
    v.(lookup := v.lookup.(inProcess := None))
  }

  /** The validation of the interpreter setting by the out-of-process
      initialisation, which runs after the in-process one. */
  function ServerValidation(h: RunnerHost): Result<string>
  {
    ValidatePythonInterpreter(Some(h.interpreter), true, h.timeoutMs, AfterInProcess(h.validation))
  }

  /** The checks of the out-of-process initialisation after the in-process
      one: the interpreter validates, the server imports rpyc, the client
      probe passes. */
  function OutOfProcessError(h: RunnerHost): Option<CsException>
  {
    ChecksAfterValidation(ServerValidation(h), h)
  }

  /** The out-of-process initialisation gets as far as giving the server its
      settings: the interpreter validated and the server imports rpyc. */
  predicate ServerConfigured(h: RunnerHost)
  {
    var v := ServerValidation(h);
    v.Returns? && v.value != "" && h.rpycImport.RpycImports?
  }

  /** The client interpreter the server is told: `WhereIs` of the setting. */
  function ClientPython(h: RunnerHost): Option<string>
  {
    WhereIs(Some(h.interpreter), AfterInProcess(h.validation).lookup).value
  }

  /** The same checks, given the outcome of the validation. */
  function ChecksAfterValidation(validation: Result<string>, h: RunnerHost): Option<CsException>
  {
    if validation.Throws? then Some(validation.exception)
    else if validation.value == "" then Some(Install(InterpreterUnusable(h.interpreter)))
    else if h.rpycImport.RpycImportFails? then Some(PythonException(h.rpycImport.message))
    else RpycProbe(h.probe, h.interpreter)
  }

  /** Validation that throws on failure never answers "", so the empty-version
      check of the out-of-process initialisation never fires; the checks pass
      exactly when the interpreter validates, rpyc imports and the probe exits
      with 0. Every failure is an install exception except a failed server-side
      import of rpyc, whose `PythonException` escapes as it is. */
  lemma OutOfProcessChecks(h: RunnerHost)
    ensures OutOfProcessError(h).None? <==>
              ProbeInterpreter(Some(h.interpreter), h.timeoutMs, AfterInProcess(h.validation)).Probed?
              && h.rpycImport.RpycImports? && h.probe == SpawnExits(0)
    ensures OutOfProcessError(h).Some? ==>
              OutOfProcessError(h).value.PythonInstallException?
              || (ServerValidation(h).Returns? && h.rpycImport.RpycImportFails?
                  && OutOfProcessError(h).value == PythonException(h.rpycImport.message))
    ensures ServerValidation(h).Returns? && h.rpycImport.RpycImportFails? ==>
              OutOfProcessError(h) == Some(PythonException(h.rpycImport.message))
  {
    ValidationFailureModes(Some(h.interpreter), h.timeoutMs, AfterInProcess(h.validation));
    RpycProbeOutcomes(h.probe, h.interpreter);
  }

  /** The server is only given an interpreter that validated: the one the
      lookup found, non-empty, whose probe reported a 2.7 version. */
  lemma ServerToldValidatedInterpreter(h: RunnerHost)
    requires ServerConfigured(h)
    ensures ClientPython(h).Some? && ClientPython(h).value != ""
    ensures ClientPython(h).value == Located(Some(h.interpreter), AfterInProcess(h.validation).lookup)
    ensures ProbeInterpreter(Some(h.interpreter), h.timeoutMs, AfterInProcess(h.validation)).Probed?
  {
    var v := AfterInProcess(h.validation);
    ValidationFailureModes(Some(h.interpreter), h.timeoutMs, v);
    ProbeSucceedsExactly(Some(h.interpreter), h.timeoutMs, v);
    WhereIsFinds(Some(h.interpreter), v.lookup);
  }

  /** The 'Install rpyc where the system Python can find it.' exception of the
      server-side check is never raised by it: a missing rpyc makes the import
      itself throw. Only a client probe that throws that very exception, which
      is passed on unchanged, can surface it. */
  lemma ServerRpycCheckNeverFires(h: RunnerHost)
    ensures OutOfProcessError(h) == Some(Install(ServerLacksRpyc)) ==> h.probe == SpawnThrows(Install(ServerLacksRpyc))
  {
    ValidationThrowsOwnReasons(Some(h.interpreter), h.timeoutMs, AfterInProcess(h.validation));
  }

  // ---------------------------------------------------------------------
  // What the initialisations leave behind

  /** The error of `EnsureInProcessInitialized` when its flag was `initialised`. */
  function InProcessError(initialised: bool, h: RunnerHost): Option<CsException>
  {
    if initialised then None else InProcessVersionError(h.engineVersion)
  }

  /** The environment after `EnsureInProcessInitialized`. */
  function EnvironmentAfter(initialised: bool, environment: map<string, string>): map<string, string>
  {
    if initialised then environment else environment["PYTHONDONTWRITEBYTECODE" := "1"]
  }

  /** `sys.path` after `EnsureInProcessInitialized`. */
  function SysPathAfter(initialised: bool, sysPath: seq<string>, h: RunnerHost): seq<string>
  {
    if !initialised && InProcessVersionError(h.engineVersion).None? then ExtraSitePackages(h) + sysPath else sysPath
  }

  /** The error of `EnsureOutOfProcessInitialized` given both flags. */
  function OutOfProcessSetupError(inInitialised: bool, outInitialised: bool, h: RunnerHost): Option<CsException>
  {
    if outInitialised then None
    else if InProcessError(inInitialised, h).Some? then InProcessError(inInitialised, h)
    else OutOfProcessError(h)
  }

  /** Whether `EnsureOutOfProcessInitialized` gives the server new settings. */
  predicate ConfiguresServer(inInitialised: bool, outInitialised: bool, h: RunnerHost)
  {
    !outInitialised && InProcessError(inInitialised, h).None? && ServerConfigured(h)
  }

  /** The part of the runner's state that the initialisations change. */
  datatype SetUp = SetUp(
    inProcessInitialized: bool,
    environment: map<string, string>,
    sysPath: seq<string>,
    serverPythonExecutable: Option<string>,
    serverExtraSitePackages: seq<string>)

  /** That part after `EnsureOutOfProcessInitialized`, from the part before and
      the out-of-process flag before. */
  function SetUpAfter(s: SetUp, outInitialised: bool, h: RunnerHost): SetUp
  {
    var configures := ConfiguresServer(s.inProcessInitialized, outInitialised, h);
    SetUp(s.inProcessInitialized || InProcessError(s.inProcessInitialized, h).None?,
          EnvironmentAfter(s.inProcessInitialized, s.environment),
          SysPathAfter(s.inProcessInitialized, s.sysPath, h),
          if configures then ClientPython(h) else s.serverPythonExecutable,
          if configures then ExtraSitePackages(h) else s.serverExtraSitePackages)
  }

  /** Once both APIs are initialised, the out-of-process initialisation
      changes nothing. */
  lemma SetUpAfterInitialised(s: SetUp, h: RunnerHost)
    requires s.inProcessInitialized
    ensures SetUpAfter(s, true, h) == s
  {
  }

  /** A successful out-of-process initialisation has the in-process API
      initialised and the server told the validated client interpreter and
      the extra site-packages; an initialisation that stops at the in-process
      set-up leaves the server's settings alone. */
  lemma SetUpAfterSuccess(s: SetUp, h: RunnerHost)
    ensures OutOfProcessSetupError(s.inProcessInitialized, false, h).None? ==>
              var t := SetUpAfter(s, false, h);
              t.inProcessInitialized && t.serverPythonExecutable == ClientPython(h)
              && t.serverExtraSitePackages == ExtraSitePackages(h)
              && PathText(ClientPython(h)) != ""
    ensures InProcessError(s.inProcessInitialized, h).Some? ==>
              var t := SetUpAfter(s, false, h);
              !t.inProcessInitialized && t.serverPythonExecutable == s.serverPythonExecutable
              && t.serverExtraSitePackages == s.serverExtraSitePackages && t.sysPath == s.sysPath
  {
    if OutOfProcessSetupError(s.inProcessInitialized, false, h).None? {
      assert OutOfProcessError(h).None?;
      ValidationFailureModes(Some(h.interpreter), h.timeoutMs, AfterInProcess(h.validation));
      assert ServerConfigured(h);
      ServerToldValidatedInterpreter(h);
    }
  }

  /** The in-process set-up runs at most once: the site-packages are put ahead
      of `sys.path` by the first successful call, and a later call adds
      nothing. */
  lemma InProcessAtMostOnce(sysPath: seq<string>, environment: map<string, string>, h: RunnerHost)
    ensures InProcessError(false, h).None? ==>
              SysPathAfter(true, SysPathAfter(false, sysPath, h), h) == ExtraSitePackages(h) + sysPath
    ensures InProcessError(false, h).Some? ==> SysPathAfter(false, sysPath, h) == sysPath
    ensures EnvironmentAfter(true, EnvironmentAfter(false, environment))["PYTHONDONTWRITEBYTECODE"] == "1"
  {
  }

  /** The out-of-process set-up succeeds exactly when it had already, or the
      in-process set-up has run or finds a 2.7 engine and every out-of-process
      check passes; each failure is an install exception. */
  lemma OutOfProcessSetupChecks(inInitialised: bool, outInitialised: bool, h: RunnerHost)
    ensures OutOfProcessSetupError(inInitialised, outInitialised, h).None? <==>
              outInitialised
              || ((inInitialised || StartsWith(Trim(h.engineVersion), RequiredVersion))
                  && ProbeInterpreter(Some(h.interpreter), h.timeoutMs, AfterInProcess(h.validation)).Probed?
                  && h.rpycImport.RpycImports? && h.probe == SpawnExits(0))
    ensures OutOfProcessSetupError(inInitialised, outInitialised, h).Some? ==>
              OutOfProcessSetupError(inInitialised, outInitialised, h).value.PythonInstallException?
              || (h.rpycImport.RpycImportFails?
                  && OutOfProcessSetupError(inInitialised, outInitialised, h).value == PythonException(h.rpycImport.message))
  {
    InProcessVersionChecks(h.engineVersion);
    OutOfProcessChecks(h);
  }

  // ---------------------------------------------------------------------
  // Code strings

  /** The argument `StartServer` embeds: `None`, or the path quoted with
      forward slashes. */
  function ClientInitArgument(clientInitModulePath: Option<string>): string
  {
    if clientInitModulePath.None? then "None" else "'" + ForwardSlashes(clientInitModulePath.value) + "'"
  }

  function StartServerCode(clientInitModulePath: Option<string>): string
  {
    ImportServerString + "\n" + "unity_server.start(" + ClientInitArgument(clientInitModulePath) + ")\n"
  }

  function StopServerCode(terminateClient: bool): string
  {
    ImportServerString + "unity_server.stop(" + (if terminateClient then "True" else "False") + ")"
  }

  const DefaultServiceArgs := "None"

  function CallServiceCode(serviceName: string, pythonArgs: string): string
  {
    ImportServerString + "unity_server.call_remote_service(" + serviceName + "," + pythonArgs + ")"
  }

  function RunFileCode(path: string): string
  {
    "execfile('" + path + "')"
  }

  function RunFileOnClientCode(path: string): string
  {
    ImportServerString + "unity_server.run_python_file_on_client('" + path + "')"
  }

  /** Equal strings with the same frame have the same middle. */
  lemma SameFrameSameMiddle(prefix: string, m: string, n: string, suffix: string)
    requires prefix + m + suffix == prefix + n + suffix
    ensures m == n
  {
    var s := prefix + m + suffix;
    assert |m| == |n|;
    assert s[|prefix|..|prefix| + |m|] == m;
    assert (prefix + n + suffix)[|prefix|..|prefix| + |n|] == n;
  }

  /** The server start code determines the argument it embeds; in particular
      no path gives the same code as none. */
  lemma StartServerCodeDeterminesArgument(a: Option<string>, b: Option<string>)
    ensures StartServerCode(a) == StartServerCode(b) <==> ClientInitArgument(a) == ClientInitArgument(b)
    ensures a.None? && b.Some? ==> StartServerCode(a) != StartServerCode(b)
  {
    var prefix := ImportServerString + "\n" + "unity_server.start(";
    assert StartServerCode(a) == prefix + ClientInitArgument(a) + ")\n";
    assert StartServerCode(b) == prefix + ClientInitArgument(b) + ")\n";
    if StartServerCode(a) == StartServerCode(b) {
      SameFrameSameMiddle(prefix, ClientInitArgument(a), ClientInitArgument(b), ")\n");
    }
    if a.None? && b.Some? {
      assert ClientInitArgument(a)[0] != ClientInitArgument(b)[0];
    }
  }

  /** Stopping with and without terminating the client gives different code. */
  lemma StopServerCodeDistinguishes()
    ensures StopServerCode(true) != StopServerCode(false)
  {
    var prefix := ImportServerString + "unity_server.stop(";
    assert StopServerCode(true) == prefix + "True" + ")";
    assert StopServerCode(false) == prefix + "False" + ")";
    assert |StopServerCode(true)| != |StopServerCode(false)|;
  }

  /** The service name and arguments are embedded verbatim, so a comma inside
      either is indistinguishable from the one separating them. */
  lemma CallServiceCodeIsVerbatim(serviceName: string, pythonArgs: string)
    ensures var code := CallServiceCode(serviceName, pythonArgs);
      StartsWith(code, ImportServerString + "unity_server.call_remote_service(")
      && EndsWith(code, pythonArgs + ")")
    ensures CallServiceCode("a,b", "c") == CallServiceCode("a", "b,c")
  {
    var code := CallServiceCode(serviceName, pythonArgs);
    var prefix := ImportServerString + "unity_server.call_remote_service(";
    assert code == prefix + (serviceName + "," + pythonArgs + ")");
    assert code[..|prefix|] == prefix;
    assert code == (prefix + serviceName + ",") + (pythonArgs + ")");
    assert ImportServerString + "unity_server.call_remote_service(" + "a,b" + "," + "c" + ")"
        == ImportServerString + "unity_server.call_remote_service(" + "a" + "," + "b,c" + ")";
  }

  /** The checks on a script path: null throws, the path is given forward
      slashes, and a file that does not exist under that path throws. */
  function CheckScriptPath(path: Option<string>, fileExists: string -> bool): Result<string>
  {
    if path.None? then Throws(ArgumentNullException("pythonFileToExecute", "Invalid (null) file path"))
    else
      var p := ForwardSlashes(path.value);
      if !fileExists(p) then Throws(FileNotFoundException("No Python file found at " + p, p))
      else Returns(p)
  }

  /** A script path is accepted exactly when it is not null and the file exists
      under its forward-slash form, which is what gets run. */
  lemma CheckScriptPathOutcomes(path: Option<string>, fileExists: string -> bool)
    ensures CheckScriptPath(path, fileExists).Returns? <==> path.Some? && fileExists(ForwardSlashes(path.value))
    ensures CheckScriptPath(path, fileExists).Returns? ==>
              CheckScriptPath(path, fileExists).value == ForwardSlashes(path.value)
              && '\\' !in CheckScriptPath(path, fileExists).value
    ensures path.None? ==> CheckScriptPath(path, fileExists).exception.ArgumentNullException?
    ensures path.Some? && !fileExists(ForwardSlashes(path.value)) ==>
              CheckScriptPath(path, fileExists).exception
              == FileNotFoundException("No Python file found at " + ForwardSlashes(path.value), ForwardSlashes(path.value))
  {
  }

  // ---------------------------------------------------------------------
  // The runner's static state

  class Runner {
    var inProcessInitialized: bool
    var outOfProcessInitialized: bool
    var environment: map<string, string>
    var sysPath: seq<string>
    var serverPythonExecutable: Option<string>
    var serverExtraSitePackages: seq<string>
    var executed: seq<string>

    /** The out-of-process API is only ever initialised on top of the in-process one. */
    ghost predicate Valid()
      reads this`inProcessInitialized, this`outOfProcessInitialized
    {
      outOfProcessInitialized ==> inProcessInitialized
    }

    constructor (sysPath: seq<string>)
      ensures Valid() && !inProcessInitialized && !outOfProcessInitialized
      ensures this.sysPath == sysPath && environment == map[] && executed == []
      ensures serverPythonExecutable == None && serverExtraSitePackages == []
    {
      inProcessInitialized := false;
      outOfProcessInitialized := false;
      environment := map[];
      this.sysPath := sysPath;
      serverPythonExecutable := None;
      serverExtraSitePackages := [];
      executed := [];
    }

    /** The part of the state the initialisations change. */
    function Current(): SetUp
      reads this`inProcessInitialized, this`environment, this`sysPath
      reads this`serverPythonExecutable, this`serverExtraSitePackages
    {
      SetUp(inProcessInitialized, environment, sysPath, serverPythonExecutable, serverExtraSitePackages)
    }

    /** `EnsureInProcessInitialized`: once set, a no-op; otherwise the work
        is done and only then is the flag set. */
    method EnsureInProcessInitialized(h: RunnerHost) returns (error: Option<CsException>)
      requires Valid()
      modifies this`inProcessInitialized, this`environment, this`sysPath
      ensures Valid()
      ensures error == InProcessError(old(inProcessInitialized), h)
      ensures inProcessInitialized == (old(inProcessInitialized) || error.None?)
      ensures environment == EnvironmentAfter(old(inProcessInitialized), old(environment))
      ensures sysPath == SysPathAfter(old(inProcessInitialized), old(sysPath), h)
    {
      if inProcessInitialized {
        return None;
      }
      error := DoEnsureInProcessInitialized(h);
      assert outOfProcessInitialized == old(outOfProcessInitialized) && !inProcessInitialized;
      if error.None? {
        inProcessInitialized := true;
      }
    }

    /** `DoEnsureInProcessInitialized`: PYTHONDONTWRITEBYTECODE is set, the
        engine's version is checked, and only a right version has the
        site-packages put ahead of `sys.path`. */
    method DoEnsureInProcessInitialized(h: RunnerHost) returns (error: Option<CsException>)
      modifies this`environment, this`sysPath
      ensures error == InProcessVersionError(h.engineVersion)
      ensures environment == old(environment)["PYTHONDONTWRITEBYTECODE" := "1"]
      ensures sysPath == (if error.None? then ExtraSitePackages(h) + old(sysPath) else old(sysPath))
    {
      environment := environment["PYTHONDONTWRITEBYTECODE" := "1"];
      error := InProcessVersionError(h.engineVersion);
      if error.None? {
        var sitePackages := GetExtraSitePackages(h);
        sysPath := sitePackages + sysPath;
      }
    }

    /** `EnsureOutOfProcessInitialized`: once set, a no-op; otherwise the work
        is done and only then is the flag set. */
    method EnsureOutOfProcessInitialized(h: RunnerHost) returns (error: Option<CsException>)
      requires Valid()
      modifies this`inProcessInitialized, this`outOfProcessInitialized, this`environment, this`sysPath
      modifies this`serverPythonExecutable, this`serverExtraSitePackages
      ensures Valid()
      ensures error == OutOfProcessSetupError(old(inProcessInitialized), old(outOfProcessInitialized), h)
      ensures outOfProcessInitialized == (old(outOfProcessInitialized) || error.None?)
      ensures Current() == SetUpAfter(old(Current()), old(outOfProcessInitialized), h)
    {
      if outOfProcessInitialized {
        SetUpAfterInitialised(Current(), h);
        return None;
      }
      error := DoEnsureOutOfProcessInitialized(h);
      if error.None? {
        outOfProcessInitialized := true;
      }
    }

    /** `DoEnsureOutOfProcessInitialized`: the in-process API first, then the
        interpreter is validated and the rest of the checks and the server's
        settings follow. */
    method DoEnsureOutOfProcessInitialized(h: RunnerHost) returns (error: Option<CsException>)
      requires Valid()
      modifies this`inProcessInitialized, this`environment, this`sysPath
      modifies this`serverPythonExecutable, this`serverExtraSitePackages
      ensures Valid()
      ensures error == OutOfProcessSetupError(old(inProcessInitialized), false, h)
      ensures Current() == SetUpAfter(old(Current()), false, h)
    {
      error := EnsureInProcessInitialized(h);
      if error.None? {
        error := ConfigureServer(h);
      }
    }

    /** The part of `DoEnsureOutOfProcessInitialized` after the in-process
        initialisation: the interpreter is validated; a failed validation, then
        a failed import of rpyc on the server side, is an error (the module an
        import returns is always truthy, so the source's `!rpyc.IsTrue()`
        branch never runs); otherwise the server is told the
        client's interpreter and site-packages and the client probe decides. */
    method ConfigureServer(h: RunnerHost) returns (error: Option<CsException>)
      modifies this`serverPythonExecutable, this`serverExtraSitePackages
      ensures error == OutOfProcessError(h)
      ensures if ServerConfigured(h) then
                serverPythonExecutable == ClientPython(h) && serverExtraSitePackages == ExtraSitePackages(h)
              else
                serverPythonExecutable == old(serverPythonExecutable)
                && serverExtraSitePackages == old(serverExtraSitePackages)
    {
      var validation := ServerValidation(h);
      if validation.Throws? {
        return Some(validation.exception);
      }
      if validation.value == "" {
        return Some(Install(InterpreterUnusable(h.interpreter)));
      }
      if h.rpycImport.RpycImportFails? {
        return Some(PythonException(h.rpycImport.message));
      }
      serverPythonExecutable := ClientPython(h);
      serverExtraSitePackages := GetExtraSitePackages(h);
      error := RpycProbe(h.probe, h.interpreter);
    }

    /** `RunString`: the code runs once the in-process API is initialised. */
    method RunString(code: string, h: RunnerHost) returns (error: Option<CsException>)
      requires Valid()
      modifies this`inProcessInitialized, this`environment, this`sysPath, this`executed
      ensures Valid()
      ensures error == InProcessError(old(inProcessInitialized), h)
      ensures inProcessInitialized == (old(inProcessInitialized) || error.None?)
      ensures environment == EnvironmentAfter(old(inProcessInitialized), old(environment))
      ensures sysPath == SysPathAfter(old(inProcessInitialized), old(sysPath), h)
      ensures executed == old(executed) + (if error.None? then [code] else [])
    {
      error := EnsureInProcessInitialized(h);
      if error.None? {
        executed := executed + [code];
      }
    }

    /** `RunFile`: initialise, check the path, then `execfile` it. */
    method RunFile(path: Option<string>, h: RunnerHost) returns (error: Option<CsException>)
      requires Valid()
      modifies this`inProcessInitialized, this`environment, this`sysPath, this`executed
      ensures Valid()
      ensures var inError := InProcessError(old(inProcessInitialized), h);
        var check := CheckScriptPath(path, h.fileExists);
        error == (if inError.Some? then inError else if check.Throws? then Some(check.exception) else None)
        && executed == old(executed) + (if error.None? then [RunFileCode(check.value)] else [])
      ensures inProcessInitialized == (old(inProcessInitialized) || InProcessError(old(inProcessInitialized), h).None?)
      ensures environment == EnvironmentAfter(old(inProcessInitialized), old(environment))
      ensures sysPath == SysPathAfter(old(inProcessInitialized), old(sysPath), h)
    {
      error := EnsureInProcessInitialized(h);
      if error.Some? {
        return;
      }
      var check := CheckScriptPath(path, h.fileExists);
      if check.Throws? {
        return Some(check.exception);
      }
      executed := executed + [RunFileCode(check.value)];
    }

    /** `RunFileOnClient`: initialise out of process, check the path, then ask
        the server to run it on the client. */
    method RunFileOnClient(path: Option<string>, h: RunnerHost) returns (error: Option<CsException>)
      requires Valid()
      modifies this`inProcessInitialized, this`outOfProcessInitialized, this`environment, this`sysPath
      modifies this`serverPythonExecutable, this`serverExtraSitePackages, this`executed
      ensures Valid()
      ensures var setup := OutOfProcessSetupError(old(inProcessInitialized), old(outOfProcessInitialized), h);
        var check := CheckScriptPath(path, h.fileExists);
        error == (if setup.Some? then setup else if check.Throws? then Some(check.exception) else None)
        && executed == old(executed) + (if error.None? then [RunFileOnClientCode(check.value)] else [])
        && outOfProcessInitialized == (old(outOfProcessInitialized) || setup.None?)
      ensures Current() == SetUpAfter(old(Current()), old(outOfProcessInitialized), h)
    {
      error := EnsureOutOfProcessInitialized(h);
      if error.Some? {
        return;
      }
      var check := CheckScriptPath(path, h.fileExists);
      if check.Throws? {
        return Some(check.exception);
      }
      error := RunString(RunFileOnClientCode(check.value), h);
    }

    /** `StartServer`. */
    method StartServer(clientInitModulePath: Option<string>, h: RunnerHost) returns (error: Option<CsException>)
      requires Valid()
      modifies this`inProcessInitialized, this`outOfProcessInitialized, this`environment, this`sysPath
      modifies this`serverPythonExecutable, this`serverExtraSitePackages, this`executed
      ensures Valid()
      ensures error == OutOfProcessSetupError(old(inProcessInitialized), old(outOfProcessInitialized), h)
      ensures outOfProcessInitialized == (old(outOfProcessInitialized) || error.None?)
      ensures executed == old(executed) + (if error.None? then [StartServerCode(clientInitModulePath)] else [])
      ensures Current() == SetUpAfter(old(Current()), old(outOfProcessInitialized), h)
    {
      error := EnsureOutOfProcessInitialized(h);
      if error.Some? {
        return;
      }
      error := RunString(StartServerCode(clientInitModulePath), h);
    }

    /** `StopServer`. */
    method StopServer(terminateClient: bool, h: RunnerHost) returns (error: Option<CsException>)
      requires Valid()
      modifies this`inProcessInitialized, this`outOfProcessInitialized, this`environment, this`sysPath
      modifies this`serverPythonExecutable, this`serverExtraSitePackages, this`executed
      ensures Valid()
      ensures error == OutOfProcessSetupError(old(inProcessInitialized), old(outOfProcessInitialized), h)
      ensures outOfProcessInitialized == (old(outOfProcessInitialized) || error.None?)
      ensures executed == old(executed) + (if error.None? then [StopServerCode(terminateClient)] else [])
      ensures Current() == SetUpAfter(old(Current()), old(outOfProcessInitialized), h)
    {
      error := EnsureOutOfProcessInitialized(h);
      if error.Some? {
        return;
      }
      error := RunString(StopServerCode(terminateClient), h);
    }

    /** `CallServiceOnClient` (the arguments default to `DefaultServiceArgs`). */
    method CallServiceOnClient(serviceName: string, pythonArgs: string, h: RunnerHost) returns (error: Option<CsException>)
      requires Valid()
      modifies this`inProcessInitialized, this`outOfProcessInitialized, this`environment, this`sysPath
      modifies this`serverPythonExecutable, this`serverExtraSitePackages, this`executed
      ensures Valid()
      ensures error == OutOfProcessSetupError(old(inProcessInitialized), old(outOfProcessInitialized), h)
      ensures outOfProcessInitialized == (old(outOfProcessInitialized) || error.None?)
      ensures executed == old(executed) + (if error.None? then [CallServiceCode(serviceName, pythonArgs)] else [])
      ensures Current() == SetUpAfter(old(Current()), old(outOfProcessInitialized), h)
    {
      error := EnsureOutOfProcessInitialized(h);
      if error.Some? {
        return;
      }
      error := RunString(CallServiceCode(serviceName, pythonArgs), h);
    }
  }
}
