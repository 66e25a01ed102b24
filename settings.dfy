/** The Python settings of the Unity scripting package
    (`resource/packages/com.unity.scripting.python/Editor/PythonSettingsEditor.cs`):
    the interpreter setting and its platform default, the copied list of
    site-packages, the executable lookup `WhereIs`, the validation of an
    interpreter by running it, the memoised setter of the settings editor and
    the short form of a version string. The environment, the file system and
    the spawned process are inputs. C# `null` strings are `None`. */
module PythonSettingsEditor {
  import opened Text

  /** `PythonRunner.PythonRequiredVersion`. */
  const RequiredVersion := "2.7"

  /** The interpreter used when none is set: `python.exe` on Windows,
      `python2.7` elsewhere. */
  function DefaultPython(windows: bool): string
  {
    if windows then "python.exe" else "python2.7"
  }

  /** `string.IsNullOrEmpty`. */
  predicate IsNullOrEmpty(s: Option<string>)
  {
    s.None? || s.value == ""
  }

  /** Why a `PythonInstallException` is thrown: the validation of an
      interpreter (the first six) and the initialisation of the runner (the
      rest). `InstallText` gives the base message each one carries. */
  datatype InstallReason =
    | SettingEmpty
    | NotAnExecutable(path: string)
    | TookTooLong(python: string)
    | NonZeroExit(python: string, code: int)
    | WrongVersion(python: string, version: string)
    | LookupThrew(path: string)
    | EngineVersionWrong(engineVersion: string)
    | InterpreterUnusable(interpreter: string)
    | ServerLacksRpyc
    | ClientDidNotStart(interpreter: string)
    | ClientLacksRpyc(interpreter: string)
    | ClientSpawnThrew(interpreter: string)

  /** The base message of each reason. */
  function InstallText(r: InstallReason): string
  {
    match r
    case SettingEmpty => "Python setting was empty; this should never happen."
    case NotAnExecutable(path) =>
      path + " does not seem to be an executable file. Make sure the path is exactly accurate."
    case TookTooLong(python) =>
      python + " took too long to run; either it's not Python, or increase the Python timeout in the Python settings."
    case NonZeroExit(python, code) =>
      python + " acts like it isn't actually Python: it failed with exit code " + IntToString(code) + "."
    case WrongVersion(python, version) =>
      python + " should be version " + RequiredVersion + " but instead calls itself " + version
    case LookupThrew(path) => "Looking for '" + path + "' threw an exception"
    case EngineVersionWrong(engineVersion) =>
      "Python " + RequiredVersion + " is required but your system Python is " + engineVersion + "."
    case InterpreterUnusable(interpreter) =>
      "Check the Python Settings and verify the Python Interpreter points to a valid Python "
      + RequiredVersion + " installation.\nPython Interpreter is currently '" + interpreter + "'"
    case ServerLacksRpyc => "Install rpyc where the system Python can find it."
    case ClientDidNotStart(interpreter) => "Check the prior log; unable to run client Python '" + interpreter + "'."
    case ClientLacksRpyc(interpreter) => "Please install rpyc in " + interpreter
    case ClientSpawnThrew(interpreter) =>
      "Check your Python Net settings; unable to run client Python '" + interpreter + "'."
  }

  /** The exceptions the package throws. A `PythonInstallException` keeps its
      reason and, when it wraps another exception, that one. */
  datatype CsException =
    | PythonInstallException(reason: InstallReason, inner: Option<CsException>)
    | ArgumentNullException(paramName: string, message: string)
    | FileNotFoundException(message: string, fileName: string)
    | OtherException(message: string)
    | PythonException(message: string)     // Python.NET: an error raised in Python

  const TroubleshootingHint := "\nPlease check the Python Net package documentation for the install troubleshooting instructions."

  const PythonNetPrefix := "Python Net: "

  /** `Exception.Message`; a `PythonInstallException` decorates its base message. */
  function Message(x: CsException): (m: string)
    ensures x.PythonInstallException? ==>
              StartsWith(m, PythonNetPrefix) && EndsWith(m, TroubleshootingHint)
              && |m| == |PythonNetPrefix| + |InstallText(x.reason)| + |TroubleshootingHint|
              && m[|PythonNetPrefix|..|m| - |TroubleshootingHint|] == InstallText(x.reason)
  {
    match x
    case PythonInstallException(reason, _) =>
      Enclosed(PythonNetPrefix, InstallText(reason), TroubleshootingHint);
      PythonNetPrefix + InstallText(reason) + TroubleshootingHint
    case ArgumentNullException(_, message) => message
    case FileNotFoundException(message, _) => message
    case OtherException(message) => message
    case PythonException(message) => message
  }

  // ---------------------------------------------------------------------
  // The settings asset

  class PythonSettings {
    /** Whether the editor is built for Windows (`UNITY_EDITOR_WIN`). */
    const windows: bool
    var interpreter: Option<string>
    var timeoutMs: int
    var sitePackages: array?<string>

    /** A fresh asset with the serialised defaults. */
    constructor (windows: bool)
      ensures this.windows == windows && interpreter == None && timeoutMs == 1000 && sitePackages == null
    {
      this.windows := windows;
      interpreter := None;
      timeoutMs := 1000;
      sitePackages := null;
    }

    /** `PythonInterpreter`: the setting, or the platform default when it is
        null or empty. */
    function PythonInterpreter(): (r: string)
      reads this
      ensures r != ""
      ensures IsNullOrEmpty(interpreter) ==> r == DefaultPython(windows)
      ensures !IsNullOrEmpty(interpreter) ==> Some(r) == interpreter
    {
      if IsNullOrEmpty(interpreter) then DefaultPython(windows) else interpreter.value
    }

    /** `SitePackages`: an empty array when unset, otherwise a new array with
        the same entries, so callers cannot change the setting through it. */
    method SitePackages() returns (r: array<string>)
      ensures fresh(r)
      ensures sitePackages == null ==> r.Length == 0
      ensures sitePackages != null ==> r[..] == sitePackages[..]
    {
      if sitePackages == null {
        r := new string[0];
        return;
      }
      r := new string[sitePackages.Length];
      var i := 0;
      while i < sitePackages.Length
        invariant 0 <= i <= sitePackages.Length
        invariant r[..i] == sitePackages[..i]
      {
        r[i] := sitePackages[i];
        assert r[..i + 1] == r[..i] + [r[i]];
        assert sitePackages[..i + 1] == sitePackages[..i] + [sitePackages[i]];
        i := i + 1;
      }
      assert r[..] == r[..i];
      assert sitePackages[..] == sitePackages[..i];
    }
  }

  // ---------------------------------------------------------------------
  // Finding an executable

  /** What a C# call returns, or the exception it throws. */
  datatype Result<T> = Returns(value: T) | Throws(exception: CsException)

  function PathText(s: Option<string>): string
  {
    if s.None? then "" else s.value
  }

  /** What `WhereIs` reads: the platform, `HOME`, `Path.GetFullPath`,
      `File.Exists`, the search of the PATH (`unity_shutil.which`), and what
      `PythonRunner.EnsureInProcessInitialized` throws when the search makes
      it run (None when it succeeds or has already run). */
  datatype LookupHost = LookupHost(
    windows: bool,
    home: Option<string>,
    fullPath: string -> string,
    fileExists: string -> bool,
    which: string -> Option<string>,
    inProcess: Option<CsException>)

  /** A leading '~' stands for a non-empty `HOME` on platforms other than Windows. */
  function ExpandHome(exe: string, h: LookupHost): string
  {
    if !h.windows && exe != [] && exe[0] == '~' && !IsNullOrEmpty(h.home) then h.home.value + "/" + exe[1..]
    else exe
  }

  predicate HasSeparator(s: string)
  {
    '/' in s || '\\' in s
  }

  /** `WhereIs`: null or empty input is returned as is; a name with a
      separator is made absolute and kept only if the file exists; any other
      name is searched for on the PATH, after the in-process initialisation
      that search needs. "" means not found. */
  function WhereIs(exe: Option<string>, h: LookupHost): (r: Result<Option<string>>)
    ensures h.inProcess.None? ==> r.Returns?
    ensures r.Throws? ==> h.inProcess == Some(r.exception)
  {
    if IsNullOrEmpty(exe) then Returns(exe)
    else
      var e := ExpandHome(exe.value, h);
      if HasSeparator(e) then
        var full := h.fullPath(e);
        Returns(Some(if h.fileExists(full) then full else ""))
      else if h.inProcess.Some? then Throws(h.inProcess.value)
      else Returns(Some(match h.which(e) case None => "" case Some(p) => p))
  }

  /** The executable `WhereIs` located, "" when it threw. */
  function Located(exe: Option<string>, h: LookupHost): string
  {
    match WhereIs(exe, h)
    case Returns(found) => PathText(found)
    case Throws(_) => ""
  }

  /** What `WhereIs` answers means. Null or empty comes back unchanged, any
      other name as a string. A name with a separator never reaches Python: a
      non-empty answer is the full path of the expanded name and the file
      exists, and a missing file gives "". A bare name throws exactly when the
      in-process initialisation does, with its exception; otherwise a
      non-empty answer is what the PATH search found, and "" means it found
      nothing. */
  lemma WhereIsFinds(exe: Option<string>, h: LookupHost)
    ensures IsNullOrEmpty(exe) ==> WhereIs(exe, h) == Returns(exe)
    ensures !IsNullOrEmpty(exe) && WhereIs(exe, h).Returns? ==> WhereIs(exe, h).value.Some?
    ensures !IsNullOrEmpty(exe) && HasSeparator(ExpandHome(exe.value, h)) ==>
              var full := h.fullPath(ExpandHome(exe.value, h));
              WhereIs(exe, h).Returns?
              && (Located(exe, h) != "" ==> Located(exe, h) == full && h.fileExists(full))
              && (!h.fileExists(full) ==> Located(exe, h) == "")
    ensures !IsNullOrEmpty(exe) && !HasSeparator(ExpandHome(exe.value, h)) ==>
              var found := h.which(ExpandHome(exe.value, h));
              (WhereIs(exe, h).Throws? <==> h.inProcess.Some?)
              && (WhereIs(exe, h).Returns? && Located(exe, h) != "" ==> found == Some(Located(exe, h)))
              && (h.inProcess.None? && found.None? ==> WhereIs(exe, h) == Returns(Some("")))
  {
  }

  /** Home expansion happens only for '~' off Windows with a non-empty HOME,
      and puts HOME and a separator in place of the '~'. */
  lemma ExpandHomeShape(exe: string, h: LookupHost)
    ensures ExpandHome(exe, h) != exe ==>
              !h.windows && exe != [] && exe[0] == '~' && !IsNullOrEmpty(h.home)
              && ExpandHome(exe, h) == h.home.value + "/" + exe[1..]
    ensures !h.windows && exe != [] && exe[0] == '~' && !IsNullOrEmpty(h.home) ==>
              HasSeparator(ExpandHome(exe, h)) && StartsWith(ExpandHome(exe, h), h.home.value)
    ensures h.windows ==> ExpandHome(exe, h) == exe
  {
    if !h.windows && exe != [] && exe[0] == '~' && !IsNullOrEmpty(h.home) {
      var e := h.home.value + "/" + exe[1..];
      assert e[|h.home.value|] == '/';
      assert e[..|h.home.value|] == h.home.value;
    }
  }

  // ---------------------------------------------------------------------
  // Validating an interpreter

  /** What running `python -c "import sys; print(sys.version)"` does: the start
      throws, the wait times out, or the process exits with a code, having
      written `output`: the lines of its standard output joined with no
      newline between them, as `output.Append(args.Data)` collects them, so a
      multi-line answer reaches the version test as one line. */
  datatype RunOutcome = StartThrows(message: string) | TimedOut | Exited(code: int, output: string)

  /** What validation reads: the lookup and the process run (given the timeout). */
  datatype ValidationHost = ValidationHost(lookup: LookupHost, run: (string, int) -> RunOutcome)

  /** The body of the `try` of `ValidatePythonInterpreter`: the version the
      interpreter reports, or the exception that leaves it. */
  datatype Probe = Probed(version: string) | ProbeThrows(exception: CsException)

  function Install(reason: InstallReason): CsException
  {
    PythonInstallException(reason, None)
  }

  function ProbeInterpreter(path: Option<string>, timeoutMs: int, h: ValidationHost): Probe
  {
    if IsNullOrEmpty(path) then ProbeThrows(Install(SettingEmpty))
    else match WhereIs(path, h.lookup)
      case Throws(x) => ProbeThrows(x)
      case Returns(found) =>
        var python := PathText(found);
        if python == "" then
          ProbeThrows(Install(NotAnExecutable(path.value)))
        else match h.run(python, timeoutMs)
          case StartThrows(message) => ProbeThrows(OtherException(message))
          case TimedOut =>
            ProbeThrows(Install(TookTooLong(python)))
          case Exited(code, output) =>
            if code != 0 then
              ProbeThrows(Install(NonZeroExit(python, code)))
            else
              var version := Trim(output);
              if !StartsWith(version, RequiredVersion) then
                ProbeThrows(Install(WrongVersion(python, version)))
              else Probed(version)
  }

  /** `ValidatePythonInterpreter(path, throwErrors)`: the reported version; on
      failure "" or, with `throwErrors`, the exception (an install exception
      unchanged, anything else wrapped in one). */
  function ValidatePythonInterpreter(path: Option<string>, throwErrors: bool, timeoutMs: int, h: ValidationHost): Result<string>
  {
    match ProbeInterpreter(path, timeoutMs, h)
    case Probed(version) => Returns(version)
    case ProbeThrows(x) =>
      if !throwErrors then Returns("")
      else if x.PythonInstallException? then Throws(x)
      else Throws(PythonInstallException(LookupThrew(PathText(path)), Some(x)))
  }

  /** The probe yields a version exactly when the interpreter is found, runs
      within the timeout, exits with 0 and reports a version that, trimmed,
      starts with "2.7"; that version is the trimmed output. A lookup that
      throws (the in-process initialisation of a bare name) ends the probe
      with its exception. */
  lemma ProbeSucceedsExactly(path: Option<string>, timeoutMs: int, h: ValidationHost)
    ensures var p := ProbeInterpreter(path, timeoutMs, h);
      var python := Located(path, h.lookup);
      (p.Probed? <==>
         !IsNullOrEmpty(path) && python != "" && h.run(python, timeoutMs).Exited?
         && h.run(python, timeoutMs).code == 0 && StartsWith(Trim(h.run(python, timeoutMs).output), RequiredVersion))
      && (p.Probed? ==> p.version == Trim(h.run(python, timeoutMs).output) && p.version != "")
      && (!IsNullOrEmpty(path) && WhereIs(path, h.lookup).Throws? ==>
            p == ProbeThrows(WhereIs(path, h.lookup).exception))
  {
    var p := ProbeInterpreter(path, timeoutMs, h);
    if p.Probed? {
      assert !IsNullOrEmpty(path);
      var python := Located(path, h.lookup);
      assert python != "";
      var outcome := h.run(python, timeoutMs);
      assert outcome.Exited? && outcome.code == 0;
      assert StartsWith(p.version, RequiredVersion);
      assert |p.version| >= |RequiredVersion|;
    }
  }

  /** Validation succeeds (answers a non-empty version) exactly when the probe
      does, and then answers the trimmed version. */
  lemma ValidationAcceptsOnlyRequiredVersion(path: Option<string>, throwErrors: bool, timeoutMs: int, h: ValidationHost)
    ensures var r := ValidatePythonInterpreter(path, throwErrors, timeoutMs, h);
      var python := Located(path, h.lookup);
      ((r.Returns? && r.value != "") <==>
         !IsNullOrEmpty(path) && python != "" && h.run(python, timeoutMs).Exited?
         && h.run(python, timeoutMs).code == 0 && StartsWith(Trim(h.run(python, timeoutMs).output), RequiredVersion))
      && (r.Returns? && r.value != "" ==> r.value == Trim(h.run(python, timeoutMs).output))
  {
    ProbeSucceedsExactly(path, timeoutMs, h);
    var p := ProbeInterpreter(path, timeoutMs, h);
    var r := ValidatePythonInterpreter(path, throwErrors, timeoutMs, h);
    if p.Probed? {
      assert r == Returns(p.version);
    } else {
      assert r.Throws? || r.value == "";
    }
  }

  /** Looking up a bare name before the in-process API is initialised runs that
      initialisation; when it fails (a wrong engine version), validation
      answers "" or, with `throwErrors`, throws that install exception as it
      is. */
  lemma InProcessFailureDuringLookup(path: Option<string>, throwErrors: bool, timeoutMs: int, h: ValidationHost)
    requires !IsNullOrEmpty(path) && !HasSeparator(ExpandHome(path.value, h.lookup))
    requires h.lookup.inProcess.Some? && h.lookup.inProcess.value.PythonInstallException?
    ensures ValidatePythonInterpreter(path, throwErrors, timeoutMs, h)
            == if throwErrors then Throws(h.lookup.inProcess.value) else Returns("")
  {
  }

  /** Failures: without `throwErrors` the answer is "", with it every failure
      throws a `PythonInstallException`, and only those that were not one
      already are wrapped. */
  /** The reasons validation itself gives. */
  predicate ValidationReason(r: InstallReason)
  {
    r.SettingEmpty? || r.NotAnExecutable? || r.TookTooLong? || r.NonZeroExit? || r.WrongVersion? || r.LookupThrew?
  }

  /** Once the in-process API is initialised, every exception validation
      throws carries one of its own reasons. */
  lemma ValidationThrowsOwnReasons(path: Option<string>, timeoutMs: int, h: ValidationHost)
    requires h.lookup.inProcess.None?
    ensures var r := ValidatePythonInterpreter(path, true, timeoutMs, h);
      r.Throws? ==> r.exception.PythonInstallException? && ValidationReason(r.exception.reason)
  {
    WhereIsFinds(path, h.lookup);
  }

  lemma ValidationFailureModes(path: Option<string>, timeoutMs: int, h: ValidationHost)
    ensures ProbeInterpreter(path, timeoutMs, h).ProbeThrows? ==>
              ValidatePythonInterpreter(path, false, timeoutMs, h) == Returns("")
    ensures var r := ValidatePythonInterpreter(path, true, timeoutMs, h);
      (r.Returns? <==> ProbeInterpreter(path, timeoutMs, h).Probed?)
      && (r.Returns? ==> r.value != "")
      && (r.Throws? ==> r.exception.PythonInstallException?)
      && (r.Throws? && ProbeInterpreter(path, timeoutMs, h).exception.PythonInstallException? ==>
            r.exception == ProbeInterpreter(path, timeoutMs, h).exception)
      && (r.Throws? && !ProbeInterpreter(path, timeoutMs, h).exception.PythonInstallException? ==>
            r.exception.inner == Some(ProbeInterpreter(path, timeoutMs, h).exception))
  {
    ProbeSucceedsExactly(path, timeoutMs, h);
  }

  // ---------------------------------------------------------------------
  // The settings editor

  /** The settings inspector's memo of the last interpreter it set. */
  class SettingsEditor {
    var lastSet: Option<string>
    var installError: string
    var versionLastSet: Option<string>
    var logged: seq<CsException>

    constructor ()
      ensures lastSet == None && installError == "" && versionLastSet == None && logged == []
    {
      lastSet := None;
      installError := "";
      versionLastSet := None;
      logged := [];
    }

    /** `SetPythonInterpreter`: the same value as last time answers the cached
        version and changes nothing; an empty value is stored unconditionally
        and the default interpreter validated; any other value is validated
        and stored only if valid. A validation failure is remembered as the
        install error and logged. */
    method SetPythonInterpreter(settings: PythonSettings, value: Option<string>, h: ValidationHost)
      returns (version: Option<string>)
      modifies this, settings
      ensures old(lastSet) == value ==>
                version == old(versionLastSet)
                && lastSet == old(lastSet) && installError == old(installError)
                && versionLastSet == old(versionLastSet) && logged == old(logged)
                && settings.interpreter == old(settings.interpreter)
      ensures old(lastSet) != value ==>
                var validation :=
                  if IsNullOrEmpty(value) then ValidatePythonInterpreter(Some(DefaultPython(settings.windows)), true, old(settings.timeoutMs), h)
                  else ValidatePythonInterpreter(value, true, old(settings.timeoutMs), h);
                lastSet == value && versionLastSet == version
                && version == Some(if validation.Returns? then validation.value else "")
                && settings.interpreter == (if IsNullOrEmpty(value) || validation.Returns? then value else old(settings.interpreter))
                && installError == (if validation.Returns? then "" else Message(validation.exception))
                && logged == old(logged) + (if validation.Returns? then [] else [validation.exception])
      ensures settings.timeoutMs == old(settings.timeoutMs) && settings.sitePackages == old(settings.sitePackages)
    {
      if lastSet == value {
        return versionLastSet;
      }
      lastSet := value;
      var pythonVersion := "";
      if IsNullOrEmpty(value) {
        installError := "";
        settings.interpreter := value;
        var validation := ValidatePythonInterpreter(Some(settings.PythonInterpreter()), true, settings.timeoutMs, h);
        if validation.Returns? {
          pythonVersion := validation.value;
        } else {
          installError := Message(validation.exception);
          logged := logged + [validation.exception];
        }
      } else {
        var validation := ValidatePythonInterpreter(value, true, settings.timeoutMs, h);
        if validation.Returns? {
          pythonVersion := validation.value;
          installError := "";
          settings.interpreter := value;
        } else {
          installError := Message(validation.exception);
          logged := logged + [validation.exception];
        }
      }
      versionLastSet := Some(pythonVersion);
      return Some(pythonVersion);
    }
  }

  /** A non-empty value becomes the setting exactly when it validates. */
  lemma StoredOnlyIfValid(value: Option<string>, timeoutMs: int, h: ValidationHost)
    requires !IsNullOrEmpty(value)
    ensures ValidatePythonInterpreter(value, true, timeoutMs, h).Returns? <==>
              ProbeInterpreter(value, timeoutMs, h).Probed?
    ensures ValidatePythonInterpreter(value, true, timeoutMs, h).Returns? ==>
              StartsWith(ValidatePythonInterpreter(value, true, timeoutMs, h).value, RequiredVersion)
  {
  }

  // ---------------------------------------------------------------------
  // Short versions

  /** `ShortPythonVersion`: "" for null or empty, the text before the first
      space, or the whole text when it has none. */
  function ShortPythonVersion(longVersion: Option<string>): (r: string)
    ensures IsNullOrEmpty(longVersion) ==> r == ""
    ensures !IsNullOrEmpty(longVersion) ==> StartsWith(longVersion.value, r) && ' ' !in r
    ensures !IsNullOrEmpty(longVersion) && ' ' !in longVersion.value ==> r == longVersion.value
    ensures !IsNullOrEmpty(longVersion) && ' ' in longVersion.value ==> longVersion.value[|r|] == ' '
  {
    if IsNullOrEmpty(longVersion) then ""
    else
      var s := longVersion.value;
      var firstSpace := IndexOf(s, ' ');
      if firstSpace < 0 then s else s[..firstSpace]
  }

  /** The short version of a version followed by a space and anything is that version. */
  lemma ShortVersionOfBuildString(version: string, rest: string)
    requires version != [] && ' ' !in version
    ensures ShortPythonVersion(Some(version + " " + rest)) == version
  {
    var s := version + " " + rest;
    assert s[|version|] == ' ';
    assert s[..|version|] == version;
    assert ' ' in s;
  }
}
