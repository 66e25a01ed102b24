/** The geometry asset type of the Unity connector
    (`source/ftrack_connect_unity/connector/unity_assets.py`): the ordered
    checks an import goes through before the file is copied into the project,
    the two unimplemented operations, and the registration of the 'geo' type
    with the asset handler. The file system, the directory dialog and the
    Unity API are inputs. */
module UnityAssets {
  import opened Text

  // ---------------------------------------------------------------------
  // Paths

  /** A path separator of `os.path` (posixpath: '/', ntpath: '/' and '\'). */
  predicate IsSep(c: char, windows: bool)
  {
    c == '/' || (windows && c == '\\')
  }

  /** The index of the last separator, or -1. */
  function LastSep(s: string, windows: bool): (k: int)
    ensures -1 <= k < |s|
    ensures k >= 0 ==> IsSep(s[k], windows)
    ensures forall j :: k < j < |s| ==> !IsSep(s[j], windows)
  {
    if s == [] then -1
    else if IsSep(s[|s| - 1], windows) then |s| - 1
    else LastSep(s[..|s| - 1], windows)
  }

  /** The first separator at or after `from`, or -1 (`str.find`). */
  function FindSep(s: string, from: nat, windows: bool): (k: int)
    requires from <= |s|
    ensures k == -1 || from <= k < |s|
    ensures k >= 0 ==> IsSep(s[k], windows)
    ensures forall j :: from <= j < (if k == -1 then |s| else k) ==> !IsSep(s[j], windows)
    decreases |s| - from
  {
    if from == |s| then -1
    else if IsSep(s[from], windows) then from
    else FindSep(s, from + 1, windows)
  }

  /** The length of the drive `ntpath.splitdrive` takes off the front: a
      drive letter and its colon, or a UNC root `\\server\share` written with
      either separator. posixpath has no drives. */
  function DriveLength(s: string, windows: bool): (n: nat)
    ensures n <= |s|
    ensures !windows ==> n == 0
  {
    if !windows || |s| < 2 then 0
    else if IsSep(s[0], true) && IsSep(s[1], true) && (|s| == 2 || !IsSep(s[2], true)) then
      var index := FindSep(s, 2, true);
      if index == -1 then 0
      else
        var index2 := FindSep(s, index + 1, true);
        if index2 == index + 1 then 0
        else if index2 == -1 then |s|
        else index2
    else if s[1] == ':' then 2
    else 0
  }

  /** The tail of `os.path.split`: what follows the last separator once the
      drive is split off. */
  function BaseName(s: string, windows: bool): (r: string)
    ensures EndsWith(s, r) && |r| <= |s| - DriveLength(s, windows)
    ensures forall j :: 0 <= j < |r| ==> !IsSep(r[j], windows)
  {
    var d := DriveLength(s, windows);
    var rest := s[d..];
    var r := rest[LastSep(rest, windows) + 1..];
    assert s[|s| - |r|..] == r;
    r
  }

  /** A drive letter is never part of the name: after `X:` the name is what
      follows the last separator of the rest, even when no separator follows
      the colon. */
  lemma DriveNotInName(letter: char, rest: string)
    ensures BaseName([letter, ':'] + rest, true) == rest[LastSep(rest, true) + 1..]
  {
    var s := [letter, ':'] + rest;
    assert s[1] == ':' && !IsSep(s[1], true);
    assert DriveLength(s, true) == 2;
    assert s[2..] == rest;
  }

  /** A UNC share root with nothing after it names no file. */
  lemma ShareRootHasNoName(server: string, share: string)
    requires server != [] && share != []
    requires forall j :: 0 <= j < |server| ==> !IsSep(server[j], true)
    requires forall j :: 0 <= j < |share| ==> !IsSep(share[j], true)
    ensures BaseName("\\\\" + server + "\\" + share, true) == ""
  {
    var s := "\\\\" + server + "\\" + share;
    var index := 2 + |server|;
    assert s[index] == '\\';
    assert forall j :: 2 <= j < index ==> s[j] == server[j - 2];
    assert FindSep(s, 2, true) == index;
    assert forall j :: index + 1 <= j < |s| ==> s[j] == share[j - index - 1];
    assert FindSep(s, index + 1, true) == -1;
    assert DriveLength(s, true) == |s|;
  }

  /** The index of the last '.', or -1. */
  function LastDot(s: string): (k: int)
    ensures -1 <= k < |s|
    ensures k >= 0 ==> s[k] == '.'
    ensures forall j :: k < j < |s| ==> s[j] != '.'
  {
    if s == [] then -1
    else if s[|s| - 1] == '.' then |s| - 1
    else LastDot(s[..|s| - 1])
  }

  /** The extension of `os.path.splitext` on a file name without separators:
      from the last dot on, unless only dots precede that dot. */
  function SplitExtension(name: string): string
  {
    var dot := LastDot(name);
    if dot > 0 && exists j :: 0 <= j < dot && name[j] != '.' then name[dot..] else ""
  }

  /** The extension of the file an import names. */
  function Extension(filePath: string, windows: bool): string
  {
    SplitExtension(BaseName(filePath, windows))
  }

  /** An extension is empty or a dot followed by no dot and no separator, and
      it ends the path. */
  lemma ExtensionShape(filePath: string, windows: bool)
    ensures var e := Extension(filePath, windows);
      EndsWith(filePath, e)
      && (e == [] || (e[0] == '.' && '.' !in e[1..]))
      && forall j :: 0 <= j < |e| ==> !IsSep(e[j], windows)
  {
    var name := BaseName(filePath, windows);
    var e := Extension(filePath, windows);
    if e != [] {
      var dot := LastDot(name);
      assert e == name[dot..];
      assert e[1..] == name[dot + 1..];
      assert forall j :: 0 <= j < |e| ==> e[j] == name[dot + j];
    }
  }

  // ---------------------------------------------------------------------
  // The import checks

  /** What the directory dialog returned: cancelled (None) or the selected files. */
  datatype DirectorySelection = Cancelled | Selected(files: seq<string>)

  /** The outcome of `shutil.copy2`: done, an IOError with its text, or another
      error (`shutil.Error` for a file copied onto itself, an OSError from
      copying its metadata) that `except IOError` does not catch. */
  datatype CopyOutcome = Copied | CopyIOError(reason: string) | CopyRaises(error: string)

  /** What an import reads from its host: the path flavour, existence and
      directory tests, `os.path.abspath`, `Application.dataPath`, the dialog's
      answer and what the copy does. */
  datatype ImportHost = ImportHost(
    windows: bool,
    pathExists: string -> bool,
    isDirectory: string -> bool,
    absPath: string -> string,
    dataPath: string,
    selection: DirectorySelection,
    copy: CopyOutcome)

  /** Side effects of an import: both logs, the copy and the database refresh. */
  datatype AssetEffect =
    | LogError(message: string)
    | ConsoleError(message: string)
    | CopyAttempt(source: string, destination: string)
    | RefreshDatabase
    | ConsoleLog(message: string)

  /** `importAsset` returns an error string, returns None after importing,
      raises the copy's uncaught error, or (as written) raises a TypeError. */
  datatype ImportOutcome = ImportError(message: string) | Imported | RaisesCopyError(error: string) | RaisesTypeError

  datatype ImportRun = ImportRun(outcome: ImportOutcome, effects: seq<AssetEffect>)

  function NotExistMessage(path: string): string
  {
    "ftrack cannot import file \"" + path + "\" because it does not exist"
  }

  function ExtensionMessage(extension: string): string
  {
    "ftrack does not support importing files with extension \"" + extension + "\""
  }

  function DirectoryMessage(directory: string): string
  {
    "ftrack cannot import into the chosen directory \"" + directory + "\""
  }

  const NotUnderAssets := "ftrack cannot import into a directory that is not under Assets/"

  function CopyMessage(source: string, destination: string, reason: string): string
  {
    "ftrack could not copy \"" + source + "\" into \"" + destination + "\": " + reason
  }

  function ImportedMessage(fileName: string, source: string, destination: string): string
  {
    "Imported " + fileName + " (" + source + " -> " + destination + ")"
  }

  /** An error string, logged to the logger and to the Unity console. */
  function Fail(message: string): ImportRun
  {
    ImportRun(ImportError(message), [LogError(message), ConsoleError(message)])
  }

  /** The chosen directory: the absolute first selected entry, if the dialog gave one. */
  function ChosenDirectory(h: ImportHost): Option<string>
  {
    if h.selection.Selected? && h.selection.files != [] then Some(h.absPath(h.selection.files[0])) else None
  }

  /** How Python formats a falsy dialog answer. */
  function NoSelectionText(selection: DirectorySelection): string
  {
    if selection.Cancelled? then "None" else "[]"
  }

  /** The checks and the copy once a destination directory is known. */
  function ImportInto(filePath: string, destination: string, h: ImportHost): ImportRun
  {
    if !h.isDirectory(destination) then Fail(DirectoryMessage(destination))
    else if !Contains(destination, h.absPath(h.dataPath)) then Fail(NotUnderAssets)
    else match h.copy
      case CopyIOError(reason) =>
        var m := CopyMessage(filePath, destination, reason);
        ImportRun(ImportError(m), [CopyAttempt(filePath, destination), LogError(m), ConsoleError(m)])
      case CopyRaises(error) =>
        ImportRun(RaisesCopyError(error), [CopyAttempt(filePath, destination)])
      case Copied =>
        ImportRun(Imported, [CopyAttempt(filePath, destination), RefreshDatabase,
                             ConsoleLog(ImportedMessage(BaseName(filePath, h.windows), filePath, destination))])
  }

  /** `GeometryAsset.importAsset` as written: with no directory chosen,
      `os.path.isdir` receives None (or an empty list) and raises a TypeError. */
  function ImportAssetAsWritten(filePath: string, h: ImportHost): ImportRun
  {
    if !h.pathExists(filePath) then Fail(NotExistMessage(filePath))
    else if LowerAscii(Extension(filePath, h.windows)) != ".fbx" then Fail(ExtensionMessage(Extension(filePath, h.windows)))
    else match ChosenDirectory(h)
      case None => ImportRun(RaisesTypeError, [])
      case Some(destination) => ImportInto(filePath, destination, h)
  }

  /** `GeometryAsset.importAsset` as intended: a dialog that chose nothing is
      rejected like any other unusable directory. */
  function ImportAsset(filePath: string, h: ImportHost): ImportRun
  {
    if !h.pathExists(filePath) then Fail(NotExistMessage(filePath))
    else if LowerAscii(Extension(filePath, h.windows)) != ".fbx" then Fail(ExtensionMessage(Extension(filePath, h.windows)))
    else match ChosenDirectory(h)
      case None => Fail(DirectoryMessage(NoSelectionText(h.selection)))
      case Some(destination) => ImportInto(filePath, destination, h)
  }

  predicate Copies(run: ImportRun)
  {
    exists i :: 0 <= i < |run.effects| && run.effects[i].CopyAttempt?
  }

  /** The checks in order: a missing file, then a wrong extension, then an
      unusable directory, then a directory outside the Assets path each return
      their own error string, and nothing is copied. */
  lemma ImportChecksInOrder(filePath: string, h: ImportHost)
    ensures !h.pathExists(filePath) ==>
              ImportAsset(filePath, h).outcome == ImportError(NotExistMessage(filePath))
    ensures h.pathExists(filePath) && LowerAscii(Extension(filePath, h.windows)) != ".fbx" ==>
              ImportAsset(filePath, h).outcome == ImportError(ExtensionMessage(Extension(filePath, h.windows)))
    ensures h.pathExists(filePath) && LowerAscii(Extension(filePath, h.windows)) == ".fbx"
            && ChosenDirectory(h).Some? && !h.isDirectory(ChosenDirectory(h).value) ==>
              ImportAsset(filePath, h).outcome == ImportError(DirectoryMessage(ChosenDirectory(h).value))
    ensures h.pathExists(filePath) && LowerAscii(Extension(filePath, h.windows)) == ".fbx"
            && ChosenDirectory(h).Some? && h.isDirectory(ChosenDirectory(h).value)
            && !Contains(ChosenDirectory(h).value, h.absPath(h.dataPath)) ==>
              ImportAsset(filePath, h).outcome == ImportError(NotUnderAssets)
    ensures ImportAsset(filePath, h).outcome != RaisesTypeError
  {
  }

  /** A failed check copies nothing and refreshes nothing. */
  lemma FailCopiesNothing(message: string)
    ensures !Copies(Fail(message)) && RefreshDatabase !in Fail(message).effects
    ensures Fail(message).outcome == ImportError(message)
  {
    assert Fail(message).effects == [LogError(message), ConsoleError(message)];
  }

  /** Into a known destination, the copy is attempted exactly when it is a
      directory under the Assets path; only a completed copy refreshes, an
      IOError is reported as an error string and any other copy error escapes. */
  lemma ImportIntoCopies(filePath: string, destination: string, h: ImportHost)
    ensures var run := ImportInto(filePath, destination, h);
      (Copies(run) <==> h.isDirectory(destination) && Contains(destination, h.absPath(h.dataPath)))
      && (Copies(run) ==> run.effects[0] == CopyAttempt(filePath, destination))
      && (run.outcome == Imported <==> Copies(run) && h.copy == Copied)
      && (run.outcome.RaisesCopyError? <==> Copies(run) && h.copy.CopyRaises?)
      && (Copies(run) && h.copy.CopyIOError? ==>
            run.outcome == ImportError(CopyMessage(filePath, destination, h.copy.reason)))
      && (RefreshDatabase in run.effects <==> run.outcome == Imported)
  {
    var run := ImportInto(filePath, destination, h);
    if !h.isDirectory(destination) {
      FailCopiesNothing(DirectoryMessage(destination));
    } else if !Contains(destination, h.absPath(h.dataPath)) {
      FailCopiesNothing(NotUnderAssets);
    } else {
      assert run.effects[0] == CopyAttempt(filePath, destination);
    }
  }

  /** The copy is attempted exactly when every check passes, from the file into
      the chosen directory; only a completed copy refreshes the database and
      returns None, and only the copy can make the import raise. */
  lemma CopyOnlyAfterAllChecks(filePath: string, h: ImportHost)
    ensures var run := ImportAsset(filePath, h);
      (Copies(run) <==>
         h.pathExists(filePath) && LowerAscii(Extension(filePath, h.windows)) == ".fbx"
         && ChosenDirectory(h).Some? && h.isDirectory(ChosenDirectory(h).value)
         && Contains(ChosenDirectory(h).value, h.absPath(h.dataPath)))
      && (Copies(run) ==> run.effects[0] == CopyAttempt(filePath, ChosenDirectory(h).value))
      && (run.outcome == Imported <==> Copies(run) && h.copy == Copied)
      && (run.outcome.RaisesCopyError? <==> Copies(run) && h.copy.CopyRaises?)
      && (RefreshDatabase in run.effects <==> run.outcome == Imported)
  {
    if !h.pathExists(filePath) {
      FailCopiesNothing(NotExistMessage(filePath));
    } else if LowerAscii(Extension(filePath, h.windows)) != ".fbx" {
      FailCopiesNothing(ExtensionMessage(Extension(filePath, h.windows)));
    } else if ChosenDirectory(h).None? {
      FailCopiesNothing(DirectoryMessage(NoSelectionText(h.selection)));
    } else {
      ImportIntoCopies(filePath, ChosenDirectory(h).value, h);
    }
  }

  /** The Assets test is a substring test: every existing directory whose path
      contains the absolute Assets path anywhere is copied into, including a
      sibling such as `<Assets>_backup` that is not inside it. */
  lemma AssetsTestIsSubstring(filePath: string, before: string, after: string, h: ImportHost)
    requires h.isDirectory(before + h.absPath(h.dataPath) + after)
    ensures Copies(ImportInto(filePath, before + h.absPath(h.dataPath) + after, h))
  {
    ContainsInMiddle(before, h.absPath(h.dataPath), after);
    assert ImportInto(filePath, before + h.absPath(h.dataPath) + after, h).effects[0].CopyAttempt?;
  }

  /** On Windows a path such as "C:.fbx" names the file ".fbx", whose leading
      dot is no extension, so its import stops at the extension check. */
  lemma DriveRelativeDotFileRejected(letter: char, suffix: string, h: ImportHost)
    requires h.windows && '.' !in suffix
    requires forall j :: 0 <= j < |suffix| ==> !IsSep(suffix[j], true)
    requires h.pathExists([letter, ':', '.'] + suffix)
    ensures ImportAsset([letter, ':', '.'] + suffix, h) == Fail(ExtensionMessage(""))
  {
    var path := [letter, ':', '.'] + suffix;
    var name := ['.'] + suffix;
    assert path == [letter, ':'] + name;
    DriveNotInName(letter, name);
    LeadingDotName(suffix);
    assert BaseName(path, true) == name;
    assert LowerAscii("") == "";
    ExtensionCheckFails(path, h);
  }

  /** A name made of one leading dot and no further dot or separator has no
      extension. */
  lemma LeadingDotName(suffix: string)
    requires '.' !in suffix
    requires forall j :: 0 <= j < |suffix| ==> !IsSep(suffix[j], true)
    ensures LastSep(['.'] + suffix, true) == -1
    ensures SplitExtension(['.'] + suffix) == ""
  {
    var name := ['.'] + suffix;
    forall j | 0 < j < |name| ensures name[j] != '.' && !IsSep(name[j], true) {
      assert name[j] == suffix[j - 1];
    }
    assert name[0] == '.';
    assert LastDot(name) == 0;
  }

  /** An existing file whose extension is not `.fbx` in any ASCII case is
      rejected with the extension error and nothing else happens. */
  lemma ExtensionCheckFails(filePath: string, h: ImportHost)
    requires h.pathExists(filePath) && LowerAscii(Extension(filePath, h.windows)) != ".fbx"
    ensures ImportAsset(filePath, h) == Fail(ExtensionMessage(Extension(filePath, h.windows)))
  {
  }

  /** With nothing chosen in the dialog, the written import raises where the
      intended one returns the directory error string; in every other case the
      two agree. */
  lemma CancelledDialogRaises(filePath: string, h: ImportHost)
    ensures h.pathExists(filePath) && LowerAscii(Extension(filePath, h.windows)) == ".fbx"
            && ChosenDirectory(h).None? ==>
              ImportAssetAsWritten(filePath, h).outcome == RaisesTypeError
              && ImportAsset(filePath, h) == Fail(DirectoryMessage(NoSelectionText(h.selection)))
    ensures !(h.pathExists(filePath) && LowerAscii(Extension(filePath, h.windows)) == ".fbx"
              && ChosenDirectory(h).None?) ==>
              ImportAssetAsWritten(filePath, h) == ImportAsset(filePath, h)
  {
  }

  // ---------------------------------------------------------------------
  // The stubs and the registration

  /** The asset types the handler knows of. */
  datatype AssetTypeClass = GeometryAsset

  /** What a Python call returns or raises. */
  datatype CallResult = ReturnsNone | RaisesArgumentCount

  /** `GeometryAsset.changeVersion`: does nothing and returns None. */
  function ChangeVersionStub(): CallResult
  {
    ReturnsNone
  }

  /** `GeometryAsset.publishAsset(self, iAObj=None)` called with `arguments`
      positional arguments: it takes at most one. */
  function PublishStub(arguments: nat): (r: CallResult)
    ensures r == ReturnsNone <==> arguments <= 1
  {
    if arguments <= 1 then ReturnsNone else RaisesArgumentCount
  }

  /** The asset handler's registry of types (`FTAssetHandlerInstance`). */
  class AssetHandler {
    var types: map<string, AssetTypeClass>

    constructor ()
      ensures types == map[]
    {
      types := map[];
    }

    /** `getAssetClass`: the class registered for a type, if any. */
    function AssetClass(assetType: string): (r: Option<AssetTypeClass>)
      reads this
      ensures r.Some? <==> assetType in types
      ensures r.Some? ==> r.value == types[assetType]
    {
      if assetType in types then Some(types[assetType]) else None
    }

    method RegisterAssetType(name: string, cls: AssetTypeClass)
      modifies this
      ensures types == old(types)[name := cls]
    {
      types := types[name := cls];
    }

    /** `registerAssetTypes`: registers 'geo' and nothing else. */
    method RegisterAssetTypes()
      modifies this
      ensures types == old(types)["geo" := GeometryAsset]
      ensures AssetClass("geo") == Some(GeometryAsset)
      ensures forall t :: t != "geo" ==> AssetClass(t) == (if t in old(types) then Some(old(types)[t]) else None)
    {
      RegisterAssetType("geo", GeometryAsset);
    }
  }
}
