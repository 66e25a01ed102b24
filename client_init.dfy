/** The client service run in the separate ftrack process (`resource/scripts/ftrack_client_init.py`): the
    initialise-once flag and the dialog dispatcher that creates the Qt
    application lazily and keeps every dialog it opens on top. The globals are
    the fields of `ClientInitService`; whether `ftrack.setup`,
    `registerAssets` and the dialog constructors raise are inputs. */
module FtrackClientInit {
  import opened Text
  import FtrackClient

  /** `QtCore.Qt.WindowStaysOnTopHint`. */
  const StaysOnTopHint: bv32 := 0x0004_0000

  /** The window flags after `setWindowFlags(windowFlags() | WindowStaysOnTopHint)`. */
  function KeepOnTop(flags: bv32): (r: bv32)
    ensures r & StaysOnTopHint == StaysOnTopHint
    ensures r & !StaysOnTopHint == flags & !StaysOnTopHint
  {
    flags | StaysOnTopHint
  }

  /** Only three names yield a dialog here; 'Publish' (and every other name) none. */
  function InitKindForName(name: string): (r: Option<FtrackClient.DialogKind>)
    ensures r.Some? <==> name in ["Info", "Import asset", "Asset manager"]
    ensures r.Some? ==> FtrackClient.DialogName(r.value) == name && r.value != FtrackClient.PublishDialogKind
  {
    if name == "Info" then Some(FtrackClient.InfoDialog)
    else if name == "Import asset" then Some(FtrackClient.ImportAssetDialog)
    else if name == "Asset manager" then Some(FtrackClient.AssetManagerDialog)
    else None
  }

  /** The two dispatchers agree on every name but 'Publish', which only the
      dispatcher of `ftrack_client.py` turns into a dialog. */
  lemma DispatchersDifferOnPublish(name: string)
    ensures InitKindForName(name) == (if name == "Publish" then None else FtrackClient.KindForName(name))
    ensures FtrackClient.KindForName("Publish") == Some(FtrackClient.PublishDialogKind)
  {
  }

  /** A dialog kept in `_dialogs`, with the window flags it was given. */
  datatype KeptDialog = KeptDialog(dialog: FtrackClient.Dialog, flags: bv32)

  datatype InitEvent =
    | CallSetup
    | CallRegisterAssets
    | LogInfo(message: string)
    | LogExceptionAndTrace   // the two `Logger.error` lines of the handler
    | CreateApplication
    | ShowWindow(position: nat)

  const AlreadyInitialized := "ftrack has already been initialized in the client process. Skipping initialization"

  /** Whether the initialised flag is set after one `ftrack_load_and_init`. */
  function InitStep(initialized: bool, setupRaises: bool, registerRaises: bool): bool
  {
    initialized || (!setupRaises && !registerRaises)
  }

  /** The outcome of `ftrack.setup()` and `registerAssets()` at one call: does each raise? */
  datatype InitOutcome = InitOutcome(setupRaises: bool, registerRaises: bool)

  predicate Succeeds(o: InitOutcome)
  {
    !o.setupRaises && !o.registerRaises
  }

  /** The flag after a series of calls. */
  function InitRun(initialized: bool, outcomes: seq<InitOutcome>): bool
    decreases |outcomes|
  {
    if outcomes == [] then initialized
    else InitRun(InitStep(initialized, outcomes[0].setupRaises, outcomes[0].registerRaises), outcomes[1..])
  }

  /** The number of times `ftrack.setup()` is called over a series of calls. */
  function SetupCalls(initialized: bool, outcomes: seq<InitOutcome>): nat
    decreases |outcomes|
  {
    if outcomes == [] then 0
    else (if initialized then 0 else 1)
         + SetupCalls(InitStep(initialized, outcomes[0].setupRaises, outcomes[0].registerRaises), outcomes[1..])
  }

  /** The flag ends set exactly when it started set or some call had both steps succeed. */
  lemma {:induction false} InitRunSetIffSomeSuccess(initialized: bool, outcomes: seq<InitOutcome>)
    ensures InitRun(initialized, outcomes) <==>
              initialized || exists i :: 0 <= i < |outcomes| && Succeeds(outcomes[i])
    decreases |outcomes|
  {
    if outcomes != [] {
      var next := InitStep(initialized, outcomes[0].setupRaises, outcomes[0].registerRaises);
      InitRunSetIffSomeSuccess(next, outcomes[1..]);
      if exists i :: 0 <= i < |outcomes| && Succeeds(outcomes[i]) {
        var i :| 0 <= i < |outcomes| && Succeeds(outcomes[i]);
        if i > 0 { assert outcomes[1..][i - 1] == outcomes[i]; }
      }
      if exists i :: 0 <= i < |outcomes[1..]| && Succeeds(outcomes[1..][i]) {
        var i :| 0 <= i < |outcomes[1..]| && Succeeds(outcomes[1..][i]);
        assert outcomes[i + 1] == outcomes[1..][i];
      }
    }
  }

  /** Once initialised, further calls never call `setup` again. */
  lemma {:induction false} SetupNotCalledOnceInitialized(outcomes: seq<InitOutcome>)
    ensures SetupCalls(true, outcomes) == 0
    decreases |outcomes|
  {
    if outcomes != [] {
      SetupNotCalledOnceInitialized(outcomes[1..]);
    }
  }

  /** Before initialisation, every call that fails calls `setup`. */
  lemma {:induction false} SetupCalledWhileFailing(outcomes: seq<InitOutcome>)
    requires forall i :: 0 <= i < |outcomes| ==> !Succeeds(outcomes[i])
    ensures SetupCalls(false, outcomes) == |outcomes|
    decreases |outcomes|
  {
    if outcomes != [] {
      assert !Succeeds(outcomes[0]);
      assert forall i :: 0 <= i < |outcomes[1..]| ==> outcomes[1..][i] == outcomes[i + 1];
      SetupCalledWhileFailing(outcomes[1..]);
    }
  }

  /** Before initialisation, `setup` is called on every call up to and
      including the first whose two steps succeed, and never after it. */
  lemma {:induction false} SetupCalledUntilFirstSuccess(outcomes: seq<InitOutcome>, k: nat)
    requires k < |outcomes| && Succeeds(outcomes[k])
    requires forall i :: 0 <= i < k ==> !Succeeds(outcomes[i])
    ensures SetupCalls(false, outcomes) == k + 1
    decreases k
  {
    if k == 0 {
      SetupNotCalledOnceInitialized(outcomes[1..]);
    } else {
      assert !Succeeds(outcomes[0]);
      assert outcomes[1..][k - 1] == outcomes[k];
      assert forall i :: 0 <= i < k - 1 ==> outcomes[1..][i] == outcomes[i + 1];
      SetupCalledUntilFirstSuccess(outcomes[1..], k - 1);
    }
  }

  class ClientInitService {
    var initialized: bool
    var applicationCreated: bool
    var dialogs: seq<KeptDialog>
    var log: seq<InitEvent>

    /** Every kept dialog is one of the three allowed kinds and stays on top. */
    ghost predicate Valid()
      reads this
    {
      forall i :: 0 <= i < |dialogs| ==>
        dialogs[i].flags & StaysOnTopHint == StaysOnTopHint
        && dialogs[i].dialog.kind != FtrackClient.PublishDialogKind
    }

    /** The globals at import time. */
    constructor ()
      ensures Valid() && !initialized && !applicationCreated && dialogs == [] && log == []
    {
      initialized := false;
      applicationCreated := false;
      dialogs := [];
      log := [];
    }

    /** `ftrack_load_and_init`: a no-op once initialised; otherwise `setup` then
        `registerAssets`, and the flag is set only when neither raised. */
    method LoadAndInit(setupRaises: bool, registerRaises: bool)
      requires Valid()
      modifies this
      ensures Valid()
      ensures initialized == InitStep(old(initialized), setupRaises, registerRaises)
      ensures old(initialized) ==> log == old(log) + [LogInfo(AlreadyInitialized)]
      ensures !old(initialized) ==> (log == old(log) + [CallSetup]
                + (if setupRaises then [] else [CallRegisterAssets])
                + (if setupRaises || registerRaises then [LogExceptionAndTrace] else []))
      ensures applicationCreated == old(applicationCreated) && dialogs == old(dialogs)
    {
      if initialized {
        log := log + [LogInfo(AlreadyInitialized)];
        return;
      }
      log := log + [CallSetup];
      if setupRaises {
        log := log + [LogExceptionAndTrace];
        return;
      }
      log := log + [CallRegisterAssets];
      if registerRaises {
        log := log + [LogExceptionAndTrace];
        return;
      }
      initialized := true;
    }

    /** `ftrack_show_dialog`: the application is created on first use; 'Info',
        'Import asset' and 'Asset manager' open a dialog (when it can be
        built) that gets the stay-on-top flag, is shown and is kept; any other
        name opens nothing and logs nothing. `flags` are the new dialog's own
        window flags. */
    method ShowDialog(name: string, flags: bv32, constructs: bool)
      requires Valid()
      modifies this
      ensures Valid()
      ensures applicationCreated
      ensures dialogs == old(dialogs)
                + (if InitKindForName(name).Some? && constructs
                   then [KeptDialog(FtrackClient.Opened(InitKindForName(name).value), KeepOnTop(flags))] else [])
      ensures log == old(log) + (if old(applicationCreated) then [] else [CreateApplication])
                + (if InitKindForName(name).None? then []
                   else if constructs then [ShowWindow(|old(dialogs)|)]
                   else [LogExceptionAndTrace])
      ensures initialized == old(initialized)
    {
      if !applicationCreated {
        applicationCreated := true;
        log := log + [CreateApplication];
      }
      var kind := InitKindForName(name);
      if kind.None? {
        return;
      }
      if !constructs {
        log := log + [LogExceptionAndTrace];
        return;
      }
      var dialog := KeptDialog(FtrackClient.Opened(kind.value), KeepOnTop(flags));
      log := log + [ShowWindow(|dialogs|)];
      dialogs := dialogs + [dialog];
    }
  }
}
