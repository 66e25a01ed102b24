/** The client process that hosts the ftrack dialogs (`resource/scripts/ftrack_client.py`):
    the bounded connect-retry loop, the throttled keep-alive ping, server
    shutdown handling, and the dialog dispatcher with its Publish slot. The
    module's globals are the fields of `ClientSession`; the transport, the clock
    and the dialog constructors are inputs. */
module FtrackClient {
  import opened Text

  const ClientName := "ftrack-connect-unity"

  /** `_connect_to_unity` tries `range(120)` times. */
  const ConnectAttempts := 120

  /** The keep-alive interval, 1.0 s, in milliseconds. */
  const PingIntervalMs := 1000

  const ExitMessage := "Unity has quit or the server closed unexpectedly"
  const CouldNotConnect := "Could not connect to Unity"

  // ---------------------------------------------------------------------
  // Connecting

  /** The outcome of the `i`-th call of `unity_client.connect(_service)`. */
  datatype Attempt = SocketError | EndOfFile | Connected(handle: nat)

  /** How `_connect_to_unity` ends: connected, `sys.exit` with a message, or
      `ftrackClientException` raised with a message. */
  datatype ConnectResult = ConnectOk | Exited(message: string) | Raised(message: string)

  /** The first attempt from `i` on that is not a socket error, or 120 when every
      remaining attempt is one. */
  function FirstDecisive(transport: nat -> Attempt, i: nat): (k: nat)
    requires i <= ConnectAttempts
    ensures i <= k <= ConnectAttempts
    decreases ConnectAttempts - i
  {
    if i == ConnectAttempts then i
    else if transport(i).SocketError? then FirstDecisive(transport, i + 1)
    else i
  }

  /** Every attempt before the first decisive one is a socket error, and the
      first decisive one, if within the 120, is not. */
  lemma {:induction false} FirstDecisiveIsFirst(transport: nat -> Attempt, i: nat)
    requires i <= ConnectAttempts
    ensures var k := FirstDecisive(transport, i);
      (forall j :: i <= j < k ==> transport(j).SocketError?)
      && (k < ConnectAttempts ==> !transport(k).SocketError?)
    decreases ConnectAttempts - i
  {
    if i < ConnectAttempts && transport(i).SocketError? {
      FirstDecisiveIsFirst(transport, i + 1);
    }
  }

  /** An attempt that is not a socket error, preceded only by socket errors,
      is the first decisive one. */
  lemma {:induction false} FirstDecisiveIs(transport: nat -> Attempt, i: nat, k: nat)
    requires i <= k < ConnectAttempts && !transport(k).SocketError?
    requires forall j :: i <= j < k ==> transport(j).SocketError?
    ensures FirstDecisive(transport, i) == k
    decreases k - i
  {
    if i < k {
      FirstDecisiveIs(transport, i + 1, k);
    }
  }

  /** When every attempt from `i` on is a socket error, none is decisive. */
  lemma {:induction false} NoDecisiveAttempt(transport: nat -> Attempt, i: nat)
    requires i <= ConnectAttempts
    requires forall j :: i <= j < ConnectAttempts ==> transport(j).SocketError?
    ensures FirstDecisive(transport, i) == ConnectAttempts
    decreases ConnectAttempts - i
  {
    if i < ConnectAttempts {
      NoDecisiveAttempt(transport, i + 1);
    }
  }

  /** What `_connect_to_unity` leaves behind, from the connection it started
      with: the result, the connection afterwards, and the number of attempts. */
  datatype ConnectRun = ConnectRun(result: ConnectResult, connection: Option<nat>, attempts: nat)

  function Connect(transport: nat -> Attempt, before: Option<nat>): ConnectRun
  {
    var k := FirstDecisive(transport, 0);
    if k < ConnectAttempts then
      match transport(k)
      case Connected(h) => ConnectRun(ConnectOk, Some(h), k + 1)
      case EndOfFile => ConnectRun(Exited(ExitMessage), before, k + 1)
      case SocketError => ConnectRun(ConnectOk, before, k + 1)
    else if before.None? then ConnectRun(Raised(CouldNotConnect), before, ConnectAttempts)
    else ConnectRun(ConnectOk, before, ConnectAttempts)
  }

  /** At most 120 attempts are made; the first successful one ends the loop and
      its connection is kept, preceded only by socket errors. */
  lemma ConnectStopsAtFirstSuccess(transport: nat -> Attempt, before: Option<nat>)
    ensures var r := Connect(transport, before);
      1 <= r.attempts <= ConnectAttempts
      && (r.connection.Some? && r.connection != before ==>
            transport(r.attempts - 1) == Connected(r.connection.value)
            && forall j :: 0 <= j < r.attempts - 1 ==> transport(j).SocketError?)
  {
    FirstDecisiveIsFirst(transport, 0);
  }

  /** A connection made after socket errors only is kept, and ends the loop. */
  lemma ConnectSucceedsAt(transport: nat -> Attempt, before: Option<nat>, k: nat)
    requires k < ConnectAttempts && transport(k).Connected?
    requires forall j :: 0 <= j < k ==> transport(j).SocketError?
    ensures Connect(transport, before) == ConnectRun(ConnectOk, Some(transport(k).handle), k + 1)
  {
    FirstDecisiveIs(transport, 0, k);
  }

  /** An end-of-file error exits at once: no further attempt, connection untouched. */
  lemma ConnectExitsOnEndOfFile(transport: nat -> Attempt, before: Option<nat>, k: nat)
    requires k < ConnectAttempts && transport(k).EndOfFile?
    requires forall j :: 0 <= j < k ==> transport(j).SocketError?
    ensures Connect(transport, before) == ConnectRun(Exited(ExitMessage), before, k + 1)
  {
    FirstDecisiveIs(transport, 0, k);
  }

  /** After 120 socket errors, 'Could not connect to Unity' is raised when
      there was no connection; an earlier connection is kept otherwise. */
  lemma ConnectGivesUp(transport: nat -> Attempt, before: Option<nat>)
    requires forall j :: 0 <= j < ConnectAttempts ==> transport(j).SocketError?
    ensures Connect(transport, before)
      == ConnectRun(if before.None? then Raised(CouldNotConnect) else ConnectOk, before, ConnectAttempts)
  {
    NoDecisiveAttempt(transport, 0);
  }

  // ---------------------------------------------------------------------
  // Keep-alive

  /** What `_connection.async_request(HANDLE_PING, ...)` does: returns, raises
      `PingError`, or raises `EOFError`. */
  datatype PingOutcome = PingReturns | RaisesPingError | RaisesEndOfFile

  /** One call of `ping_server`: whether a ping was sent, the new
      `last_ping_time`, and whether an exception escapes. */
  datatype PingResult = PingResult(sent: bool, lastPing: int, escapes: bool)

  /** `ping_server` as written: under Python 2, `except PingError, EOFError`
      catches `PingError` only (binding it to the name `EOFError`), so an
      end-of-file error escapes before `last_ping_time` is reset. */
  function PingAsWritten(now: int, last: int, connected: bool, outcome: PingOutcome): PingResult
  {
    if now - last > PingIntervalMs then
      if connected && outcome == RaisesEndOfFile then PingResult(true, last, true)
      else PingResult(connected, now, false)
    else PingResult(false, last, false)
  }

  /** `ping_server` as its comment intends: both errors are swallowed. */
  function Ping(now: int, last: int, connected: bool, outcome: PingOutcome): PingResult
  {
    if now - last > PingIntervalMs then PingResult(connected, now, false)
    else PingResult(false, last, false)
  }

  /** With a connection and more than the interval elapsed, an end-of-file error
      escapes the written `ping_server` and keeps the old `last_ping_time`,
      whereas the intended one swallows it and resets the clock. */
  lemma PingAsWrittenLetsEndOfFileEscape(now: int, last: int)
    requires now - last > PingIntervalMs
    ensures PingAsWritten(now, last, true, RaisesEndOfFile) == PingResult(true, last, true)
    ensures Ping(now, last, true, RaisesEndOfFile) == PingResult(true, now, false)
    ensures PingAsWritten(1001, 0, true, RaisesEndOfFile).escapes
  {
  }

  /** The two agree on every outcome except an escaping end-of-file error. */
  lemma PingAsWrittenAgreesOtherwise(now: int, last: int, connected: bool, outcome: PingOutcome)
    requires !(connected && outcome == RaisesEndOfFile)
    ensures PingAsWritten(now, last, connected, outcome) == Ping(now, last, connected, outcome)
  {
  }

  /** A ping goes out exactly when a connection exists and strictly more than the
      interval has elapsed; the clock is reset whenever the interval has
      elapsed, whether or not a ping went out; nothing escapes. */
  lemma PingSendsOnlyAfterInterval(now: int, last: int, connected: bool, outcome: PingOutcome)
    ensures var r := Ping(now, last, connected, outcome);
      (r.sent <==> connected && now - last > PingIntervalMs)
      && (now - last > PingIntervalMs ==> r.lastPing == now)
      && (now - last <= PingIntervalMs ==> r.lastPing == last)
      && !r.escapes
  {
  }

  /** After a ping at `t1`, no ping goes out again until more than the interval
      has passed. */
  lemma PingThrottled(t1: int, t2: int, last: int, c1: bool, o1: PingOutcome, c2: bool, o2: PingOutcome)
    requires Ping(t1, last, c1, o1).sent
    requires t1 <= t2 <= t1 + PingIntervalMs
    ensures !Ping(t2, Ping(t1, last, c1, o1).lastPing, c2, o2).sent
  {
  }

  // ---------------------------------------------------------------------
  // Dialogs

  datatype DialogKind = InfoDialog | ImportAssetDialog | AssetManagerDialog | PublishDialogKind

  const DialogNames: seq<string> := ["Info", "Import asset", "Asset manager", "Publish"]

  /** The dialog name the menus send for a kind. */
  function DialogName(kind: DialogKind): string
  {
    match kind
    case InfoDialog => "Info"
    case ImportAssetDialog => "Import asset"
    case AssetManagerDialog => "Asset manager"
    case PublishDialogKind => "Publish"
  }

  /** The kind `exposed_show_dialog` builds for a name, if any. */
  function KindForName(name: string): (r: Option<DialogKind>)
    ensures r.Some? <==> name in DialogNames
    ensures r.Some? ==> DialogName(r.value) == name
  {
    if name == "Info" then Some(InfoDialog)
    else if name == "Import asset" then Some(ImportAssetDialog)
    else if name == "Asset manager" then Some(AssetManagerDialog)
    else if name == "Publish" then Some(PublishDialogKind)
    else None
  }

  /** Every kind is reached from its own name. */
  lemma KindForNameInvertsDialogName(kind: DialogKind)
    ensures KindForName(DialogName(kind)) == Some(kind)
  {
  }

  datatype Size = Size(width: nat, height: nat)

  /** A dialog kept alive in `_dialogs`: its kind, window title and minimum size
      (None where the constructor's size is kept). */
  datatype Dialog = Dialog(kind: DialogKind, title: string, minimumSize: Option<Size>)

  function Opened(kind: DialogKind): (d: Dialog)
    ensures d.kind == kind
    ensures d.minimumSize.Some? <==> kind == ImportAssetDialog
  {
    match kind
    case InfoDialog => Dialog(kind, "Info", None)
    case ImportAssetDialog => Dialog(kind, "ImportAsset", Some(Size(800, 600)))
    case AssetManagerDialog => Dialog(kind, "AssetManager", None)
    case PublishDialogKind => Dialog(kind, "Publish", None)
  }

  /** The position of the last dialog of a kind, if any. */
  function LastIndexOfKind(dialogs: seq<Dialog>, kind: DialogKind): (r: Option<nat>)
    ensures r.None? <==> forall j :: 0 <= j < |dialogs| ==> dialogs[j].kind != kind
    ensures r.Some? ==> r.value < |dialogs| && dialogs[r.value].kind == kind
                        && forall j :: r.value < j < |dialogs| ==> dialogs[j].kind != kind
  {
    if dialogs == [] then None
    else if dialogs[|dialogs| - 1].kind == kind then Some(|dialogs| - 1)
    else LastIndexOfKind(dialogs[..|dialogs| - 1], kind)
  }

  /** Appending a dialog of a kind makes it the last of its kind and leaves the
      last of other kinds alone: the Publish slot is last-writer-wins. */
  lemma LastIndexOfKindAppend(dialogs: seq<Dialog>, d: Dialog, kind: DialogKind)
    ensures LastIndexOfKind(dialogs + [d], kind) ==
              if d.kind == kind then Some(|dialogs|) else LastIndexOfKind(dialogs, kind)
  {
    assert (dialogs + [d])[..|dialogs|] == dialogs;
  }

  function InvalidDialogMessage(name: string): string
  {
    "Invalid dialog name: \"" + name + "\""
  }

  function ShowFailedMessage(name: string): string
  {
    "Got an exception while trying to show the \"" + name + "\" ftrack dialog"
  }

  /** The side effects the session performs on the logger, the Unity console,
      the connection and the Qt application. */
  datatype Event =
    | LogError(message: string)
    | LogException(message: string)
    | UnityConsoleError(message: string)
    | CloseConnection(handle: nat)
    | ScheduleReconnect(waitForResult: bool)
    | QuitApplication
    | BaseShutdown(inviteRetry: bool)
    | PingSent(handle: nat)
    | ShowWindow(position: nat)
    | ForwardPublish(position: nat, arguments: string)

  /** The log entries of one `exposed_show_dialog` call; `constructs` is false
      when importing or building the dialog raised. */
  function ShowDialogEvents(name: string, constructs: bool, position: nat): seq<Event>
  {
    if KindForName(name).None? then [LogError(InvalidDialogMessage(name)), UnityConsoleError(InvalidDialogMessage(name))]
    else if !constructs then [LogException(ShowFailedMessage(name))]
    else [ShowWindow(position)]
  }

  /** The outcome of `exposed_publish`: forwarded to the dialog at a position of
      `_dialogs`, or no Publish dialog was ever opened (the call on None raises). */
  datatype PublishForward = Forwarded(position: nat) | NoPublishDialog

  class ClientSession {
    var connection: Option<nat>
    var dialogs: seq<Dialog>
    var publishDialog: Option<nat>
    var lastPingTime: int
    var applicationCreated: bool
    var log: seq<Event>

    /** The Publish slot holds the last Publish dialog opened. */
    ghost predicate Valid()
      reads this
    {
      publishDialog == LastIndexOfKind(dialogs, PublishDialogKind)
    }

    /** The module globals at import time; `startTime` is `time.time()` then. */
    constructor (startTime: int)
      ensures Valid()
      ensures connection == None && dialogs == [] && publishDialog == None
      ensures lastPingTime == startTime && !applicationCreated && log == []
    {
      connection := None;
      dialogs := [];
      publishDialog := None;
      lastPingTime := startTime;
      applicationCreated := false;
      log := [];
    }

    /** `main` creating `_qapp`. */
    method CreateApplication()
      modifies this
      ensures applicationCreated
      ensures connection == old(connection) && dialogs == old(dialogs) && publishDialog == old(publishDialog)
      ensures lastPingTime == old(lastPingTime) && log == old(log)
    {
      applicationCreated := true;
    }

    /** `_connect_to_unity`; `transport(i)` is the outcome of the `i`-th attempt. */
    method ConnectToUnity(transport: nat -> Attempt) returns (result: ConnectResult, attempts: nat)
      modifies this`connection
      ensures ConnectRun(result, connection, attempts) == Connect(transport, old(connection))
    {
      attempts := 0;
      var i := 0;
      while i < ConnectAttempts
        invariant 0 <= i <= ConnectAttempts
        invariant attempts == i && connection == old(connection)
        invariant forall j :: 0 <= j < i ==> transport(j).SocketError?
      {
        attempts := attempts + 1;
        var outcome := transport(i);
        if outcome.SocketError? {
          i := i + 1;
        } else if outcome.EndOfFile? {
          ConnectExitsOnEndOfFile(transport, connection, i);
          return Exited(ExitMessage), attempts;
        } else {
          ConnectSucceedsAt(transport, connection, i);
          connection := Some(outcome.handle);
          return ConnectOk, attempts;
        }
      }
      ConnectGivesUp(transport, connection);
      if connection.None? {
        return Raised(CouldNotConnect), attempts;
      }
      result := ConnectOk;
    }

    /** `ping_server` at time `now` (milliseconds), with both errors swallowed. */
    method PingServer(now: int, outcome: PingOutcome)
      modifies this
      ensures var r := Ping(now, old(lastPingTime), old(connection).Some?, outcome);
        lastPingTime == r.lastPing
        && log == old(log) + (if r.sent then [PingSent(old(connection).value)] else [])
      ensures connection == old(connection) && dialogs == old(dialogs) && publishDialog == old(publishDialog)
      ensures applicationCreated == old(applicationCreated)
    {
      if now - lastPingTime > PingIntervalMs {
        if connection.Some? {
          log := log + [PingSent(connection.value)];
        }
        lastPingTime := now;
      }
    }

    /** `exposed_on_server_shutdown`: with `inviteRetry` the connection is
      closed and dropped and a reconnect is scheduled without waiting;
      otherwise the application quits (if created) and the base handler runs. */
    method OnServerShutdown(inviteRetry: bool)
      modifies this
      ensures inviteRetry ==> (connection == None
        && log == old(log) + (if old(connection).Some? then [CloseConnection(old(connection).value)] else [])
                           + [ScheduleReconnect(false)])
      ensures !inviteRetry ==> (connection == old(connection)
        && log == old(log) + (if applicationCreated then [QuitApplication] else []) + [BaseShutdown(false)])
      ensures dialogs == old(dialogs) && publishDialog == old(publishDialog)
      ensures lastPingTime == old(lastPingTime) && applicationCreated == old(applicationCreated)
    {
      if inviteRetry {
        if connection.Some? {
          log := log + [CloseConnection(connection.value)];
          connection := None;
        }
        log := log + [ScheduleReconnect(false)];
      } else {
        if applicationCreated {
          log := log + [QuitApplication];
        }
        log := log + [BaseShutdown(false)];
      }
    }

    /** `exposed_show_dialog`: a known name whose dialog can be built opens one
      dialog, shown and appended; 'Publish' also takes the Publish slot; an
      unknown name logs an error in both logs and opens nothing. */
    method ShowDialog(name: string, constructs: bool)
      requires Valid()
      modifies this
      ensures Valid()
      ensures dialogs == old(dialogs)
                + (if KindForName(name).Some? && constructs then [Opened(KindForName(name).value)] else [])
      ensures publishDialog ==
                (if name == "Publish" && constructs then Some(|old(dialogs)|) else old(publishDialog))
      ensures log == old(log) + ShowDialogEvents(name, constructs, |old(dialogs)|)
      ensures connection == old(connection) && lastPingTime == old(lastPingTime)
      ensures applicationCreated == old(applicationCreated)
    {
      var kind := KindForName(name);
      if kind.None? {
        var message := InvalidDialogMessage(name);
        log := log + [LogError(message), UnityConsoleError(message)];
        return;
      }
      if !constructs {
        log := log + [LogException(ShowFailedMessage(name))];
        return;
      }
      var dialog := Opened(kind.value);
      if kind.value == PublishDialogKind {
        publishDialog := Some(|dialogs|);
      }
      LastIndexOfKindAppend(dialogs, dialog, PublishDialogKind);
      log := log + [ShowWindow(|dialogs|)];
      dialogs := dialogs + [dialog];
    }

    /** `exposed_publish`: the arguments go to the dialog in the Publish slot. */
    method Publish(arguments: string) returns (forward: PublishForward)
      requires Valid()
      modifies this
      ensures Valid()
      ensures forward == (if publishDialog.Some? then Forwarded(publishDialog.value) else NoPublishDialog)
      ensures forward.Forwarded? ==> forward.position < |dialogs| && dialogs[forward.position].kind == PublishDialogKind
      ensures log == old(log) + (if forward.Forwarded? then [ForwardPublish(forward.position, arguments)] else [])
      ensures connection == old(connection) && dialogs == old(dialogs) && publishDialog == old(publishDialog)
      ensures lastPingTime == old(lastPingTime) && applicationCreated == old(applicationCreated)
    {
      if publishDialog.None? {
        return NoPublishDialog;
      }
      forward := Forwarded(publishDialog.value);
      log := log + [ForwardPublish(publishDialog.value, arguments)];
    }
  }
}
