/** The ftrack Connect integration hook (`resource/hook/discover_integration.py`):
    the discovery answer, the environment handed to a launched Unity editor,
    and the two event subscriptions `register` makes. The file-system layout
    (`cwd`, `sources`, the absolute paths) is given as parameters, and the
    tracking-server lookup of the selected task as a function. */
module DiscoverIntegration {
  import opened Text

  const IntegrationName := "ftrack-connect-unity-engine"

  /** The `integration` entry of a handler's answer; `env` is absent from the
      discovery answer and present in the launch answer. */
  datatype Integration = Integration(name: string, version: string, env: Option<map<string, string>>)

  /** The directories the hook computes from its own location. */
  datatype Layout = Layout(sources: string, resourcePath: string, connectUnity: string, pathSep: char)

  /** A task as the server returns it for `session.get('Context', id)`. */
  datatype Task = Task(id: string, parentId: string, parentAttributes: map<string, string>)

  /** The parts of the session the hook reads. */
  datatype Session = Session(apiUser: string, apiKey: string, context: string -> Task)

  /** `event['data']`: `context` may be missing, and so may its `selection`. */
  datatype Selected = Selected(entityId: string)
  datatype Context = Context(selection: Option<seq<Selected>>)
  datatype EventData = EventData(context: Option<Context>)

  /** `on_discover_unity_engine_integration`. */
  function OnDiscover(version: string): (r: Integration)
    ensures r.name == IntegrationName && r.version == version && r.env.None?
  {
    Integration(IntegrationName, version, None)
  }

  /** The selection read with both defaults. */
  function SelectionOf(data: EventData): (r: seq<Selected>)
    ensures data.context.None? ==> r == []
    ensures data.context.Some? && data.context.value.selection.None? ==> r == []
    ensures data.context.Some? && data.context.value.selection.Some? ==> r == data.context.value.selection.value
  {
    match data.context
    case None => []
    case Some(c) => if c.selection.None? then [] else c.selection.value
  }

  /** A custom attribute read with a default (`dict.get`). */
  function AttributeOr(attributes: map<string, string>, key: string, default: string): (r: string)
    ensures key in attributes ==> r == attributes[key]
    ensures key !in attributes ==> r == default
  {
    if key in attributes then attributes[key] else default
  }

  const BaseKeys: set<string> := {"PYTHONPATH.prepend", "FTRACK_UNITY_RESOURCE_PATH", "QT_PREFERRED_BINDING", "LOGNAME.set", "FTRACK_APIKEY.set"}
  const SelectionKeys: set<string> := {"FTRACK_TASKID.set", "FTRACK_SHOTID.set", "FS.set", "FE.set"}

  /** `on_launch_unity_engine_integration`: the discovery answer with the
      environment added; the four task-id keys only when something is selected, taken
      from the first selected entity. */
  method OnLaunch(version: string, layout: Layout, session: Session, data: EventData) returns (r: Integration)
    ensures r.name == IntegrationName && r.version == version && r.env.Some?
    ensures var env := r.env.value;
      var selection := SelectionOf(data);
      env.Keys == BaseKeys + (if selection == [] then {} else SelectionKeys)
      && env["PYTHONPATH.prepend"] == layout.connectUnity + [layout.pathSep] + layout.sources
      && env["FTRACK_UNITY_RESOURCE_PATH"] == layout.resourcePath
      && env["QT_PREFERRED_BINDING"] == "PySide"
      && env["LOGNAME.set"] == session.apiUser
      && env["FTRACK_APIKEY.set"] == session.apiKey
      && (selection != [] ==>
            var task := session.context(selection[0].entityId);
            env["FTRACK_TASKID.set"] == task.id
            && env["FTRACK_SHOTID.set"] == task.parentId
            && env["FS.set"] == AttributeOr(task.parentAttributes, "fstart", "1.0")
            && env["FE.set"] == AttributeOr(task.parentAttributes, "fend", "100.0"))
  {
    var base := OnDiscover(version);
    var env: map<string, string> := map[
      "PYTHONPATH.prepend" := layout.connectUnity + [layout.pathSep] + layout.sources,
      "FTRACK_UNITY_RESOURCE_PATH" := layout.resourcePath,
      "QT_PREFERRED_BINDING" := "PySide",
      "LOGNAME.set" := session.apiUser,
      "FTRACK_APIKEY.set" := session.apiKey
    ];
    var selection := SelectionOf(data);
    if selection != [] {
      var task := session.context(selection[0].entityId);
      env := env["FTRACK_TASKID.set" := task.id];
      env := env["FTRACK_SHOTID.set" := task.parentId];
      env := env["FS.set" := AttributeOr(task.parentAttributes, "fstart", "1.0")];
      env := env["FE.set" := AttributeOr(task.parentAttributes, "fend", "100.0")];
    }
    r := base.(env := Some(env));
  }

  /** The launched editor reads `PYTHONPATH` back as the two directories, the
      package first, when neither holds the path separator. */
  lemma PythonPathSplitsBack(layout: Layout)
    requires layout.pathSep !in layout.connectUnity && layout.pathSep !in layout.sources
    ensures Split(layout.connectUnity + [layout.pathSep] + layout.sources, layout.pathSep) == [layout.connectUnity, layout.sources]
  {
    SplitAppend(layout.connectUnity, layout.pathSep, layout.sources);
    SplitNoSep(layout.sources, layout.pathSep);
  }

  /** The two handlers `register` subscribes. */
  datatype Handler = DiscoverHandler | LaunchHandler
  datatype Subscription = Subscription(expression: string, handler: Handler)

  /** What `register` is given: a session or anything else. */
  datatype Registrant = ApiSession(session: Session) | NotASession

  function TopicFilter(topic: string): string
  {
    "topic=" + topic + " and data.application.identifier=unity-*"
  }

  /** `register`: no subscription unless given a session, otherwise discovery
      then launch, both for Unity applications only. */
  function Register(registrant: Registrant): (r: seq<Subscription>)
    ensures registrant.NotASession? <==> r == []
    ensures registrant.ApiSession? ==>
      |r| == 2 && r[0].handler == DiscoverHandler && r[1].handler == LaunchHandler
      && r[0].expression == TopicFilter("ftrack.connect.application.discover")
      && r[1].expression == TopicFilter("ftrack.connect.application.launch")
  {
    match registrant
    case NotASession => []
    case ApiSession(_) => [
      Subscription(TopicFilter("ftrack.connect.application.discover"), DiscoverHandler),
      Subscription(TopicFilter("ftrack.connect.application.launch"), LaunchHandler)
    ]
  }

  /** The filter text determines the topic, so the two subscriptions never
      answer the same event. */
  lemma TopicFilterInjective(a: string, b: string)
    ensures TopicFilter(a) == TopicFilter(b) ==> a == b
  {
    if TopicFilter(a) == TopicFilter(b) {
      var n := |"topic="|;
      assert |a| == |b|;
      assert TopicFilter(a)[n..n + |a|] == a;
      assert TopicFilter(b)[n..n + |b|] == b;
    }
  }

  lemma SubscriptionsAreDistinct(session: Session)
    ensures var r := Register(ApiSession(session)); r[0].expression != r[1].expression
  {
    var d, l := "ftrack.connect.application.discover", "ftrack.connect.application.launch";
    TopicFilterInjective(d, l);
    assert d[27] != l[27];
  }
}
