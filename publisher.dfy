/** The publish dialog (`source/ftrack_connect_unity/ui/publisher.py`): input
    validation and the asynchronous request to Unity, then the callback that
    creates the asset and version, copies components forward, routes the
    published components, publishes the version and updates the status of its task.
    Calls into the tracking service, the connector and the Unity API are
    recorded, in order, as effects; what they return is an input. */
module Publisher {
  import opened Text

  /** `object_typeid` of a Task. */
  const TaskObjectTypeId := "11c137c0-ee7e-4f9c-91c5-8c77cec22b2c"

  const BlankName := "assetName can not be blank"
  const BlankType := "assetType can not be blank"
  const NotInProject := "Publish failed: Selected asset not in project"
  const CheckConsole := "Publish failed. Please check the console."

  datatype Level = InfoLevel | WarningLevel | ErrorLevel

  /** A call the dialog makes, or a message it shows. */
  datatype Effect =
    | ShowMessage(text: string, level: Level)
    | SetProgress(percent: int)
    | AsyncPublish(assetType: string, options: string)
    | CreateAsset(name: string, assetType: string)
    | CreateVersion(comment: string, taskId: string)
    | AddUsesVersions(versions: seq<string>)
    | CreateComponent(name: string, path: string)
    | MakeReviewable(path: string)
    | LogError(message: string)
    | PublishVersion
    | SetStatus(status: StatusRecord)
    | PrintWarning(message: string)
    | ResetOptions

  /** A component of the version currently in the project. */
  datatype OldComponent = OldComponent(name: string, path: Option<string>)

  /** The version currently in the project: its id, the versions it uses, its components. */
  datatype OldVersion = OldVersion(id: string, usesVersions: seq<string>, components: seq<OldComponent>)

  /** A component produced by the connector's publish. */
  datatype PublishedComponent = PublishedComponent(componentName: string, path: string)

  /** What `connector.publishAsset` does: raises, or returns components and a message. */
  datatype ConnectorPublish = ConnectorRaises | Published(components: seq<PublishedComponent>, message: string)

  datatype TaskRecord = TaskRecord(objectTypeId: string, statusId: string)
  datatype StatusRecord = StatusRecord(name: string, statusId: string)

  /** Everything `publishAsset` reads from Unity's reply, the widgets and the
      stores. `componentError(i)` is the error raised by routing the `i`-th
      published component, if any. */
  datatype PublishInputs = PublishInputs(
    success: bool,
    errorMessage: string,
    taskId: string,
    status: string,
    options: string,
    prePublishOk: bool,
    prePublishMessage: string,
    oldVersion: Option<OldVersion>,
    connector: ConnectorPublish,
    componentError: nat -> Option<string>,
    task: Option<TaskRecord>,
    statuses: seq<StatusRecord>,
    setStatusError: Option<string>)

  // ---------------------------------------------------------------------
  // Specification of the callback

  predicate Excluded(name: string)
  {
    name == "thumbnail" || name == "ftrackreview-mp4"
  }

  /** `filePath if filePath else ''`. */
  function PathOrEmpty(path: Option<string>): string
  {
    if path.Some? then path.value else ""
  }

  /** The components created by copying the old version's components forward. */
  function CopyForward(components: seq<OldComponent>): seq<Effect>
  {
    if components == [] then []
    else
      var c := components[|components| - 1];
      CopyForward(components[..|components| - 1])
      + (if Excluded(c.name) then [] else [CreateComponent(c.name, PathOrEmpty(c.path))])
  }

  /** The effects of routing one published component. */
  function RouteOne(c: PublishedComponent, error: Option<string>): seq<Effect>
  {
    (if Contains(c.componentName, "reviewable") then [MakeReviewable(c.path)]
     else [CreateComponent(c.componentName, c.path)])
    + (if error.Some? then [LogError(error.value)] else [])
  }

  function Route(components: seq<PublishedComponent>, componentError: nat -> Option<string>): seq<Effect>
  {
    if components == [] then []
    else Route(components[..|components| - 1], componentError)
         + RouteOne(components[|components| - 1], componentError(|components| - 1))
  }

  /** The first status with the wanted name whose id differs from that of its task. */
  function FirstStatusToSet(statuses: seq<StatusRecord>, wanted: string, current: string): (r: Option<nat>)
    ensures r.None? <==> forall j :: 0 <= j < |statuses| ==>
              !(statuses[j].name == wanted && statuses[j].statusId != current)
    ensures r.Some? ==> (r.value < |statuses| && statuses[r.value].name == wanted
              && statuses[r.value].statusId != current
              && forall j :: 0 <= j < r.value ==> !(statuses[j].name == wanted && statuses[j].statusId != current))
  {
    if statuses == [] then None
    else if statuses[0].name == wanted && statuses[0].statusId != current then Some(0)
    else
      var r := FirstStatusToSet(statuses[1..], wanted, current);
      if r.None? then None else Some(r.value + 1)
  }

  function StatusEffects(p: PublishInputs): seq<Effect>
  {
    if p.task.Some? && p.task.value.objectTypeId == TaskObjectTypeId then
      var k := FirstStatusToSet(p.statuses, p.status, p.task.value.statusId);
      if k.None? then []
      else [SetStatus(p.statuses[k.value])] + (if p.setStatusError.Some? then [PrintWarning(p.setStatusError.value)] else [])
    else []
  }

  /** The effects after the asset and version exist: uses-versions and copied
      components (not for 'img'), the connector's publish, then routing,
      publishing, the status, the header message and the reset. */
  function AfterCreation(p: PublishInputs, assetType: string): seq<Effect>
    requires assetType != "img" ==> p.oldVersion.Some?
  {
    var copied :=
      if assetType != "img" then
        [AddUsesVersions(p.oldVersion.value.usesVersions + [p.oldVersion.value.id])]
        + CopyForward(p.oldVersion.value.components)
      else [];
    match p.connector
    case ConnectorRaises => copied + [SetProgress(100), ShowMessage(CheckConsole, ErrorLevel)]
    case Published(cs, message) =>
      copied
      + (if cs != [] then Route(cs, p.componentError) + [PublishVersion] else [SetProgress(100)])
      + StatusEffects(p)
      + [ShowMessage(message, InfoLevel), ResetOptions, SetProgress(100)]
  }

  /** The effects of `publishAsset`, given the asset name, type and comment the widgets hold. */
  function PublishEffects(p: PublishInputs, name: string, assetType: string, comment: string): seq<Effect>
  {
    if !p.success then [ShowMessage(p.errorMessage, WarningLevel), SetProgress(100)]
    else if name == "" then [ShowMessage(BlankName, WarningLevel)]
    else if !p.prePublishOk then [ShowMessage(p.prePublishMessage, WarningLevel)]
    else
      var created := [SetProgress(50), CreateAsset(name, assetType), CreateVersion(comment, p.taskId)];
      if assetType != "img" && p.oldVersion.None? then created + [ShowMessage(NotInProject, ErrorLevel)]
      else created + AfterCreation(p, assetType)
  }

  /** The checks all pass and the connector raises: `publishAsset` re-raises. */
  predicate PublishRaises(p: PublishInputs, name: string, assetType: string)
  {
    p.success && name != "" && p.prePublishOk && !(assetType != "img" && p.oldVersion.None?)
    && p.connector.ConnectorRaises?
  }

  /** The reply reaches the end of `publishAsset` (and the widgets are reset). */
  predicate PublishCompletes(p: PublishInputs, name: string, assetType: string)
  {
    p.success && name != "" && p.prePublishOk && !(assetType != "img" && p.oldVersion.None?)
    && p.connector.Published?
  }

  predicate CreatesNothing(effects: seq<Effect>)
  {
    forall e :: e in effects ==> !e.CreateAsset? && !e.CreateVersion?
  }

  // ---------------------------------------------------------------------
  // Properties of the callback

  /** A failed reply, an empty name or a failed pre-publish creates no asset and
      no version; otherwise the asset and then its version are created first. */
  lemma NothingCreatedBeforeChecksPass(p: PublishInputs, name: string, assetType: string, comment: string)
    ensures !p.success || name == "" || !p.prePublishOk ==> CreatesNothing(PublishEffects(p, name, assetType, comment))
    ensures !p.success ==> (PublishEffects(p, name, assetType, comment)
              == [ShowMessage(p.errorMessage, WarningLevel), SetProgress(100)])
    ensures p.success && name != "" && p.prePublishOk ==>
              var e := PublishEffects(p, name, assetType, comment);
              |e| >= 4 && e[1] == CreateAsset(name, assetType) && e[2] == CreateVersion(comment, p.taskId)
  {
    if p.success && name != "" && p.prePublishOk {
      if !(assetType != "img" && p.oldVersion.None?) {
        AfterCreationNonEmpty(p, assetType);
      }
    }
  }

  lemma AfterCreationNonEmpty(p: PublishInputs, assetType: string)
    requires assetType != "img" ==> p.oldVersion.Some?
    ensures |AfterCreation(p, assetType)| >= 1
  {
  }

  /** A missing old version (for a type other than 'img') is reported after the
      asset and version were created, and nothing undoes them. */
  lemma MissingOldVersionLeavesCreatedAsset(p: PublishInputs, name: string, assetType: string, comment: string)
    requires p.success && name != "" && p.prePublishOk
    requires assetType != "img" && p.oldVersion.None?
    ensures var e := PublishEffects(p, name, assetType, comment);
      CreateAsset(name, assetType) in e[..|e| - 1] && CreateVersion(comment, p.taskId) in e[..|e| - 1]
      && e[|e| - 1] == ShowMessage(NotInProject, ErrorLevel)
      && !PublishRaises(p, name, assetType) && !PublishCompletes(p, name, assetType)
  {
    var e := PublishEffects(p, name, assetType, comment);
    assert e[..|e| - 1] == [SetProgress(50), CreateAsset(name, assetType), CreateVersion(comment, p.taskId)];
  }

  /** Copying forward creates exactly the old components not named 'thumbnail'
      or 'ftrackreview-mp4', with their path or ''. */
  lemma {:induction false} CopyForwardSkipsExcluded(components: seq<OldComponent>)
    ensures forall e :: e in CopyForward(components) ==>
              e.CreateComponent? && !Excluded(e.name)
              && exists c :: c in components && e == CreateComponent(c.name, PathOrEmpty(c.path))
    ensures forall c :: c in components && !Excluded(c.name) ==>
              CreateComponent(c.name, PathOrEmpty(c.path)) in CopyForward(components)
    ensures |CopyForward(components)| <= |components|
  {
    if components != [] {
      var init := components[..|components| - 1];
      CopyForwardSkipsExcluded(init);
      assert components == init + [components[|components| - 1]];
    }
  }

  /** The uses-versions are the old version's, followed by the old version. */
  lemma UsesVersionsEndWithOldVersion(p: PublishInputs, name: string, assetType: string, comment: string)
    requires p.success && name != "" && p.prePublishOk
    requires assetType != "img" && p.oldVersion.Some?
    ensures var e := PublishEffects(p, name, assetType, comment);
      |e| > 3 && e[3] == AddUsesVersions(p.oldVersion.value.usesVersions + [p.oldVersion.value.id])
  {
  }

  /** Routing: a component whose name contains 'reviewable' goes to
      `makeReviewable`, any other to `createComponent`; a failure is logged and
      the loop goes on to the next component. */
  lemma {:induction false} RouteByName(components: seq<PublishedComponent>, componentError: nat -> Option<string>)
    ensures forall c :: c in components && Contains(c.componentName, "reviewable") ==>
              MakeReviewable(c.path) in Route(components, componentError)
    ensures forall c :: c in components && !Contains(c.componentName, "reviewable") ==>
              CreateComponent(c.componentName, c.path) in Route(components, componentError)
    ensures forall i :: 0 <= i < |components| && componentError(i).Some? ==>
              LogError(componentError(i).value) in Route(components, componentError)
  {
    if components != [] {
      var init := components[..|components| - 1];
      RouteByName(init, componentError);
      assert components == init + [components[|components| - 1]];
      forall i | 0 <= i < |components| && componentError(i).Some?
        ensures LogError(componentError(i).value) in Route(components, componentError)
      {
        if i < |init| {
          assert LogError(componentError(i).value) in Route(init, componentError);
        } else {
          assert LogError(componentError(i).value) in RouteOne(components[i], componentError(i));
        }
      }
    }
  }

  /** Every effect of the routing comes from a published component: a
      reviewable one, a created one named after the component, or a logged error;
      there are one or two effects per component. */
  lemma {:induction false} RouteOnlyFromComponents(components: seq<PublishedComponent>, componentError: nat -> Option<string>)
    ensures forall e :: e in Route(components, componentError) && e.MakeReviewable? ==>
              exists c :: c in components && Contains(c.componentName, "reviewable") && e.path == c.path
    ensures forall e :: e in Route(components, componentError) && e.CreateComponent? ==>
              exists c :: c in components && !Contains(c.componentName, "reviewable")
                          && e == CreateComponent(c.componentName, c.path)
    ensures forall e :: e in Route(components, componentError) ==>
              e.MakeReviewable? || e.CreateComponent? || e.LogError?
    ensures |components| <= |Route(components, componentError)| <= 2 * |components|
  {
    if components != [] {
      var init := components[..|components| - 1];
      RouteOnlyFromComponents(init, componentError);
      assert components == init + [components[|components| - 1]];
    }
  }

  /** The version is published exactly when the connector returned components. */
  lemma PublishedOnlyWithComponents(p: PublishInputs, name: string, assetType: string, comment: string)
    requires PublishCompletes(p, name, assetType)
    ensures PublishVersion in PublishEffects(p, name, assetType, comment) <==> p.connector.components != []
  {
    var cs := p.connector.components;
    var copied :=
      if assetType != "img" then
        [AddUsesVersions(p.oldVersion.value.usesVersions + [p.oldVersion.value.id])]
        + CopyForward(p.oldVersion.value.components)
      else [];
    var routed := if cs != [] then Route(cs, p.componentError) + [PublishVersion] else [SetProgress(100)];
    var closing := [ShowMessage(p.connector.message, InfoLevel), ResetOptions, SetProgress(100)];
    var created := [SetProgress(50), CreateAsset(name, assetType), CreateVersion(comment, p.taskId)];
    assert PublishEffects(p, name, assetType, comment) == created + (copied + routed + StatusEffects(p) + closing);
    InJoined(PublishVersion, copied, routed, StatusEffects(p), closing);
    RouteOnlyFromComponents(cs, p.componentError);
    StatusEffectsShape(p);
    CopyForwardShape(p, assetType);
  }

  lemma CopyForwardShape(p: PublishInputs, assetType: string)
    requires assetType != "img" ==> p.oldVersion.Some?
    ensures assetType != "img" ==> PublishVersion !in CopyForward(p.oldVersion.value.components)
  {
    if assetType != "img" {
      CopyForwardSkipsExcluded(p.oldVersion.value.components);
    }
  }

  /** The status changes only for a Task, to the first status with the wanted
      name and a different id; a failing change is only printed. */
  lemma StatusEffectsShape(p: PublishInputs)
    ensures |StatusEffects(p)| <= 2 && PublishVersion !in StatusEffects(p)
    ensures StatusEffects(p) != [] <==>
              p.task.Some? && p.task.value.objectTypeId == TaskObjectTypeId
              && exists j :: 0 <= j < |p.statuses| && p.statuses[j].name == p.status
                             && p.statuses[j].statusId != p.task.value.statusId
    ensures StatusEffects(p) != [] ==>
              exists k :: 0 <= k < |p.statuses| && StatusEffects(p)[0] == SetStatus(p.statuses[k])
                && p.statuses[k].name == p.status && p.statuses[k].statusId != p.task.value.statusId
                && forall j :: 0 <= j < k ==>
                     !(p.statuses[j].name == p.status && p.statuses[j].statusId != p.task.value.statusId)
  {
  }

  // ---------------------------------------------------------------------
  // The loops of the callback

  /** The loop over the old version's components. */
  method CopyComponents(components: seq<OldComponent>) returns (effects: seq<Effect>)
    ensures effects == CopyForward(components)
  {
    effects := [];
    var i := 0;
    while i < |components|
      invariant 0 <= i <= |components|
      invariant effects == CopyForward(components[..i])
    {
      CopyForwardStep(components, i);
      var compName := components[i].name;
      if compName == "thumbnail" || compName == "ftrackreview-mp4" {
        i := i + 1;
        continue;
      }
      var filePath := components[i].path;
      effects := effects + [CreateComponent(compName, if filePath.Some? then filePath.value else "")];
      i := i + 1;
    }
    assert components[..|components|] == components;
  }

  lemma RouteStep(components: seq<PublishedComponent>, componentError: nat -> Option<string>, n: nat)
    requires n < |components|
    ensures Route(components[..n + 1], componentError)
            == Route(components[..n], componentError) + RouteOne(components[n], componentError(n))
  {
    assert components[..n + 1][..n] == components[..n];
  }

  lemma CopyForwardStep(components: seq<OldComponent>, i: nat)
    requires i < |components|
    ensures var c := components[i];
      CopyForward(components[..i + 1])
      == CopyForward(components[..i]) + (if Excluded(c.name) then [] else [CreateComponent(c.name, PathOrEmpty(c.path))])
  {
    assert components[..i + 1][..i] == components[..i];
  }

  /** The loop over the published components. */
  method RouteComponents(components: seq<PublishedComponent>, componentError: nat -> Option<string>)
    returns (effects: seq<Effect>)
    ensures effects == Route(components, componentError)
  {
    effects := [];
    var n := 0;
    while n < |components|
      invariant 0 <= n <= |components|
      invariant effects == Route(components[..n], componentError)
    {
      RouteStep(components, componentError, n);
      var c := components[n];
      var one;
      if Contains(c.componentName, "reviewable") {
        one := [MakeReviewable(c.path)];
      } else {
        one := [CreateComponent(c.componentName, c.path)];
      }
      var error := componentError(n);
      if error.Some? {
        one := one + [LogError(error.value)];
      } else {
        assert one == one + [];
      }
      effects := effects + one;
      n := n + 1;
    }
    assert components[..|components|] == components;
  }

  /** The loop over `ftrack.getTaskStatuses()` that stops at the first match. */
  method FindStatus(statuses: seq<StatusRecord>, wanted: string, current: string) returns (k: Option<nat>)
    ensures k == FirstStatusToSet(statuses, wanted, current)
  {
    var i := 0;
    while i < |statuses|
      invariant 0 <= i <= |statuses|
      invariant forall j :: 0 <= j < i ==> !(statuses[j].name == wanted && statuses[j].statusId != current)
    {
      if statuses[i].name == wanted && statuses[i].statusId != current {
        return Some(i);
      }
      i := i + 1;
    }
    return None;
  }

  /** `getShotPath`: the parents' names from the outermost in, each followed by
      '.', then the shot's name. `parents` are in `getParents()` order. */
  method GetShotPath(parents: seq<string>, shotName: string) returns (shotPath: string)
    ensures shotPath == ConcatEachWith(Reverse(parents), ".") + shotName
  {
    shotPath := "";
    var i := |parents|;
    while i > 0
      invariant 0 <= i <= |parents|
      invariant shotPath == ConcatEachWith(Reverse(parents[i..]), ".")
    {
      i := i - 1;
      ReverseCons(parents[i], parents[i + 1..]);
      assert parents[i..] == [parents[i]] + parents[i + 1..];
      ConcatEachWithAppend(Reverse(parents[i + 1..]), parents[i], ".");
      shotPath := shotPath + parents[i] + ".";
    }
    assert parents[0..] == parents;
    shotPath := shotPath + shotName;
  }

  lemma ReverseCons(x: string, s: seq<string>)
    ensures Reverse([x] + s) == Reverse(s) + [x]
  {
    assert ([x] + s)[1..] == s;
  }

  lemma {:induction false} ConcatEachWithAppend(xs: seq<string>, x: string, sep: string)
    ensures ConcatEachWith(xs + [x], sep) == ConcatEachWith(xs, sep) + x + sep
  {
    if xs != [] {
      assert (xs + [x])[1..] == xs[1..] + [x];
      ConcatEachWithAppend(xs[1..], x, sep);
    } else {
      assert [x][1..] == [];
    }
  }

  /** With no '.' in any name, splitting the shot path at '.' gives back the
      parents from the outermost in, then the shot. */
  lemma {:induction false} ShotPathSplitsBack(names: seq<string>, shotName: string)
    requires forall i :: 0 <= i < |names| ==> '.' !in names[i]
    requires '.' !in shotName
    ensures Split(ConcatEachWith(names, ".") + shotName, '.') == names + [shotName]
  {
    if names == [] {
      assert ConcatEachWith(names, ".") + shotName == shotName;
      SplitNoSep(shotName, '.');
    } else {
      ShotPathSplitsBack(names[1..], shotName);
      var rest := ConcatEachWith(names[1..], ".") + shotName;
      assert ConcatEachWith(names, ".") + shotName == names[0] + ['.'] + rest;
      SplitAppend(names[0], '.', rest);
      assert names == [names[0]] + names[1..];
    }
  }

  // ---------------------------------------------------------------------
  // The dialog

  class PublishDialog {
    /** The dialog's own `assetType` / `assetName` attributes. */
    var assetType: string
    var assetName: string
    /** What the asset-options widget holds (what the user sees and edits). */
    var widgetAssetType: string
    var widgetAssetName: string
    /** The comment of the options widget. */
    var comment: string
    var effects: seq<Effect>

    constructor ()
      ensures assetType == "" && assetName == "" && widgetAssetType == "" && widgetAssetName == ""
      ensures comment == "" && effects == []
    {
      assetType := "";
      assetName := "";
      widgetAssetType := "";
      widgetAssetName := "";
      comment := "";
      effects := [];
    }

    /** `setAssetType`: the widget first, then the attribute. */
    method SetAssetType(t: string)
      modifies this
      ensures widgetAssetType == t && assetType == t
      ensures assetName == old(assetName) && widgetAssetName == old(widgetAssetName)
      ensures comment == old(comment) && effects == old(effects)
    {
      widgetAssetType := t;
      assetType := t;
    }

    /** `setAssetName`: the widget first, then the attribute. */
    method SetAssetName(n: string)
      modifies this
      ensures widgetAssetName == n && assetName == n
      ensures assetType == old(assetType) && widgetAssetType == old(widgetAssetType)
      ensures comment == old(comment) && effects == old(effects)
    {
      widgetAssetName := n;
      assetName := n;
    }

    method SetComment(c: string)
      modifies this
      ensures comment == c
      ensures assetType == old(assetType) && assetName == old(assetName)
      ensures widgetAssetType == old(widgetAssetType) && widgetAssetName == old(widgetAssetName)
      ensures effects == old(effects)
    {
      comment := c;
    }

    /** `OnPublishClicked`: a blank name, then a blank type, stops with a
        warning; otherwise one asynchronous Publish request, then progress 25. */
    method OnPublishClicked(options: string)
      modifies this
      ensures effects == old(effects) + ClickEffects(widgetAssetName, widgetAssetType, options)
      ensures assetType == old(assetType) && assetName == old(assetName)
      ensures widgetAssetType == old(widgetAssetType) && widgetAssetName == old(widgetAssetName)
      ensures comment == old(comment)
    {
      if widgetAssetName == "" {
        effects := effects + [ShowMessage(BlankName, WarningLevel)];
        return;
      }
      if widgetAssetType == "" {
        effects := effects + [ShowMessage(BlankType, WarningLevel)];
        return;
      }
      effects := effects + [AsyncPublish(widgetAssetType, options), SetProgress(25)];
    }

    /** `publishAsset`: the callback with Unity's reply. `raised` is true when
        the connector's exception is re-raised. */
    method PublishAsset(p: PublishInputs) returns (raised: bool)
      modifies this`effects, this`comment, this`widgetAssetType, this`widgetAssetName
      ensures effects == old(effects) + PublishEffects(p, old(widgetAssetName), old(widgetAssetType), old(comment))
      ensures raised == PublishRaises(p, old(widgetAssetName), old(widgetAssetType))
      ensures PublishCompletes(p, old(widgetAssetName), old(widgetAssetType)) ==>
                (widgetAssetType == assetType && widgetAssetName == assetName && comment == "")
      ensures !PublishCompletes(p, old(widgetAssetName), old(widgetAssetType)) ==>
                (widgetAssetType == old(widgetAssetType) && widgetAssetName == old(widgetAssetName)
                 && comment == old(comment))
    {
      raised := false;
      var assettype := widgetAssetType;
      var name := widgetAssetName;
      var shown: seq<Effect>;
      if !p.success {
        shown := [ShowMessage(p.errorMessage, WarningLevel), SetProgress(100)];
      } else if name == "" {
        shown := [ShowMessage(BlankName, WarningLevel)];
      } else if !p.prePublishOk {
        shown := [ShowMessage(p.prePublishMessage, WarningLevel)];
      } else {
        shown := [SetProgress(50), CreateAsset(name, assettype), CreateVersion(comment, p.taskId)];
        if assettype != "img" && p.oldVersion.None? {
          shown := shown + [ShowMessage(NotInProject, ErrorLevel)];
        } else {
          var after;
          after, raised := CompletePublish(p, assettype);
          shown := shown + after;
          if !raised {
            // setComment('') and resetOptions
            comment := "";
            widgetAssetType := assetType;
            widgetAssetName := assetName;
          }
        }
      }
      effects := effects + shown;
    }
  }

  /** The part of `publishAsset` after the version exists. */
  method CompletePublish(p: PublishInputs, assetType: string) returns (effects: seq<Effect>, raised: bool)
    requires assetType != "img" ==> p.oldVersion.Some?
    ensures effects == AfterCreation(p, assetType)
    ensures raised <==> p.connector.ConnectorRaises?
  {
    effects := [];
    if assetType != "img" {
      var previous := p.oldVersion.value;
      var copies := CopyComponents(previous.components);
      effects := [AddUsesVersions(previous.usesVersions + [previous.id])] + copies;
    }
    if p.connector.ConnectorRaises? {
      effects := effects + [SetProgress(100), ShowMessage(CheckConsole, ErrorLevel)];
      return effects, true;
    }
    var publishedComponents := p.connector.components;
    if publishedComponents != [] {
      var routed := RouteComponents(publishedComponents, p.componentError);
      effects := effects + routed + [PublishVersion];
    } else {
      effects := effects + [SetProgress(100)];
    }
    var status := UpdateTaskStatus(p);
    effects := effects + status + [ShowMessage(p.connector.message, InfoLevel), ResetOptions, SetProgress(100)];
    raised := false;
  }

  /** The status update at the end of `publishAsset`. */
  method UpdateTaskStatus(p: PublishInputs) returns (effects: seq<Effect>)
    ensures effects == StatusEffects(p)
  {
    effects := [];
    if p.task.Some? && p.task.value.objectTypeId == TaskObjectTypeId {
      var k := FindStatus(p.statuses, p.status, p.task.value.statusId);
      if k.Some? {
        effects := [SetStatus(p.statuses[k.value])];
        if p.setStatusError.Some? {
          effects := effects + [PrintWarning(p.setStatusError.value)];
        }
      }
    }
  }

  /** The effects of `OnPublishClicked` for what the widgets hold. */
  function ClickEffects(name: string, assetType: string, options: string): seq<Effect>
  {
    if name == "" then [ShowMessage(BlankName, WarningLevel)]
    else if assetType == "" then [ShowMessage(BlankType, WarningLevel)]
    else [AsyncPublish(assetType, options), SetProgress(25)]
  }

  /** A blank name or type shows a warning and sends nothing; otherwise exactly
      one request, with the widget's type and the options, then progress 25. */
  lemma ClickSendsOnceWhenValid(name: string, assetType: string, options: string)
    ensures var e := ClickEffects(name, assetType, options);
      ((exists i :: 0 <= i < |e| && e[i].AsyncPublish?) <==> name != "" && assetType != "")
      && (forall i, j :: 0 <= i < j < |e| ==> !(e[i].AsyncPublish? && e[j].AsyncPublish?))
      && (name != "" && assetType != "" ==>
            e[0] == AsyncPublish(assetType, options) && e[|e| - 1] == SetProgress(25))
      && (name == "" || assetType == "" ==> |e| == 1 && e[0].ShowMessage? && e[0].level == WarningLevel)
      && (name == "" ==> e[0].text == BlankName)
  {
  }
}
