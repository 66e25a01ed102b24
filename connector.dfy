/** The Unity connector of the ftrack connect framework
    (`source/ftrack_connect_unity/connector/unity_connector.py`): dispatch of
    import, publish and version changes to the registered asset types, the
    recognition of ftrack-imported assets by the JSON metadata stored on
    their Unity importers, the scans over the project's assets and the
    selection, and the shot/sequence membership test of a task. The Unity
    editor and the ftrack server are inputs: the guids an asset search
    returns, the decoded metadata of a guid's importer, the selection, and
    the answers of server queries. */
module UnityConnector {
  import opened Text
  import UnityAssets

  /** `getConnectorName`. */
  const ConnectorName := "unity"

  /** The key whose truthy value marks metadata written by this integration. */
  const VersionKey := "ftrack_connect_unity_version"

  /** What a Python call returns, or the exception it raises. */
  datatype Outcome<T> = Returns(value: T) | Raises(error: string)

  // ---------------------------------------------------------------------
  // Dispatch to the asset types

  function UnsupportedWarning(assetType: string): string
  {
    "Asset Type \"" + assetType + "\" not supported by the Unity connector"
  }

  /** Where `importAsset` sends a request: to the registered class, to a
      warning, or (as written) into a NameError. */
  datatype ImportDispatch =
    | ImportDelegated(cls: UnityAssets.AssetTypeClass)
    | ImportWarned(warning: string)
    | ImportRaisesNameError

  /** Where `changeVersion` sends a request; a warned request returns False. */
  datatype ChangeDispatch =
    | ChangeDelegated(cls: UnityAssets.AssetTypeClass)
    | ChangeWarned(warning: string, result: bool)
    | ChangeRaisesNameError

  /** Where `publishAsset` sends a request: to the class with the number of
      positional arguments passed, or an empty answer. */
  datatype PublishDispatch =
    | PublishDelegated(cls: UnityAssets.AssetTypeClass, arguments: nat)
    | PublishUnsupported(components: seq<string>, message: string)

  /** `importAsset` as written: the unsupported branch calls `Logger.warning`,
      and the module binds no name `Logger` (its logger is `_logger`). */
  function ImportAssetAsWritten(registry: map<string, UnityAssets.AssetTypeClass>, assetType: string): ImportDispatch
  {
    if assetType in registry then ImportDelegated(registry[assetType]) else ImportRaisesNameError
  }

  /** `importAsset` as intended: an unsupported type is warned about. */
  function ImportAsset(registry: map<string, UnityAssets.AssetTypeClass>, assetType: string): (d: ImportDispatch)
    ensures d.ImportDelegated? <==> assetType in registry
    ensures d.ImportDelegated? ==> d.cls == registry[assetType]
    ensures !d.ImportDelegated? ==> d == ImportWarned(UnsupportedWarning(assetType))
  {
    if assetType in registry then ImportDelegated(registry[assetType]) else ImportWarned(UnsupportedWarning(assetType))
  }

  /** `changeVersion` as written, with the same undefined name. */
  function ChangeVersionAsWritten(registry: map<string, UnityAssets.AssetTypeClass>, assetType: string): ChangeDispatch
  {
    if assetType in registry then ChangeDelegated(registry[assetType]) else ChangeRaisesNameError
  }

  /** `changeVersion` as intended: an unsupported type is warned about and
      False is returned. */
  function ChangeVersion(registry: map<string, UnityAssets.AssetTypeClass>, assetType: string): (d: ChangeDispatch)
    ensures d.ChangeDelegated? <==> assetType in registry
    ensures d.ChangeDelegated? ==> d.cls == registry[assetType]
    ensures !d.ChangeDelegated? ==> d == ChangeWarned(UnsupportedWarning(assetType), false)
  {
    if assetType in registry then ChangeDelegated(registry[assetType])
    else ChangeWarned(UnsupportedWarning(assetType), false)
  }

  /** `publishAsset`: the registered class is called with the published file
      path and the asset object; an unsupported type gets no components. */
  function PublishAsset(registry: map<string, UnityAssets.AssetTypeClass>, assetType: string): (d: PublishDispatch)
    ensures d.PublishDelegated? <==> assetType in registry
    ensures d.PublishDelegated? ==> d == PublishDelegated(registry[assetType], 2)
    ensures d.PublishUnsupported? ==> d.components == [] && d.message == "assetType not supported"
  {
    if assetType in registry then PublishDelegated(registry[assetType], 2)
    else PublishUnsupported([], "assetType not supported")
  }

  /** For an unregistered type the written import and version change raise
      where the intended ones warn (and the version change returns False);
      for a registered type both delegate to the same class. */
  lemma UnsupportedTypeRaisesAsWritten(registry: map<string, UnityAssets.AssetTypeClass>, assetType: string)
    ensures assetType !in registry ==>
              ImportAssetAsWritten(registry, assetType) == ImportRaisesNameError
              && ImportAsset(registry, assetType) == ImportWarned(UnsupportedWarning(assetType))
              && ChangeVersionAsWritten(registry, assetType) == ChangeRaisesNameError
              && ChangeVersion(registry, assetType) == ChangeWarned(UnsupportedWarning(assetType), false)
    ensures assetType in registry ==>
              ImportAssetAsWritten(registry, assetType) == ImportAsset(registry, assetType)
              && ChangeVersionAsWritten(registry, assetType) == ChangeVersion(registry, assetType)
  {
  }

  /** Publishing a 'geo' asset reaches the geometry stub with two positional
      arguments, which it does not accept. */
  lemma GeometryPublishRaises(registry: map<string, UnityAssets.AssetTypeClass>)
    requires "geo" in registry && registry["geo"] == UnityAssets.GeometryAsset
    ensures PublishAsset(registry, "geo") == PublishDelegated(UnityAssets.GeometryAsset, 2)
    ensures UnityAssets.PublishStub(PublishAsset(registry, "geo").arguments) == UnityAssets.RaisesArgumentCount
  {
  }

  // ---------------------------------------------------------------------
  // Recognising ftrack assets

  /** A JSON value as `json.loads` yields it; containers nested inside the
      metadata are kept only by their size, which is all their truth value
      depends on. */
  datatype JsonValue =
    | JNull
    | JBool(b: bool)
    | JNumber(n: int)
    | JString(s: string)
    | JList(length: nat)
    | JObject(size: nat)

  /** The metadata of a guid's importer: not decodable (no importer, no or
      invalid user data), decoded to something other than an object, or an
      object. */
  datatype Metadata = Undecodable | NotAnObject(value: JsonValue) | JsonObject(fields: map<string, JsonValue>)

  /** Python truth of a decoded value. */
  predicate Truthy(v: JsonValue)
  {
    match v
    case JNull => false
    case JBool(b) => b
    case JNumber(n) => n != 0
    case JString(s) => s != []
    case JList(length) => length > 0
    case JObject(size) => size > 0
  }

  /** `dict.get`: a missing key reads as None, which is what JSON null decodes to. */
  function Get(fields: map<string, JsonValue>, key: string): JsonValue
  {
    if key in fields then fields[key] else JNull
  }

  /** The pair `_ftrack_asset_from_guid` returns for a tracked asset. */
  datatype TrackedAsset = TrackedAsset(componentId: JsonValue, guid: string)

  datatype Recognition = NotTracked | Recognized(asset: TrackedAsset) | RaisesAttributeError

  /** `_ftrack_asset_from_guid`: undecodable metadata is not an ftrack asset;
      metadata that is not an object has no `get`, and the AttributeError
      escapes; an object is an ftrack asset when its version key is truthy. */
  function FromGuid(guid: string, m: Metadata): Recognition
  {
    match m
    case Undecodable => NotTracked
    case NotAnObject(_) => RaisesAttributeError
    case JsonObject(fields) =>
      if Truthy(Get(fields, VersionKey)) then Recognized(TrackedAsset(Get(fields, "componentId"), guid))
      else NotTracked
  }

  /** A guid is recognised exactly when its metadata is an object with a
      truthy version key, and then the pair carries its component id and the
      guid itself; only non-object metadata raises. */
  lemma FromGuidRecognisesMarkedMetadata(guid: string, m: Metadata)
    ensures FromGuid(guid, m).Recognized? <==> m.JsonObject? && Truthy(Get(m.fields, VersionKey))
    ensures FromGuid(guid, m).Recognized? ==>
              FromGuid(guid, m).asset == TrackedAsset(Get(m.fields, "componentId"), guid)
    ensures FromGuid(guid, m).RaisesAttributeError? <==> m.NotAnObject?
  {
  }

  function Prepend<T>(found: seq<T>, o: Outcome<seq<T>>): Outcome<seq<T>>
  {
    match o
    case Returns(rest) => Returns(found + rest)
    case Raises(e) => Raises(e)
  }

  /** What `getAssets` returns for the guids of the model search. */
  function TrackedAssets(guids: seq<string>, metadataOf: string -> Metadata): Outcome<seq<TrackedAsset>>
  {
    if guids == [] then Returns([])
    else match FromGuid(guids[0], metadataOf(guids[0]))
      case RaisesAttributeError => Raises("AttributeError")
      case NotTracked => TrackedAssets(guids[1..], metadataOf)
      case Recognized(a) => Prepend([a], TrackedAssets(guids[1..], metadataOf))
  }

  /** `getAssets`: the recognised assets, in search order. */
  method GetAssets(guids: seq<string>, metadataOf: string -> Metadata) returns (r: Outcome<seq<TrackedAsset>>)
    ensures r == TrackedAssets(guids, metadataOf)
  {
    var found: seq<TrackedAsset> := [];
    var i := 0;
    assert guids[i..] == guids;
    PrependNothing(TrackedAssets(guids, metadataOf));
    while i < |guids|
      invariant 0 <= i <= |guids|
      invariant TrackedAssets(guids, metadataOf) == Prepend(found, TrackedAssets(guids[i..], metadataOf))
    {
      assert guids[i..][1..] == guids[i + 1..];
      match FromGuid(guids[i], metadataOf(guids[i])) {
        case RaisesAttributeError =>
          return Raises("AttributeError");
        case NotTracked =>
        case Recognized(a) =>
          assert found + ([a] + []) == found + [a];
          PrependTwice(found, [a], TrackedAssets(guids[i + 1..], metadataOf));
          found := found + [a];
      }
      i := i + 1;
    }
    assert guids[i..] == [];
    assert found + [] == found;
    return Returns(found);
  }

  lemma PrependNothing<T>(o: Outcome<seq<T>>)
    ensures Prepend([], o) == o
  {
    if o.Returns? {
      assert [] + o.value == o.value;
    }
  }

  lemma PrependTwice<T>(a: seq<T>, b: seq<T>, o: Outcome<seq<T>>)
    ensures Prepend(a, Prepend(b, o)) == Prepend(a + b, o)
  {
    if o.Returns? {
      assert a + (b + o.value) == a + b + o.value;
    }
  }

  /** The scan raises exactly when some guid's metadata is not an object;
      otherwise it returns exactly the recognitions of the guids. */
  lemma {:induction false} TrackedAssetsExactlyRecognised(guids: seq<string>, metadataOf: string -> Metadata)
    ensures TrackedAssets(guids, metadataOf).Raises? <==>
              exists i :: 0 <= i < |guids| && metadataOf(guids[i]).NotAnObject?
    ensures TrackedAssets(guids, metadataOf).Returns? ==>
              forall a :: a in TrackedAssets(guids, metadataOf).value <==>
                exists i :: 0 <= i < |guids| && FromGuid(guids[i], metadataOf(guids[i])) == Recognized(a)
  {
    if guids != [] {
      var rest := guids[1..];
      TrackedAssetsExactlyRecognised(rest, metadataOf);
      forall i | 0 <= i < |rest| ensures rest[i] == guids[i + 1] { }
      var first := FromGuid(guids[0], metadataOf(guids[0]));
      if exists i :: 0 <= i < |guids| && metadataOf(guids[i]).NotAnObject? {
        var i :| 0 <= i < |guids| && metadataOf(guids[i]).NotAnObject?;
        if i > 0 { assert metadataOf(rest[i - 1]).NotAnObject?; }
      }
      if TrackedAssets(guids, metadataOf).Returns? {
        var all := TrackedAssets(guids, metadataOf).value;
        forall a
          ensures a in all <==> exists i :: 0 <= i < |guids| && FromGuid(guids[i], metadataOf(guids[i])) == Recognized(a)
        {
          if exists i :: 0 <= i < |guids| && FromGuid(guids[i], metadataOf(guids[i])) == Recognized(a) {
            var i :| 0 <= i < |guids| && FromGuid(guids[i], metadataOf(guids[i])) == Recognized(a);
            if i > 0 { assert FromGuid(rest[i - 1], metadataOf(rest[i - 1])) == Recognized(a); }
          }
        }
      }
    }
  }

  // ---------------------------------------------------------------------
  // Finding one asset

  /** The metadata marks an ftrack asset of this name and type whose version
      (as the server answers) belongs to task `taskId`. */
  predicate MatchesAsset(m: Metadata, assetName: string, assetType: string, taskId: string,
                         taskOfVersion: JsonValue -> string)
  {
    m.JsonObject? && Truthy(Get(m.fields, VersionKey))
    && Get(m.fields, "assetName") == JString(assetName)
    && Get(m.fields, "assetType") == JString(assetType)
    && taskOfVersion(Get(m.fields, "assetVersionId")) == taskId
  }

  /** A guid that ends the search: a match, or metadata without `get`. */
  predicate Decisive(m: Metadata, assetName: string, assetType: string, taskId: string,
                     taskOfVersion: JsonValue -> string)
  {
    m.NotAnObject? || MatchesAsset(m, assetName, assetType, taskId, taskOfVersion)
  }

  /** What `getAsset` returns: the version id of the first matching asset. */
  function FindAsset(guids: seq<string>, metadataOf: string -> Metadata, assetName: string, assetType: string,
                     taskId: string, taskOfVersion: JsonValue -> string): Outcome<Option<JsonValue>>
  {
    if guids == [] then Returns(None)
    else
      var m := metadataOf(guids[0]);
      if m.NotAnObject? then Raises("AttributeError")
      else if MatchesAsset(m, assetName, assetType, taskId, taskOfVersion) then Returns(Some(Get(m.fields, "assetVersionId")))
      else FindAsset(guids[1..], metadataOf, assetName, assetType, taskId, taskOfVersion)
  }

  /** `getAsset`. */
  method GetAsset(guids: seq<string>, metadataOf: string -> Metadata, assetName: string, assetType: string,
                  taskId: string, taskOfVersion: JsonValue -> string) returns (r: Outcome<Option<JsonValue>>)
    ensures r == FindAsset(guids, metadataOf, assetName, assetType, taskId, taskOfVersion)
  {
    var i := 0;
    while i < |guids|
      invariant 0 <= i <= |guids|
      invariant FindAsset(guids, metadataOf, assetName, assetType, taskId, taskOfVersion)
                == FindAsset(guids[i..], metadataOf, assetName, assetType, taskId, taskOfVersion)
    {
      assert guids[i..][1..] == guids[i + 1..];
      var m := metadataOf(guids[i]);
      if m.Undecodable? {
        i := i + 1;
        continue;
      }
      if m.NotAnObject? {
        return Raises("AttributeError");
      }
      if MatchesAsset(m, assetName, assetType, taskId, taskOfVersion) {
        return Returns(Some(Get(m.fields, "assetVersionId")));
      }
      i := i + 1;
    }
    return Returns(None);
  }

  /** The search answers None exactly when no guid is decisive; otherwise the
      first decisive guid decides: its version id, or the AttributeError. */
  lemma {:induction false} FindAssetIsFirstDecisive(guids: seq<string>, metadataOf: string -> Metadata, assetName: string,
                                                    assetType: string, taskId: string, taskOfVersion: JsonValue -> string)
    ensures FindAsset(guids, metadataOf, assetName, assetType, taskId, taskOfVersion) == Returns(None) <==>
              forall i :: 0 <= i < |guids| ==> !Decisive(metadataOf(guids[i]), assetName, assetType, taskId, taskOfVersion)
    ensures forall k :: 0 <= k < |guids| && Decisive(metadataOf(guids[k]), assetName, assetType, taskId, taskOfVersion)
                        && (forall j :: 0 <= j < k ==> !Decisive(metadataOf(guids[j]), assetName, assetType, taskId, taskOfVersion)) ==>
              FindAsset(guids, metadataOf, assetName, assetType, taskId, taskOfVersion)
              == (if metadataOf(guids[k]).NotAnObject? then Raises("AttributeError")
                  else Returns(Some(Get(metadataOf(guids[k]).fields, "assetVersionId"))))
  {
    if guids != [] {
      var rest := guids[1..];
      FindAssetIsFirstDecisive(rest, metadataOf, assetName, assetType, taskId, taskOfVersion);
      forall i | 0 <= i < |rest| ensures rest[i] == guids[i + 1] { }
      forall k | 0 <= k < |guids| && Decisive(metadataOf(guids[k]), assetName, assetType, taskId, taskOfVersion)
                 && (forall j :: 0 <= j < k ==> !Decisive(metadataOf(guids[j]), assetName, assetType, taskId, taskOfVersion))
        ensures FindAsset(guids, metadataOf, assetName, assetType, taskId, taskOfVersion)
                == (if metadataOf(guids[k]).NotAnObject? then Raises("AttributeError")
                    else Returns(Some(Get(metadataOf(guids[k]).fields, "assetVersionId"))))
      {
        if k > 0 {
          assert !Decisive(metadataOf(guids[0]), assetName, assetType, taskId, taskOfVersion);
          assert rest[k - 1] == guids[k];
          forall j | 0 <= j < k - 1
            ensures !Decisive(metadataOf(rest[j]), assetName, assetType, taskId, taskOfVersion)
          {
            assert rest[j] == guids[j + 1];
          }
        }
      }
      if forall i :: 0 <= i < |rest| ==> !Decisive(metadataOf(rest[i]), assetName, assetType, taskId, taskOfVersion) {
        assert forall i :: 0 < i < |guids| ==> guids[i] == rest[i - 1];
      }
    }
  }

  // ---------------------------------------------------------------------
  // The selection

  /** The guids of the selected game objects' prefab assets, skipping an
      empty path and an empty guid. */
  function PrefabGuids(prefabPaths: seq<string>, guidOfPath: string -> string): set<string>
  {
    set p | p in prefabPaths && p != "" && guidOfPath(p) != "" :: guidOfPath(p)
  }

  /** The candidate set `getSelectedAssets` builds: the selected assets' guids
      and the prefab guids of the selected game objects. */
  method CandidateGuids(assetGuids: seq<string>, prefabPaths: seq<string>, guidOfPath: string -> string)
    returns (guids: set<string>)
    ensures guids == (set g | g in assetGuids) + PrefabGuids(prefabPaths, guidOfPath)
  {
    guids := set g | g in assetGuids;
    var i := 0;
    while i < |prefabPaths|
      invariant 0 <= i <= |prefabPaths|
      invariant guids == (set g | g in assetGuids) + PrefabGuids(prefabPaths[..i], guidOfPath)
    {
      assert prefabPaths[..i + 1] == prefabPaths[..i] + [prefabPaths[i]];
      var path := prefabPaths[i];
      if path != "" {
        var guid := guidOfPath(path);
        if guid != "" {
          guids := guids + {guid};
        }
      }
      i := i + 1;
    }
    assert prefabPaths[..i] == prefabPaths;
  }

  predicate NoDuplicates<T(==)>(s: seq<T>)
  {
    forall i, j :: 0 <= i < j < |s| ==> s[i] != s[j]
  }

  /** The loop of `getSelectedAssets` over the candidate set (in whatever
      order the set yields them): raises when some candidate's metadata is
      not an object, and otherwise lists each recognised candidate once. */
  method RecognisedAmong(candidates: set<string>, metadataOf: string -> Metadata) returns (r: Outcome<seq<string>>)
    ensures r.Raises? <==> exists g :: g in candidates && metadataOf(g).NotAnObject?
    ensures r.Returns? ==>
              NoDuplicates(r.value)
              && forall g :: g in r.value <==> g in candidates && FromGuid(g, metadataOf(g)).Recognized?
  {
    var remaining := candidates;
    var found: seq<string> := [];
    while remaining != {}
      invariant remaining <= candidates
      invariant NoDuplicates(found)
      invariant forall g :: g in found <==> g in candidates - remaining && FromGuid(g, metadataOf(g)).Recognized?
      invariant forall g :: g in candidates - remaining ==> !metadataOf(g).NotAnObject?
      decreases remaining
    {
      var g :| g in remaining;
      var recognition := FromGuid(g, metadataOf(g));
      if recognition.RaisesAttributeError? {
        return Raises("AttributeError");
      }
      if recognition.Recognized? {
        found := found + [g];
      }
      remaining := remaining - {g};
    }
    return Returns(found);
  }

  /** `getSelectedAssets`. */
  method GetSelectedAssets(assetGuids: seq<string>, prefabPaths: seq<string>, guidOfPath: string -> string,
                           metadataOf: string -> Metadata) returns (r: Outcome<seq<string>>)
    ensures var candidates := (set g | g in assetGuids) + PrefabGuids(prefabPaths, guidOfPath);
      (r.Raises? <==> exists g :: g in candidates && metadataOf(g).NotAnObject?)
      && (r.Returns? ==>
            NoDuplicates(r.value)
            && forall g :: g in r.value <==> g in candidates && FromGuid(g, metadataOf(g)).Recognized?)
  {
    var candidates := CandidateGuids(assetGuids, prefabPaths, guidOfPath);
    r := RecognisedAmong(candidates, metadataOf);
  }

  // ---------------------------------------------------------------------
  // Selecting and removing

  /** The editor calls the connector makes. */
  datatype UnityCall = SelectObjectsWithGuids(guids: seq<string>) | DeleteAsset(path: string)

  /** `selectObjects`: an empty list selects nothing. */
  function SelectObjects(guids: seq<string>): seq<UnityCall>
  {
    if |guids| < 1 then [] else [SelectObjectsWithGuids(guids)]
  }

  /** `selectObject`: the one-element case of `selectObjects`. */
  function SelectObject(guid: string): seq<UnityCall>
  {
    SelectObjects([guid])
  }

  /** Selection calls the editor at most once, with exactly the guids given,
      and only for a non-empty list; a single guid is always selected. */
  lemma SelectionCallsOnce(guids: seq<string>, guid: string)
    ensures |SelectObjects(guids)| <= 1
    ensures SelectObjects(guids) == [] <==> guids == []
    ensures forall c :: c in SelectObjects(guids) ==> c == SelectObjectsWithGuids(guids)
    ensures SelectObject(guid) == [SelectObjectsWithGuids([guid])]
  {
  }

  /** `removeObject`: the asset at the guid's path is deleted, unless it has none. */
  function RemoveObject(guid: string, pathOf: string -> string): (calls: seq<UnityCall>)
  {
    if pathOf(guid) == "" then [] else [DeleteAsset(pathOf(guid))]
  }

  /** Removal deletes at most the guid's own asset, and does so exactly when
      the guid resolves to a path. */
  lemma RemovalDeletesOnlyOwnAsset(guid: string, pathOf: string -> string)
    ensures |RemoveObject(guid, pathOf)| <= 1
    ensures RemoveObject(guid, pathOf) != [] <==> pathOf(guid) != ""
    ensures forall c :: c in RemoveObject(guid, pathOf) ==> c == DeleteAsset(pathOf(guid))
  {
  }

  // ---------------------------------------------------------------------
  // Shot or sequence membership

  /** One entry of a task's `link` attribute: an entity type and id. */
  datatype Link = Link(entityType: string, id: string)

  predicate IsShotOrSequence(className: string)
  {
    className == "Shot" || className == "Sequence"
  }

  /** `isTaskPartOfShotOrSequence` for a task's links (that task itself
      last); `classNameOf` is the class of the entity the session returns for
      a link. An empty list makes `pop` raise. */
  method IsTaskPartOfShotOrSequence(links: seq<Link>, classNameOf: Link -> string) returns (r: Outcome<bool>)
    ensures links == [] ==> r == Raises("IndexError")
    ensures links != [] ==>
              r == Returns(exists i :: 0 <= i < |links| - 1 && IsShotOrSequence(classNameOf(links[i])))
  {
    if links == [] {
      return Raises("IndexError");
    }
    var parents := links[..|links| - 1];
    parents := Reverse(parents);
    var i := 0;
    while i < |parents|
      invariant 0 <= i <= |parents| == |links| - 1
      invariant forall j :: 0 <= j < i ==> !IsShotOrSequence(classNameOf(parents[j]))
    {
      if IsShotOrSequence(classNameOf(parents[i])) {
        assert parents[i] == links[|links| - 2 - i];
        return Returns(true);
      }
      i := i + 1;
    }
    forall j | 0 <= j < |links| - 1 ensures !IsShotOrSequence(classNameOf(links[j])) {
      assert links[j] == parents[|links| - 2 - j];
    }
    return Returns(false);
  }
}
