/** The Connect hook that offers Unity as a launchable application: the
    selection check, the discover reply, the candidate editors found in the
    registry and in the Hub's editors file, the list normalisation of
    `ApplicationStore._discoverApplications`, and the frame-range variables of
    the launch environment. */
module UnityHook {
  import opened Text

  const LaunchActionIdentifier := "ftrack-connect-launch-unity"
  const UnityIcon := "https://cdn4.iconfinder.com/data/icons/various-icons-2/476/Unity.png"

  // ---------------------------------------------------------------------
  // Selection and discover reply

  datatype SelectedEntity = SelectedEntity(entityType: string, entityId: string)

  /** A selection Unity can work on. `objectType(id)` stands for
      `ftrack.Task(id).getObjectType()`. */
  predicate IsValidSelection(selection: seq<SelectedEntity>, objectType: string -> string)
  {
    |selection| == 1 && selection[0].entityType == "task"
    && objectType(selection[0].entityId) == "Task"
  }

  /** An application record of the store (`launchArguments` is always None and
      `version` is `LooseVersion(variant)`, so neither is kept). */
  datatype App = App(description: string, icon: string, identifier: string,
                     displayLabel: string, path: string, variant: string)

  /** One item of the discover reply. */
  datatype Item = Item(displayLabel: string, icon: string, variant: string,
                       actionIdentifier: string, applicationIdentifier: string,
                       description: string)

  function ItemOf(app: App): Item
  {
    Item(app.displayLabel, app.icon, app.variant, LaunchActionIdentifier, app.identifier, app.description)
  }

  /** `LaunchApplicationAction.discover`: nothing for a selection that is not a
      single Task, otherwise one item per store application, in store order. */
  method Discover(selection: seq<SelectedEntity>, objectType: string -> string, applications: seq<App>)
    returns (reply: Option<seq<Item>>)
    ensures reply.None? <==> !IsValidSelection(selection, objectType)
    ensures reply.Some? ==> |reply.value| == |applications|
    ensures reply.Some? ==> forall i :: 0 <= i < |applications| ==>
              reply.value[i].actionIdentifier == LaunchActionIdentifier
              && reply.value[i].applicationIdentifier == applications[i].identifier
              && reply.value[i] == ItemOf(applications[i])
  {
    if !IsValidSelection(selection, objectType) {
      return None;
    }
    var items: seq<Item> := [];
    var i := 0;
    while i < |applications|
      invariant 0 <= i <= |applications|
      invariant |items| == i
      invariant forall k :: 0 <= k < i ==> items[k] == ItemOf(applications[k])
    {
      items := items + [ItemOf(applications[i])];
      i := i + 1;
    }
    return Some(items);
  }

  // ---------------------------------------------------------------------
  // Candidates

  datatype Platform = Win32 | Linux | OtherPlatform

  /** The single candidate offered when UNITY_LOCATION names an existing path. */
  function OverrideApp(location: string): App
  {
    App("Launch Unity (" + location + ")", UnityIcon, "unity_unknown", "Unity", location, "Unknown")
  }

  /** `ntpath.join(a, b)` for a relative `b` without a drive: a backslash is
      inserted unless the part of `a` after its drive is empty or already ends
      with a separator. */
  function NtJoin(a: string, b: string): (r: string)
    ensures StartsWith(r, a) && EndsWith(r, b)
  {
    var drive := if |a| >= 2 && a[1] == ':' then a[..2] else "";
    var rest := a[|drive|..];
    if rest != [] && rest[|rest| - 1] != '\\' && rest[|rest| - 1] != '/'
    then a + "\\" + b else a + b
  }

  /** The editor executable under an installation location. */
  function EditorExecutable(location: string): string
  {
    NtJoin(NtJoin(location, "Editor"), "Unity.exe")
  }

  /** A registry value of an installer sub-key: its name and its data. */
  datatype RegValue = RegValue(name: string, data: string)

  /** The data of the last value called `name` (the extraction loop overwrites). */
  function LastValue(values: seq<RegValue>, name: string): Option<string>
  {
    if values == [] then None
    else if values[|values| - 1].name == name then Some(values[|values| - 1].data)
    else LastValue(values[..|values| - 1], name)
  }

  /** LastValue finds the data of a value with that name after which no value
      has that name, and is None exactly when no value has it. */
  lemma {:induction false} LastValueIsLastOccurrence(values: seq<RegValue>, name: string)
    ensures LastValue(values, name).None? <==> forall i :: 0 <= i < |values| ==> values[i].name != name
    ensures LastValue(values, name).Some? ==>
              exists i :: 0 <= i < |values| && values[i] == RegValue(name, LastValue(values, name).value)
                          && forall j :: i < j < |values| ==> values[j].name != name
  {
    if values != [] {
      var init := values[..|values| - 1];
      LastValueIsLastOccurrence(init, name);
      if values[|values| - 1].name != name {
        if LastValue(init, name).Some? {
          var i :| 0 <= i < |init| && init[i] == RegValue(name, LastValue(init, name).value)
                   && forall j :: i < j < |init| ==> init[j].name != name;
          assert values[i] == init[i];
        }
      }
    }
  }

  function RegistryApp(location: string, version: string): App
  {
    var path := EditorExecutable(location);
    App("Launch Unity " + version + " (" + path + ")", UnityIcon, "unity_" + version, "Unity", path, version)
  }

  /** The candidate of one installer sub-key: present only when both a
      non-empty 'Location x64' and a non-empty 'Version' were read. */
  function RegistryCandidate(values: seq<RegValue>): seq<App>
  {
    var location := LastValue(values, "Location x64");
    var version := LastValue(values, "Version");
    if location.Some? && location.value != "" && version.Some? && version.value != ""
    then [RegistryApp(location.value, version.value)] else []
  }

  /** A registry candidate carries the data of the last 'Version' value and is
      built from the last 'Location x64' value, both non-empty; a sub-key
      lacking either value yields none. */
  lemma RegistryCandidateFromLastValues(values: seq<RegValue>)
    ensures |RegistryCandidate(values)| <= 1
    ensures RegistryCandidate(values) != [] ==>
              var app := RegistryCandidate(values)[0];
              app.identifier == "unity_" + app.variant && app.variant != ""
              && (exists i :: 0 <= i < |values| && values[i] == RegValue("Version", app.variant)
                    && forall j :: i < j < |values| ==> values[j].name != "Version")
              && (exists i :: 0 <= i < |values| && values[i].name == "Location x64" && values[i].data != ""
                    && app.path == EditorExecutable(values[i].data)
                    && forall j :: i < j < |values| ==> values[j].name != "Location x64")
    ensures (forall i :: 0 <= i < |values| ==> values[i].name != "Version") ==> RegistryCandidate(values) == []
    ensures (forall i :: 0 <= i < |values| ==> values[i].name != "Location x64") ==> RegistryCandidate(values) == []
  {
    LastValueIsLastOccurrence(values, "Location x64");
    LastValueIsLastOccurrence(values, "Version");
  }

  function RegistryApps(subKeys: seq<seq<RegValue>>): seq<App>
  {
    if subKeys == [] then []
    else RegistryApps(subKeys[..|subKeys| - 1]) + RegistryCandidate(subKeys[|subKeys| - 1])
  }

  /** The value loop over one installer sub-key: the last 'Location x64' and
      the last 'Version' data read, if any. */
  method ReadInstallerValues(values: seq<RegValue>) returns (editorPath: Option<string>, editorVersion: Option<string>)
    ensures editorPath == LastValue(values, "Location x64")
    ensures editorVersion == LastValue(values, "Version")
  {
    editorPath := None;
    editorVersion := None;
    var v := 0;
    while v < |values|
      invariant 0 <= v <= |values|
      invariant editorPath == LastValue(values[..v], "Location x64")
      invariant editorVersion == LastValue(values[..v], "Version")
    {
      assert values[..v + 1][..v] == values[..v];
      if values[v].name == "Location x64" {
        editorPath := Some(values[v].data);
      } else if values[v].name == "Version" {
        editorVersion := Some(values[v].data);
      }
      v := v + 1;
    }
    assert values[..|values|] == values;
  }

  /** The candidate of a sub-key, given the two values read from it. */
  lemma RegistryCandidateOf(values: seq<RegValue>, location: Option<string>, version: Option<string>)
    requires location == LastValue(values, "Location x64") && version == LastValue(values, "Version")
    ensures RegistryCandidate(values)
      == if location.Some? && location.value != "" && version.Some? && version.value != ""
         then [RegistryApp(location.value, version.value)] else []
  {
  }

  lemma RegistryAppsStep(subKeys: seq<seq<RegValue>>, k: nat)
    requires k < |subKeys|
    ensures RegistryApps(subKeys[..k + 1]) == RegistryApps(subKeys[..k]) + RegistryCandidate(subKeys[k])
  {
    assert subKeys[..k + 1][..k] == subKeys[..k];
  }

  /** One installer sub-key: its values are read, and a candidate is made
      when both were found and are non-empty. */
  method ReadInstallerKey(values: seq<RegValue>) returns (candidate: seq<App>)
    ensures candidate == RegistryCandidate(values)
  {
    var editorPath, editorVersion := ReadInstallerValues(values);
    RegistryCandidateOf(values, editorPath, editorVersion);
    candidate := [];
    if editorPath.Some? && editorPath.value != "" && editorVersion.Some? && editorVersion.value != "" {
      candidate := [RegistryApp(editorPath.value, editorVersion.value)];
    }
  }

  /** `_discover_from_registry`: one candidate per complete installer sub-key,
      in key order; nothing off Windows or when the Installer key cannot be read
      (`registry` is None). */
  method DiscoverFromRegistry(platform: Platform, registry: Option<seq<seq<RegValue>>>, applications: seq<App>)
    returns (result: seq<App>)
    ensures result == applications + (if platform == Win32 && registry.Some? then RegistryApps(registry.value) else [])
  {
    result := applications;
    if platform != Win32 || registry.None? {
      return;
    }
    var subKeys := registry.value;
    var k := 0;
    while k < |subKeys|
      invariant 0 <= k <= |subKeys|
      invariant result == applications + RegistryApps(subKeys[..k])
    {
      var candidate := ReadInstallerKey(subKeys[k]);
      RegistryAppsStep(subKeys, k);
      AppendGrows(result, applications, RegistryApps(subKeys[..k]), candidate);
      result := result + candidate;
      k := k + 1;
    }
    assert subKeys[..|subKeys|] == subKeys;
  }

  /** An entry of the Hub's editors.json: its 'version' and its 'location' list. */
  datatype EditorEntry = EditorEntry(version: Option<string>, location: Option<seq<string>>)

  /** The decoded editors.json: absent, something other than an object, or an
      object whose values are the entries (in the order the decoder yields them). */
  datatype EditorsJson = NoFile | NotADict | Dict(entries: seq<EditorEntry>)

  predicate UsableEntry(e: EditorEntry)
  {
    e.version.Some? && e.version.value != "" && e.location.Some? && e.location.value != []
  }

  function LocatedApp(e: EditorEntry): App
    requires UsableEntry(e)
  {
    var version := e.version.value;
    var location := e.location.value[0];
    App("Launch Unity " + version + " (" + location + ")", UnityIcon, "unity_" + version, "Unity", location, version)
  }

  function LocatedApps(entries: seq<EditorEntry>): seq<App>
  {
    if entries == [] then []
    else
      var e := entries[|entries| - 1];
      LocatedApps(entries[..|entries| - 1]) + (if UsableEntry(e) then [LocatedApp(e)] else [])
  }

  /** Every located candidate comes from a usable entry, built from that
      entry's version and its first location, and every usable entry yields one. */
  lemma {:induction false} LocatedAppsFromUsableEntries(entries: seq<EditorEntry>)
    ensures forall a :: a in LocatedApps(entries) ==>
              exists e :: e in entries && UsableEntry(e) && a == LocatedApp(e)
                          && a.path == e.location.value[0] && a.identifier == "unity_" + e.version.value
    ensures forall e :: e in entries && UsableEntry(e) ==> LocatedApp(e) in LocatedApps(entries)
    ensures |LocatedApps(entries)| <= |entries|
  {
    if entries != [] {
      var init := entries[..|entries| - 1];
      LocatedAppsFromUsableEntries(init);
      assert entries == init + [entries[|entries| - 1]];
    }
  }

  /** `_discover_located_editors`: one candidate per usable entry; nothing when
      the file is absent, is not an object, or is empty. */
  method DiscoverLocatedEditors(data: EditorsJson, applications: seq<App>) returns (result: seq<App>)
    ensures result == applications + (if data.Dict? then LocatedApps(data.entries) else [])
  {
    result := applications;
    if !data.Dict? || data.entries == [] {
      return;
    }
    var entries := data.entries;
    var i := 0;
    while i < |entries|
      invariant 0 <= i <= |entries|
      invariant result == applications + LocatedApps(entries[..i])
    {
      LocatedAppsStep(entries, i);
      var entry := entries[i];
      if entry.version.None? || entry.version.value == "" {
        i := i + 1;
        continue;
      }
      if entry.location.None? || entry.location.value == [] {
        i := i + 1;
        continue;
      }
      AppendGrows(result, applications, LocatedApps(entries[..i]), [LocatedApp(entry)]);
      result := result + [LocatedApp(entry)];
      i := i + 1;
    }
    assert entries[..|entries|] == entries;
  }

  lemma LocatedAppsStep(entries: seq<EditorEntry>, i: nat)
    requires i < |entries|
    ensures LocatedApps(entries[..i + 1])
            == LocatedApps(entries[..i]) + (if UsableEntry(entries[i]) then [LocatedApp(entries[i])] else [])
  {
    assert entries[..i + 1][..i] == entries[..i];
  }

  // ---------------------------------------------------------------------
  // Filtering: missing paths, duplicate paths, duplicate variants

  function PathOf(a: App): string { a.path }
  function VariantOf(a: App): string { a.variant }

  /** The keys of a list, in order (the source's `valid_paths`, `valid_versions`). */
  function Keys(s: seq<App>, key: App -> string): (r: seq<string>)
    ensures |r| == |s| && forall i :: 0 <= i < |s| ==> r[i] == key(s[i])
  {
    seq(|s|, i requires 0 <= i < |s| => key(s[i]))
  }

  /** No two entries share a key. */
  predicate UniqueBy(s: seq<App>, key: App -> string)
  {
    forall i, j :: 0 <= i < j < |s| ==> key(s[i]) != key(s[j])
  }

  /** The candidates kept by the filtering loop: each one whose path exists and
      whose path and variant no earlier kept candidate has. */
  function Dedup(all: seq<App>, pathExists: string -> bool): seq<App>
  {
    if all == [] then []
    else
      var kept := Dedup(all[..|all| - 1], pathExists);
      var a := all[|all| - 1];
      if !pathExists(a.path) || a.path in Keys(kept, PathOf) || a.variant in Keys(kept, VariantOf)
      then kept else kept + [a]
  }

  /** The filtering loop of `_discoverApplications`. */
  method FilterApplications(all: seq<App>, pathExists: string -> bool) returns (valid: seq<App>)
    ensures valid == Dedup(all, pathExists)
  {
    valid := [];
    var validPaths: seq<string> := [];
    var validVersions: seq<string> := [];
    var i := 0;
    while i < |all|
      invariant 0 <= i <= |all|
      invariant valid == Dedup(all[..i], pathExists)
      invariant validPaths == Keys(valid, PathOf) && validVersions == Keys(valid, VariantOf)
    {
      assert all[..i + 1][..i] == all[..i];
      var application := all[i];
      var path := application.path;
      var version := application.variant;
      if !pathExists(path) {
        i := i + 1;
        continue;
      }
      if path in validPaths {
        i := i + 1;
        continue;
      }
      if version in validVersions {
        i := i + 1;
        continue;
      }
      valid := valid + [application];
      validPaths := validPaths + [path];
      validVersions := validVersions + [version];
      i := i + 1;
    }
    assert all[..|all|] == all;
  }

  /** `idx` places the entries of `r`, in order, at strictly increasing positions of `s`. */
  ghost predicate SubsequenceAt(r: seq<App>, s: seq<App>, idx: seq<nat>)
  {
    |idx| == |r|
    && (forall k :: 0 <= k < |idx| ==> idx[k] < |s| && r[k] == s[idx[k]])
    && (forall k, l :: 0 <= k < l < |idx| ==> idx[k] < idx[l])
  }

  /** Candidate `i` clears the filter against the entries of `r` placed
      before it: its path exists and none of them has its path or variant. */
  ghost predicate Clears(all: seq<App>, pathExists: string -> bool, r: seq<App>, idx: seq<nat>, i: nat)
    requires i < |all| && |idx| == |r|
  {
    pathExists(all[i].path)
    && forall k :: 0 <= k < |idx| && idx[k] < i ==> r[k].path != all[i].path && r[k].variant != all[i].variant
  }

  /** `r`, placed in `all` by `idx`, holds exactly the candidates that clear the filter. */
  ghost predicate FirstOccurrences(all: seq<App>, pathExists: string -> bool, r: seq<App>, idx: seq<nat>)
  {
    SubsequenceAt(r, all, idx)
    && forall i :: 0 <= i < |all| ==> (i in idx <==> Clears(all, pathExists, r, idx, i))
  }

  lemma DedupDropStep(all: seq<App>, pathExists: string -> bool, kept: seq<App>, idx: seq<nat>)
    requires all != [] && FirstOccurrences(all[..|all| - 1], pathExists, kept, idx)
    requires var a := all[|all| - 1];
      !pathExists(a.path) || a.path in Keys(kept, PathOf) || a.variant in Keys(kept, VariantOf)
    ensures FirstOccurrences(all, pathExists, kept, idx)
  {
    var n := |all|;
    var init := all[..n - 1];
    var a := all[n - 1];
    forall i | 0 <= i < n ensures (i in idx <==> Clears(all, pathExists, kept, idx, i)) {
      if i == n - 1 {
        assert i !in idx;
        if pathExists(a.path) {
          if a.path in Keys(kept, PathOf) {
            var k :| 0 <= k < |kept| && Keys(kept, PathOf)[k] == a.path;
            assert idx[k] < i && kept[k].path == all[i].path;
          } else {
            var k :| 0 <= k < |kept| && Keys(kept, VariantOf)[k] == a.variant;
            assert idx[k] < i && kept[k].variant == all[i].variant;
          }
        }
      } else {
        assert all[i] == init[i];
        assert Clears(all, pathExists, kept, idx, i) == Clears(init, pathExists, kept, idx, i);
      }
    }
  }

  lemma DedupKeepStep(all: seq<App>, pathExists: string -> bool, kept: seq<App>, idx: seq<nat>)
    requires all != [] && FirstOccurrences(all[..|all| - 1], pathExists, kept, idx)
    requires var a := all[|all| - 1];
      pathExists(a.path) && a.path !in Keys(kept, PathOf) && a.variant !in Keys(kept, VariantOf)
    ensures FirstOccurrences(all, pathExists, kept + [all[|all| - 1]], idx + [|all| - 1])
  {
    var n := |all|;
    var init := all[..n - 1];
    var a := all[n - 1];
    var r := kept + [a];
    var idx' := idx + [n - 1];
    assert SubsequenceAt(r, all, idx');
    forall i | 0 <= i < n ensures (i in idx' <==> Clears(all, pathExists, r, idx', i)) {
      if i == n - 1 {
        LastClears(all, pathExists, kept, idx);
      } else {
        assert i in idx' <==> i in idx;
        ClearsBeforeLast(all, pathExists, kept, idx, i);
      }
    }
  }

  /** The last candidate, with a path that exists and is new and a new
      variant, clears the filter once it is kept. */
  lemma LastClears(all: seq<App>, pathExists: string -> bool, kept: seq<App>, idx: seq<nat>)
    requires all != [] && |idx| == |kept|
    requires var a := all[|all| - 1];
      pathExists(a.path) && a.path !in Keys(kept, PathOf) && a.variant !in Keys(kept, VariantOf)
    ensures Clears(all, pathExists, kept + [all[|all| - 1]], idx + [|all| - 1], |all| - 1)
  {
    var r := kept + [all[|all| - 1]];
    var idx' := idx + [|all| - 1];
    forall k | 0 <= k < |idx'| && idx'[k] < |all| - 1
      ensures r[k].path != all[|all| - 1].path && r[k].variant != all[|all| - 1].variant
    {
      assert k < |kept|;
      assert Keys(kept, PathOf)[k] == r[k].path;
      assert Keys(kept, VariantOf)[k] == r[k].variant;
    }
  }

  /** For a candidate before the last one, keeping the last one does not change
      whether it clears the filter. */
  lemma ClearsBeforeLast(all: seq<App>, pathExists: string -> bool, kept: seq<App>, idx: seq<nat>, i: nat)
    requires i < |all| - 1 && |idx| == |kept|
    ensures Clears(all, pathExists, kept + [all[|all| - 1]], idx + [|all| - 1], i)
            == Clears(all[..|all| - 1], pathExists, kept, idx, i)
  {
    var r := kept + [all[|all| - 1]];
    var idx' := idx + [|all| - 1];
    assert all[i] == all[..|all| - 1][i];
    forall k | 0 <= k < |idx'| && idx'[k] < i ensures k < |idx| && r[k] == kept[k] && idx'[k] == idx[k] { }
  }

  /** The filtered list is a subsequence of the candidates, and a candidate is
      kept exactly when its path exists and no candidate kept before it has its
      path or its variant: the first occurrence wins. */
  lemma {:induction false} DedupKeepsFirstOccurrences(all: seq<App>, pathExists: string -> bool) returns (idx: seq<nat>)
    ensures FirstOccurrences(all, pathExists, Dedup(all, pathExists), idx)
  {
    if all == [] {
      return [];
    }
    var init := all[..|all| - 1];
    var a := all[|all| - 1];
    var kept := Dedup(init, pathExists);
    var idx0 := DedupKeepsFirstOccurrences(init, pathExists);
    if !pathExists(a.path) || a.path in Keys(kept, PathOf) || a.variant in Keys(kept, VariantOf) {
      DedupDropStep(all, pathExists, kept, idx0);
      idx := idx0;
    } else {
      DedupKeepStep(all, pathExists, kept, idx0);
      idx := idx0 + [|all| - 1];
    }
  }

  /** Every kept path exists, and no two kept entries share a path or a variant. */
  lemma {:induction false} DedupKeptWellFormed(all: seq<App>, pathExists: string -> bool)
    ensures forall a :: a in Dedup(all, pathExists) ==> pathExists(a.path)
    ensures UniqueBy(Dedup(all, pathExists), PathOf) && UniqueBy(Dedup(all, pathExists), VariantOf)
    ensures |Dedup(all, pathExists)| <= |all|
  {
    if all != [] {
      var init := all[..|all| - 1];
      var kept := Dedup(init, pathExists);
      DedupKeptWellFormed(init, pathExists);
      var a := all[|all| - 1];
      if !(!pathExists(a.path) || a.path in Keys(kept, PathOf) || a.variant in Keys(kept, VariantOf)) {
        var r := kept + [a];
        forall i, j | 0 <= i < j < |r| ensures r[i].path != r[j].path && r[i].variant != r[j].variant {
          if j == |kept| {
            assert Keys(kept, PathOf)[i] == r[i].path;
            assert Keys(kept, VariantOf)[i] == r[i].variant;
          }
        }
      }
    }
  }

  // ---------------------------------------------------------------------
  // Sorting by variant (Python's stable `sorted`, string order by code point)

  /** Lexicographic order on strings, character by character. */
  predicate LexLe(a: string, b: string)
  {
    a == [] || (b != [] && (a[0] < b[0] || (a[0] == b[0] && LexLe(a[1..], b[1..]))))
  }

  lemma {:induction false} LexLeTotal(a: string, b: string)
    ensures LexLe(a, b) || LexLe(b, a)
  {
    if a != [] && b != [] && a[0] == b[0] {
      LexLeTotal(a[1..], b[1..]);
    }
  }

  lemma {:induction false} LexLeTransitive(a: string, b: string, c: string)
    requires LexLe(a, b) && LexLe(b, c)
    ensures LexLe(a, c)
  {
    if a != [] && b != [] && c != [] && a[0] == b[0] && b[0] == c[0] {
      LexLeTransitive(a[1..], b[1..], c[1..]);
    }
  }

  predicate SortedByVariant(s: seq<App>)
  {
    forall i, j :: 0 <= i < j < |s| ==> LexLe(s[i].variant, s[j].variant)
  }

  function InsertByVariant(a: App, s: seq<App>): (r: seq<App>)
    ensures multiset(r) == multiset(s) + multiset{a}
  {
    if s == [] then [a]
    else if LexLe(a.variant, s[0].variant) then [a] + s
    else
      assert s == [s[0]] + s[1..];
      [s[0]] + InsertByVariant(a, s[1..])
  }

  /** The candidates sorted by variant (insertion sort, stable like `sorted`). */
  function SortByVariant(s: seq<App>): (r: seq<App>)
    ensures multiset(r) == multiset(s)
  {
    if s == [] then []
    else
      assert s == [s[0]] + s[1..];
      InsertByVariant(s[0], SortByVariant(s[1..]))
  }

  /** Every entry's variant is at least `v`. */
  predicate VariantsFrom(v: string, s: seq<App>)
  {
    forall j :: 0 <= j < |s| ==> LexLe(v, s[j].variant)
  }

  /** Inserting an entry whose variant is at least `v` keeps that lower bound. */
  lemma {:induction false} InsertByVariantFrom(v: string, a: App, s: seq<App>)
    requires LexLe(v, a.variant) && VariantsFrom(v, s)
    ensures VariantsFrom(v, InsertByVariant(a, s))
  {
    if s != [] && !LexLe(a.variant, s[0].variant) {
      InsertByVariantFrom(v, a, s[1..]);
      var t := InsertByVariant(a, s[1..]);
      assert VariantsFrom(v, [s[0]] + t) by {
        forall j | 0 < j < |t| + 1 ensures LexLe(v, ([s[0]] + t)[j].variant) {
          assert ([s[0]] + t)[j] == t[j - 1];
        }
      }
    }
  }

  /** A sorted list stays sorted with an entry no greater than all of it in front. */
  lemma SortedCons(x: App, t: seq<App>)
    requires SortedByVariant(t) && VariantsFrom(x.variant, t)
    ensures SortedByVariant([x] + t)
  {
    var r := [x] + t;
    forall i, j | 0 <= i < j < |r| ensures LexLe(r[i].variant, r[j].variant) {
      assert r[j] == t[j - 1];
      if i > 0 { assert r[i] == t[i - 1]; }
    }
  }

  lemma {:induction false} InsertByVariantSorted(a: App, s: seq<App>)
    requires SortedByVariant(s)
    ensures SortedByVariant(InsertByVariant(a, s))
  {
    if s == [] {
    } else if LexLe(a.variant, s[0].variant) {
      forall j | 0 <= j < |s| ensures LexLe(a.variant, s[j].variant) {
        if j > 0 { LexLeTransitive(a.variant, s[0].variant, s[j].variant); }
      }
      SortedCons(a, s);
    } else {
      LexLeTotal(a.variant, s[0].variant);
      InsertByVariantSorted(a, s[1..]);
      assert VariantsFrom(s[0].variant, s[1..]) by {
        forall j | 0 <= j < |s[1..]| ensures LexLe(s[0].variant, s[1..][j].variant) {
          assert s[1..][j] == s[j + 1];
        }
      }
      InsertByVariantFrom(s[0].variant, a, s[1..]);
      SortedCons(s[0], InsertByVariant(a, s[1..]));
    }
  }

  lemma {:induction false} SortByVariantSorted(s: seq<App>)
    ensures SortedByVariant(SortByVariant(s))
  {
    if s != [] {
      SortByVariantSorted(s[1..]);
      InsertByVariantSorted(s[0], SortByVariant(s[1..]));
    }
  }

  lemma MultisetWithout(s: seq<App>, p: nat)
    requires p < |s|
    ensures multiset(s[..p] + s[p + 1..]) == multiset(s) - multiset{s[p]}
  {
    assert s == s[..p] + [s[p]] + s[p + 1..];
  }

  lemma UniqueWithout(s: seq<App>, p: nat, key: App -> string)
    requires p < |s| && UniqueBy(s, key)
    ensures UniqueBy(s[..p] + s[p + 1..], key)
    ensures forall y :: y in s[..p] + s[p + 1..] ==> key(y) != key(s[p])
  {
    var t := s[..p] + s[p + 1..];
    forall i, j | 0 <= i < j < |t| ensures key(t[i]) != key(t[j]) {
      var i0 := if i < p then i else i + 1;
      var j0 := if j < p then j else j + 1;
      assert t[i] == s[i0] && t[j] == s[j0];
    }
    forall y | y in t ensures key(y) != key(s[p]) {
      var q :| 0 <= q < |t| && t[q] == y;
      var q0 := if q < p then q else q + 1;
      assert s[q0] == y && q0 != p;
    }
  }

  /** A permutation of a list whose keys are distinct has distinct keys. */
  lemma {:induction false} PermutationKeepsUnique(s: seq<App>, r: seq<App>, key: App -> string)
    requires multiset(r) == multiset(s) && UniqueBy(s, key)
    ensures UniqueBy(r, key)
  {
    if r != [] {
      var x := r[0];
      assert x in multiset(s);
      var p :| 0 <= p < |s| && s[p] == x;
      var s' := s[..p] + s[p + 1..];
      MultisetWithout(s, p);
      var t := r[1..];
      assert r == [x] + t;
      assert multiset(t) == multiset(s');
      UniqueWithout(s, p, key);
      PermutationKeepsUnique(s', t, key);
      forall y | y in t ensures key(y) != key(x) {
        assert y in multiset(s');
      }
      UniqueCons(x, t, key);
    }
  }

  /** Distinct keys stay distinct with an entry of a new key in front. */
  lemma UniqueCons(x: App, t: seq<App>, key: App -> string)
    requires UniqueBy(t, key) && forall y :: y in t ==> key(y) != key(x)
    ensures UniqueBy([x] + t, key)
  {
    var r := [x] + t;
    forall i, j | 0 <= i < j < |r| ensures key(r[i]) != key(r[j]) {
      assert r[j] == t[j - 1];
      if i > 0 { assert r[i] == t[i - 1]; }
    }
  }

  // ---------------------------------------------------------------------
  // Preferred version first

  function FirstIndexOf(s: seq<App>, x: App): (j: nat)
    requires x in s
    ensures j < |s| && s[j] == x && x !in s[..j]
  {
    if s[0] == x then 0
    else
      assert s[1..][..FirstIndexOf(s[1..], x)] == s[1..FirstIndexOf(s[1..], x) + 1];
      FirstIndexOf(s[1..], x) + 1
  }

  /** `s` with its entry at `j` moved to the front (`remove` then `insert(0, …)`). */
  function MoveToFront(s: seq<App>, j: nat): (r: seq<App>)
    requires j < |s|
    ensures |r| == |s| && r[0] == s[j]
  {
    [s[j]] + s[..j] + s[j + 1..]
  }

  /** Moving an entry to the front permutes the list and leaves the positions
      after the moved entry alone. */
  lemma MoveToFrontPermutes(s: seq<App>, j: nat)
    requires j < |s|
    ensures multiset(MoveToFront(s, j)) == multiset(s)
    ensures forall m :: j < m < |s| ==> MoveToFront(s, j)[m] == s[m]
  {
    assert s == s[..j] + [s[j]] + s[j + 1..];
  }

  /** One iteration of the preferred-version loop, at list position `i`. */
  function PreferredStep(s: seq<App>, preferred: string, i: nat): (r: seq<App>)
    requires i < |s|
    ensures |r| == |s|
    ensures s[i].variant == preferred ==> r[0] == s[i]
  {
    if s[i].variant == preferred then MoveToFront(s, FirstIndexOf(s, s[i])) else s
  }

  /** One iteration permutes the list, leaves the positions after `i` alone, and
      changes nothing at an entry without the preferred variant. */
  lemma PreferredStepPermutes(s: seq<App>, preferred: string, i: nat)
    requires i < |s|
    ensures multiset(PreferredStep(s, preferred, i)) == multiset(s)
    ensures forall m :: i < m < |s| ==> PreferredStep(s, preferred, i)[m] == s[m]
  {
    if s[i].variant == preferred {
      MoveToFrontPermutes(s, FirstIndexOf(s, s[i]));
    }
  }

  /** The preferred-version loop from list position `i` on: Python walks the list
      by position while it is being rotated. */
  function PreferredPass(s: seq<App>, preferred: string, i: nat): seq<App>
    decreases |s| - i
  {
    if i >= |s| then s else PreferredPass(PreferredStep(s, preferred, i), preferred, i + 1)
  }

  /** The loop over `valid_applications` with its in-place `remove`/`insert(0, …)`. */
  method MovePreferredFirst(applications: seq<App>, preferred: string) returns (result: seq<App>)
    ensures result == PreferredPass(applications, preferred, 0)
  {
    result := applications;
    var i := 0;
    while i < |result|
      invariant 0 <= i && |result| == |applications|
      invariant PreferredPass(result, preferred, i) == PreferredPass(applications, preferred, 0)
      decreases |result| - i
    {
      ghost var before := result;
      var application := result[i];
      if application.variant == preferred {
        var j := FirstIndexOf(result, application);
        result := [application] + result[..j] + result[j + 1..];
      }
      assert result == PreferredStep(before, preferred, i);
      i := i + 1;
    }
  }

  lemma {:induction false} PreferredPassPermutes(s: seq<App>, preferred: string, i: nat)
    ensures |PreferredPass(s, preferred, i)| == |s|
    ensures multiset(PreferredPass(s, preferred, i)) == multiset(s)
    decreases |s| - i
  {
    if i < |s| {
      PreferredStepPermutes(s, preferred, i);
      PreferredPassPermutes(PreferredStep(s, preferred, i), preferred, i + 1);
    }
  }

  lemma {:induction false} PreferredPassSkips(s: seq<App>, preferred: string, i: nat, k: nat)
    requires i <= k <= |s|
    requires forall m :: i <= m < k ==> s[m].variant != preferred
    ensures PreferredPass(s, preferred, i) == PreferredPass(s, preferred, k)
    decreases k - i
  {
    if i < k {
      assert s[i].variant != preferred;
      assert PreferredStep(s, preferred, i) == s;
      PreferredPassSkips(s, preferred, i + 1, k);
    }
  }

  /** With no entry carrying the preferred variant, the loop changes nothing. */
  lemma PreferredPassWithoutMatch(s: seq<App>, preferred: string)
    requires forall m :: 0 <= m < |s| ==> s[m].variant != preferred
    ensures PreferredPass(s, preferred, 0) == s
  {
    PreferredPassSkips(s, preferred, 0, |s|);
    assert PreferredPass(s, preferred, |s|) == s;
  }

  /** With distinct variants, the loop moves the one entry carrying the
      preferred variant to the front and keeps the others in order. */
  lemma PreferredPassMovesMatch(s: seq<App>, preferred: string, k: nat)
    requires UniqueBy(s, VariantOf)
    requires k < |s| && s[k].variant == preferred
    ensures PreferredPass(s, preferred, 0) == [s[k]] + s[..k] + s[k + 1..]
  {
    forall m | 0 <= m < |s| && m != k ensures s[m].variant != preferred {
      if m < k { assert VariantOf(s[m]) != VariantOf(s[k]); } else { assert VariantOf(s[k]) != VariantOf(s[m]); }
    }
    PreferredPassSkips(s, preferred, 0, k);
    assert FirstIndexOf(s, s[k]) == k;
    var moved := MoveToFront(s, k);
    MoveToFrontPermutes(s, k);
    assert PreferredStep(s, preferred, k) == moved;
    PreferredPassSkips(moved, preferred, k + 1, |s|);
    assert PreferredPass(moved, preferred, |s|) == moved;
  }

  /** Dropping one entry of a sorted list leaves it sorted. */
  lemma SortedWithout(s: seq<App>, k: nat)
    requires k < |s| && SortedByVariant(s)
    ensures SortedByVariant(s[..k] + s[k + 1..])
  {
    var t := s[..k] + s[k + 1..];
    forall i, j | 0 <= i < j < |t| ensures LexLe(t[i].variant, t[j].variant) {
      var i0 := if i < k then i else i + 1;
      var j0 := if j < k then j else j + 1;
      assert t[i] == s[i0] && t[j] == s[j0] && i0 < j0;
    }
  }

  // ---------------------------------------------------------------------
  // The whole discovery

  /** What `_discoverApplications` reads from its host: the platform, the
      UNITY_LOCATION variable, the registry sub-keys under
      Software\Unity Technologies\Installer (None when unreadable), the decoded
      editors.json, the editors found by the file-system searches (secondary
      install path and standard paths on Windows, the Hub folder on Linux),
      path existence, and the string of defaultEditor.json if there is one. */
  datatype DiscoveryHost = DiscoveryHost(
    platform: Platform,
    unityLocation: Option<string>,
    registry: Option<seq<seq<RegValue>>>,
    editorsJson: EditorsJson,
    searched: seq<App>,
    pathExists: string -> bool,
    preferred: Option<string>)

  predicate OverrideApplies(host: DiscoveryHost)
  {
    host.platform == Win32 && host.unityLocation.Some? && host.unityLocation.value != ""
    && host.pathExists(host.unityLocation.value)
  }

  function Candidates(host: DiscoveryHost): seq<App>
  {
    if host.platform == Win32 then
      if OverrideApplies(host) then [OverrideApp(host.unityLocation.value)]
      else
        (if host.registry.Some? then RegistryApps(host.registry.value) else [])
        + (if host.editorsJson.Dict? then LocatedApps(host.editorsJson.entries) else [])
        + host.searched
    else if host.platform == Linux then host.searched
    else []
  }

  function Discovered(host: DiscoveryHost): seq<App>
  {
    var sorted := SortByVariant(Dedup(Candidates(host), host.pathExists));
    if host.platform == Win32 && host.preferred.Some? then PreferredPass(sorted, host.preferred.value, 0)
    else sorted
  }

  /** The first half of `_discoverApplications`: the unfiltered candidates. */
  method GatherCandidates(host: DiscoveryHost) returns (all: seq<App>)
    ensures all == Candidates(host)
  {
    all := [];
    if host.platform == Win32 {
      if OverrideApplies(host) {
        all := all + [OverrideApp(host.unityLocation.value)];
      } else {
        ghost var fromRegistry := if host.registry.Some? then RegistryApps(host.registry.value) else [];
        ghost var located := if host.editorsJson.Dict? then LocatedApps(host.editorsJson.entries) else [];
        all := DiscoverFromRegistry(host.platform, host.registry, all);
        assert all == fromRegistry;
        all := DiscoverLocatedEditors(host.editorsJson, all);
        assert all == fromRegistry + located;
        all := all + host.searched;
        assert Candidates(host) == fromRegistry + located + host.searched;
      }
    } else if host.platform == Linux {
      all := all + host.searched;
    }
  }

  /** `ApplicationStore._discoverApplications`. */
  method DiscoverApplications(host: DiscoveryHost) returns (applications: seq<App>)
    ensures applications == Discovered(host)
  {
    var all := GatherCandidates(host);
    var valid := FilterApplications(all, host.pathExists);
    valid := SortByVariant(valid);
    if host.platform == Win32 && host.preferred.Some? {
      valid := MovePreferredFirst(valid, host.preferred.value);
    }
    applications := valid;
  }

  /** Every path exists and no two entries share a path or a variant. */
  predicate WellFormedList(s: seq<App>, pathExists: string -> bool)
  {
    (forall a :: a in s ==> pathExists(a.path)) && UniqueBy(s, PathOf) && UniqueBy(s, VariantOf)
  }

  lemma PermutationKeepsWellFormed(s: seq<App>, r: seq<App>, pathExists: string -> bool)
    requires multiset(r) == multiset(s) && WellFormedList(s, pathExists)
    ensures WellFormedList(r, pathExists)
  {
    PermutationKeepsUnique(s, r, PathOf);
    PermutationKeepsUnique(s, r, VariantOf);
    forall a | a in r ensures pathExists(a.path) {
      assert a in multiset(s);
    }
  }

  /** The preferred pass over a sorted list with distinct variants puts the
      preferred variant first and leaves the rest sorted, or leaves the list
      alone when no entry has that variant. */
  lemma PreferredPassFront(sorted: seq<App>, p: string, k: nat)
    requires SortedByVariant(sorted) && UniqueBy(sorted, VariantOf)
    requires k < |sorted| && sorted[k].variant == p
    ensures var r := PreferredPass(sorted, p, 0);
      |r| == |sorted| && r[0].variant == p && SortedByVariant(r[1..])
  {
    PreferredPassMovesMatch(sorted, p, k);
    SortedWithout(sorted, k);
    ConsTail(sorted[k], sorted[..k], sorted[k + 1..]);
  }

  lemma PreferredPassOrder(sorted: seq<App>, p: string)
    requires SortedByVariant(sorted) && UniqueBy(sorted, VariantOf)
    ensures var r := PreferredPass(sorted, p, 0);
      if exists a :: a in r && a.variant == p
      then r[0].variant == p && SortedByVariant(r[1..])
      else SortedByVariant(r)
  {
    var r := PreferredPass(sorted, p, 0);
    PreferredPassPermutes(sorted, p, 0);
    if exists a :: a in r && a.variant == p {
      var a :| a in r && a.variant == p;
      assert a in multiset(sorted);
      var k :| 0 <= k < |sorted| && sorted[k] == a;
      PreferredPassFront(sorted, p, k);
    } else {
      forall m | 0 <= m < |sorted| ensures sorted[m].variant != p {
        assert sorted[m] in multiset(r);
      }
      PreferredPassWithoutMatch(sorted, p);
    }
  }

  /** The discovered list: paths that exist, no shared path or variant, the same
      entries as the filtered candidates, sorted by variant except that the
      preferred variant (Windows, defaultEditor.json) comes first. */
  lemma DiscoveredProperties(host: DiscoveryHost)
    ensures var r := Discovered(host);
      WellFormedList(r, host.pathExists)
      && multiset(r) == multiset(Dedup(Candidates(host), host.pathExists))
      && (if host.platform == Win32 && host.preferred.Some?
             && exists a :: a in r && a.variant == host.preferred.value
          then r[0].variant == host.preferred.value && SortedByVariant(r[1..])
          else SortedByVariant(r))
  {
    var kept := Dedup(Candidates(host), host.pathExists);
    var sorted := SortByVariant(kept);
    DedupKeptWellFormed(Candidates(host), host.pathExists);
    SortByVariantSorted(kept);
    PermutationKeepsWellFormed(kept, sorted, host.pathExists);
    if host.platform == Win32 && host.preferred.Some? {
      var p := host.preferred.value;
      PreferredPassPermutes(sorted, p, 0);
      PermutationKeepsWellFormed(sorted, PreferredPass(sorted, p, 0), host.pathExists);
      PreferredPassOrder(sorted, p);
    }
  }

  /** With UNITY_LOCATION set to an existing path on Windows, that location is
      the only application, with variant 'Unknown' and identifier 'unity_unknown'. */
  lemma OverrideIsOnlyApplication(host: DiscoveryHost)
    requires OverrideApplies(host)
    ensures Discovered(host) == [OverrideApp(host.unityLocation.value)]
    ensures Discovered(host)[0].variant == "Unknown" && Discovered(host)[0].identifier == "unity_unknown"
  {
    var app := OverrideApp(host.unityLocation.value);
    assert Candidates(host) == [app];
    assert Candidates(host)[..0] == [];
    assert Dedup(Candidates(host), host.pathExists) == [app];
    assert SortByVariant([app]) == [app];
    if host.preferred.Some? {
      var p := host.preferred.value;
      assert PreferredPass([app], p, 1) == [app];
      if app.variant == p {
        assert FirstIndexOf([app], app) == 0;
        assert MoveToFront([app], 0) == [app];
      }
    }
  }

  // ---------------------------------------------------------------------
  // Frame range of the launch environment

  /** Python's `int(x)` on a float: truncation toward zero. */
  function Truncate(x: real): (r: int)
    ensures x >= 0.0 ==> r as real <= x < r as real + 1.0
    ensures x < 0.0 ==> r as real - 1.0 < x <= r as real
  {
    if x >= 0.0 then x.Floor else -((-x).Floor)
  }

  /** The FS / FE value: the truncated frame bound as a decimal string, or '0'
      when reading the bound raised (`bound` is None). */
  function FrameBoundEnv(bound: Option<real>): string
  {
    match bound
    case None => "0"
    case Some(x) => IntToString(Truncate(x))
  }

  /** FS / FE read back as the frame bound truncated toward zero, or 0. */
  lemma FrameBoundEnvReadsBack(bound: Option<real>)
    ensures ParseInt(FrameBoundEnv(bound)) == if bound.Some? then Truncate(bound.value) else 0
  {
    if bound.Some? {
      IntToStringRoundTrip(Truncate(bound.value));
    } else {
      assert FrameBoundEnv(bound) == "0";
      assert "0"[..0] == [];
    }
  }
}
