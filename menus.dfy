/** The generated Unity menu script (`source/ftrack_connect_unity/ui/unity_menus.py`):
    one C# method per entry of the ftrack menu, numbered from zero, each
    asking the client for a dialog by name, inserted once into the script
    template. Writing the files and refreshing the asset database are not
    modelled. */
module UnityMenus {
  import opened Text
  import FtrackClientInit

  /** A menu entry: the text shown under the 'ftrack' menu and the dialog name
      the client service understands. */
  datatype MenuItem = MenuItem(menuName: string, dialogName: string)

  /** `_menu_items`. */
  const MenuItems: seq<MenuItem> := [
    MenuItem("Info", "Info"),
    MenuItem("Import asset", "Import asset"),
    MenuItem("Publish", "Publish"),
    MenuItem("Asset manager", "Asset manager")
  ]

  /** The pieces of `_menu_item_template` around its three fields. */
  const Indent := "\n        "
  const MenuAttribute := "[MenuItem(\"ftrack/"
  const AttributeClose := "\")]"
  const Declaration := "\n        private static void "
  const CallOpen := "\n        {\n            PythonRunner.CallServiceOnClient(\"'ftrack_show_dialog'\", "
  const BlockTail := ");\n        }\n"

  /** The menu attribute, the method name and the dialog argument of a block. */
  function AttributeOf(item: MenuItem): string { MenuAttribute + item.menuName + AttributeClose }
  function MethodNameOf(index: nat): string { "ShowDialog" + NatToString(index) + "()" }
  function DialogArgumentOf(item: MenuItem): string { "\"'" + item.dialogName + "'\"" }

  /** `_menu_item_template` filled in for one entry. */
  function MenuBlock(item: MenuItem, index: nat): string
  {
    Indent + AttributeOf(item) + Declaration + MethodNameOf(index) + CallOpen + DialogArgumentOf(item) + BlockTail
  }

  /** The blocks for `items`, numbered from `start`. */
  function Blocks(items: seq<MenuItem>, start: nat): (r: seq<string>)
    ensures |r| == |items|
  {
    if items == [] then [] else [MenuBlock(items[0], start)] + Blocks(items[1..], start + 1)
  }

  /** The `i`-th block is the `i`-th entry's, numbered `start + i`. */
  lemma {:induction false} BlocksNumbered(items: seq<MenuItem>, start: nat, i: nat)
    requires i < |items|
    ensures Blocks(items, start)[i] == MenuBlock(items[i], start + i)
    decreases i
  {
    if i > 0 {
      BlocksNumbered(items[1..], start + 1, i - 1);
    }
  }

  /** One more entry adds its block, numbered after the others, at the end. */
  lemma {:induction false} BlocksAppend(items: seq<MenuItem>, item: MenuItem, start: nat)
    ensures Blocks(items + [item], start) == Blocks(items, start) + [MenuBlock(item, start + |items|)]
    decreases |items|
  {
    if items != [] {
      assert (items + [item])[1..] == items[1..] + [item];
      BlocksAppend(items[1..], item, start + 1);
    }
  }

  function Concat(parts: seq<string>): string
  {
    if parts == [] then "" else parts[0] + Concat(parts[1..])
  }

  lemma ConcatAppend(parts: seq<string>, last: string)
    ensures Concat(parts + [last]) == Concat(parts) + last
  {
    if parts != [] {
      assert (parts + [last])[1..] == parts[1..] + [last];
      ConcatAppend(parts[1..], last);
    }
  }

  lemma BlocksStep(items: seq<MenuItem>, index: nat)
    requires index < |items|
    ensures Concat(Blocks(items[..index + 1], 0)) == Concat(Blocks(items[..index], 0)) + MenuBlock(items[index], index)
  {
    assert items[..index + 1] == items[..index] + [items[index]];
    BlocksAppend(items[..index], items[index], 0);
    ConcatOfAppended(Blocks(items[..index + 1], 0), Blocks(items[..index], 0), MenuBlock(items[index], index));
  }

  lemma ConcatOfAppended(parts: seq<string>, init: seq<string>, last: string)
    requires parts == init + [last]
    ensures Concat(parts) == Concat(init) + last
  {
    ConcatAppend(init, last);
  }

  /** The loop of `generate` that builds the menu section. */
  method GenerateSection(items: seq<MenuItem>) returns (section: string)
    ensures section == Concat(Blocks(items, 0))
  {
    section := "";
    var index: nat := 0;
    while index < |items|
      invariant 0 <= index <= |items|
      invariant section == Concat(Blocks(items[..index], 0))
    {
      BlocksStep(items, index);
      section := section + MenuBlock(items[index], index);
      index := index + 1;
    }
    assert items[..index] == items;
  }

  /** The parts of `_script_template` around the section. */
  const ScriptHead := "\n// Copyright (c) 2019 ftrack\nusing UnityEngine;\nusing UnityEditor.Scripting.Python;\n\nnamespace UnityEditor.ftrack.connect_unity_engine\n{\n    public static class FtrackMenus\n    {\n        "
  const ScriptTail := "\n    }\n}\n"

  function Script(section: string): string
  {
    ScriptHead + section + ScriptTail
  }

  /** `generate`: the script text it writes. */
  method Generate() returns (script: string)
    ensures script == Script(Concat(Blocks(MenuItems, 0)))
  {
    var section := GenerateSection(MenuItems);
    script := Script(section);
  }

  /** Each field of a string built from seven pieces sits right after the
      pieces before it. */
  lemma SevenPieces(p0: string, a: string, p1: string, m: string, p2: string, d: string, p3: string)
    ensures var b := p0 + a + p1 + m + p2 + d + p3;
      OccursAt(b, a, |p0|) && OccursAt(b, m, |p0| + |a| + |p1|)
      && OccursAt(b, d, |p0| + |a| + |p1| + |m| + |p2|)
  {
    var b := p0 + a + p1 + m + p2 + d + p3;
    var i, j := |p0| + |a| + |p1|, |p0| + |a| + |p1| + |m| + |p2|;
    assert b[|p0|..|p0| + |a|] == a;
    assert b[i..i + |m|] == m;
    assert b[j..j + |d|] == d;
  }

  /** Each block carries its entry's menu path, its own index in the method
      name and its dialog name as the quoted argument, in that order. */
  lemma MenuBlockCarriesItem(item: MenuItem, index: nat)
    ensures var b := MenuBlock(item, index);
      var attributeAt := |Indent|;
      var methodAt := attributeAt + |AttributeOf(item)| + |Declaration|;
      var dialogAt := methodAt + |MethodNameOf(index)| + |CallOpen|;
      OccursAt(b, "[MenuItem(\"ftrack/" + item.menuName + "\")]", attributeAt)
      && OccursAt(b, "ShowDialog" + NatToString(index) + "()", methodAt)
      && OccursAt(b, "\"'" + item.dialogName + "'\"", dialogAt)
  {
    SevenPieces(Indent, AttributeOf(item), Declaration, MethodNameOf(index), CallOpen, DialogArgumentOf(item), BlockTail);
  }

  /** The section appears once, between the fixed head and tail of the
      template, so the script determines the section. */
  lemma ScriptEmbedsSectionOnce(a: string, b: string)
    ensures StartsWith(Script(a), ScriptHead) && EndsWith(Script(a), ScriptTail)
    ensures Script(a)[|ScriptHead|..|Script(a)| - |ScriptTail|] == a
    ensures Script(a) == Script(b) ==> a == b
  {
    var s := Script(a);
    assert s[..|ScriptHead|] == ScriptHead;
    assert s[|s| - |ScriptTail|..] == ScriptTail;
    assert s[|ScriptHead|..|s| - |ScriptTail|] == a;
    if Script(a) == Script(b) {
      assert Script(b)[|ScriptHead|..|Script(b)| - |ScriptTail|] == b;
    }
  }

  /** Of the four menu entries, the client service in the ftrack process opens a dialog
      for all but 'Publish'. */
  lemma PublishMenuOpensNoClientDialog()
    ensures MenuItems[2].dialogName == "Publish" && FtrackClientInit.InitKindForName(MenuItems[2].dialogName).None?
    ensures forall i :: 0 <= i < |MenuItems| && i != 2 ==> FtrackClientInit.InitKindForName(MenuItems[i].dialogName).Some?
  {
  }
}
