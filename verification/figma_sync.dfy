/** The design-sync script (scripts/figma-sync.js): find the component nodes
    of a design document, turn their names into identifiers, keep an index of
    generated components, and regenerate only when the document's version
    differs from the one stored by the previous run. The design service,
    the file system and the generated code text are abstracted: the fetched
    document and the stored files are parameters, and the script's visible
    actions are returned as a list of effects. */
module FigmaSync {
  import opened Wrappers
  import JsText
  import Subsequences

  /** A document node; `children` is empty when the node has none. */
  datatype Node = Node(
    id: string, name: string, nodeType: string, description: Option<string>,
    propertyDefinitions: Option<map<string, string>>, children: seq<Node>)

  datatype Component = Component(
    id: string, name: string, componentType: string, description: string,
    properties: map<string, string>)

  datatype FigmaFile = FigmaFile(version: string, document: Node)

  predicate IsComponentNode(n: Node) {
    n.nodeType == "COMPONENT" || n.nodeType == "COMPONENT_SET"
  }

  /** The record pushed for a component node. */
  function ToComponent(n: Node): (c: Component)
    ensures c.id == n.id && c.name == n.name && c.componentType == n.nodeType
    ensures c.description == n.description.GetOr("")
    ensures c.properties == n.propertyDefinitions.GetOr(map[])
  {
    Component(n.id, n.name, n.nodeType, n.description.GetOr(""), n.propertyDefinitions.GetOr(map[]))
  }

  /** The components found under `n`, `n` itself first, then its children's
      in order (the children of a component are searched too). */
  function ComponentsOf(n: Node): seq<Component>
    decreases n, 1
  {
    (if IsComponentNode(n) then [ToComponent(n)] else []) + ComponentsOfAll(n.children)
  }

  function ComponentsOfAll(ns: seq<Node>): seq<Component>
    decreases ns, 0
  {
    if ns == [] then [] else ComponentsOfAll(ns[..|ns| - 1]) + ComponentsOf(ns[|ns| - 1])
  }

  /** All nodes under `n` in document order (pre-order), as an independent
      reference for the search. */
  function Preorder(n: Node): seq<Node>
    decreases n, 1
  {
    [n] + PreorderAll(n.children)
  }

  function PreorderAll(ns: seq<Node>): seq<Node>
    decreases ns, 0
  {
    if ns == [] then [] else PreorderAll(ns[..|ns| - 1]) + Preorder(ns[|ns| - 1])
  }

  /** Keep the component nodes of a list and convert them, in order. */
  function SelectComponents(ns: seq<Node>): (r: seq<Component>)
    ensures |r| <= |ns|
  {
    if ns == [] then []
    else
      var last := ns[|ns| - 1];
      SelectComponents(ns[..|ns| - 1]) + (if IsComponentNode(last) then [ToComponent(last)] else [])
  }

  lemma {:induction false} SelectComponentsAppend(a: seq<Node>, b: seq<Node>)
    ensures SelectComponents(a + b) == SelectComponents(a) + SelectComponents(b)
    decreases |b|
  {
    if b != [] {
      assert (a + b)[..|a + b| - 1] == a + b[..|b| - 1];
      SelectComponentsAppend(a, b[..|b| - 1]);
    } else {
      assert a + b == a;
    }
  }

  /** The search returns exactly the component nodes, in pre-order document
      order: it is the pre-order walk with every other node dropped. */
  lemma {:induction false} ComponentsArePreorderSelection(n: Node)
    ensures ComponentsOf(n) == SelectComponents(Preorder(n))
    decreases n, 1
  {
    ComponentsArePreorderSelectionAll(n.children);
    SelectComponentsAppend([n], PreorderAll(n.children));
    assert [n][..0] == [];
  }

  lemma {:induction false} ComponentsArePreorderSelectionAll(ns: seq<Node>)
    ensures ComponentsOfAll(ns) == SelectComponents(PreorderAll(ns))
    decreases ns, 0
  {
    if ns != [] {
      ComponentsArePreorderSelectionAll(ns[..|ns| - 1]);
      ComponentsArePreorderSelection(ns[|ns| - 1]);
      SelectComponentsAppend(PreorderAll(ns[..|ns| - 1]), Preorder(ns[|ns| - 1]));
    }
  }

  /** `traverse(node)` with its accumulator: pushes `node` if it is a
      component, then walks the children in order. */
  method Traverse(node: Node, acc: seq<Component>) returns (out: seq<Component>)
    ensures out == acc + ComponentsOf(node)
    decreases node
  {
    out := acc;
    if IsComponentNode(node) {
      out := out + [ToComponent(node)];
    }
    ghost var own := if IsComponentNode(node) then [ToComponent(node)] else [];
    var i := 0;
    while i < |node.children|
      invariant 0 <= i <= |node.children|
      invariant out == acc + own + ComponentsOfAll(node.children[..i])
    {
      assert node.children[..i + 1][..i] == node.children[..i];
      out := Traverse(node.children[i], out);
      i := i + 1;
    }
    assert node.children[..i] == node.children;
  }

  /** `extractComponents`: the traversal started on every top-level child
      of the document. */
  method ExtractComponents(file: FigmaFile) returns (components: seq<Component>)
    ensures components == ComponentsOfAll(file.document.children)
    ensures components == SelectComponents(PreorderAll(file.document.children))
  {
    var top := file.document.children;
    components := [];
    var i := 0;
    while i < |top|
      invariant 0 <= i <= |top|
      invariant components == ComponentsOfAll(top[..i])
    {
      assert top[..i + 1][..i] == top[..i];
      components := Traverse(top[i], components);
      i := i + 1;
    }
    assert top[..i] == top;
    ComponentsArePreorderSelectionAll(top);
  }

  predicate IsAsciiAlnum(c: char) {
    ('a' <= c <= 'z') || ('A' <= c <= 'Z') || ('0' <= c <= '9')
  }

  /** `name.replace(/[^a-zA-Z0-9]/g, '')`: the ASCII letters and digits of
      the name, in their order. */
  function SanitizeName(name: string): (r: string)
    ensures |r| <= |name|
    ensures forall i :: 0 <= i < |r| ==> IsAsciiAlnum(r[i])
    ensures (forall i :: 0 <= i < |name| ==> IsAsciiAlnum(name[i])) ==> r == name
  {
    if name == [] then []
    else
      assert name == [name[0]] + name[1..];
      (if IsAsciiAlnum(name[0]) then [name[0]] else []) + SanitizeName(name[1..])
  }

  /** Sanitising keeps every letter and digit of the name, each as often as
      it occurs, in their order. */
  lemma {:induction false} SanitizeNameKeepsAlnum(name: string)
    ensures Subsequences.IsSubsequence(SanitizeName(name), name)
    ensures forall c :: IsAsciiAlnum(c) ==> multiset(SanitizeName(name))[c] == multiset(name)[c]
  {
    if name != [] {
      var rest := SanitizeName(name[1..]);
      SanitizeNameKeepsAlnum(name[1..]);
      assert name == [name[0]] + name[1..];
      var before := multiset(name[1..]);
      assert multiset(name) == multiset{name[0]} + before;
      if IsAsciiAlnum(name[0]) {
        SanitizeNameKeepsHead(name);
      } else {
        SanitizeNameDropsHead(name);
        Subsequences.SubsequenceDropHead(rest, name);
        forall c | IsAsciiAlnum(c)
          ensures multiset(SanitizeName(name))[c] == multiset(name)[c]
        {
          assert c != name[0];
        }
      }
    }
  }

  lemma SanitizeNameDropsHead(name: string)
    requires name != [] && !IsAsciiAlnum(name[0])
    ensures SanitizeName(name) == SanitizeName(name[1..])
  {
    assert [] + SanitizeName(name[1..]) == SanitizeName(name[1..]);
  }

  lemma SanitizeNameKeepsHead(name: string)
    requires name != [] && IsAsciiAlnum(name[0])
    requires Subsequences.IsSubsequence(SanitizeName(name[1..]), name[1..])
    ensures Subsequences.IsSubsequence(SanitizeName(name), name)
    ensures multiset(SanitizeName(name)) == multiset{name[0]} + multiset(SanitizeName(name[1..]))
  {
    var rest := SanitizeName(name[1..]);
    assert SanitizeName(name) == [name[0]] + rest;
    assert ([name[0]] + rest)[1..] == rest;
  }

  /** Sanitising works character by character, so it splits over a
      concatenation. */
  lemma {:induction false} SanitizeNameAppend(a: string, b: string)
    ensures SanitizeName(a + b) == SanitizeName(a) + SanitizeName(b)
  {
    if a != [] {
      assert (a + b)[1..] == a[1..] + b;
      SanitizeNameAppend(a[1..], b);
    } else {
      assert a + b == b;
    }
  }

  /** A sanitised name is sanitised already. */
  lemma SanitizeNameIdempotent(name: string)
    ensures SanitizeName(SanitizeName(name)) == SanitizeName(name)
  {
  }

  const IndexHeader: string := "// Auto-generated component index\n\n"

  /** The line the index holds for a component. */
  function ExportLine(name: string): string {
    "export { default as " + name + " } from './" + name + ".js';"
  }

  /** The index file after `updateComponentIndex(name)` (`None`: no file):
      a missing file starts from the header; the export line is appended,
      with a newline, only when the text does not contain it yet. */
  function IndexAfter(content: Option<string>, name: string): (r: Option<string>)
    ensures r.Some?
    ensures JsText.Includes(r.value, ExportLine(name))
    ensures content.Some? ==> JsText.StartsWith(r.value, content.value)
    // a missing file becomes the header and the line; a file that already
    // holds the line is left as it is
    ensures content.None? ==> r == Some(IndexHeader + ExportLine(name) + "\n")
    ensures JsText.Includes(content.GetOr(IndexHeader), ExportLine(name)) ==> r == content
  {
    var text := content.GetOr(IndexHeader);
    var line := ExportLine(name);
    if JsText.Includes(text, line) then
      assert content.Some?;
      content
    else
      JsText.IncludesInfix(text, line, "\n");
      assert (text + line + "\n")[..|text|] == text;
      Some(text + line + "\n")
  }

  /** Updating the index twice for the same name is the same as once. */
  lemma IndexAfterIdempotent(content: Option<string>, name: string)
    ensures IndexAfter(IndexAfter(content, name), name) == IndexAfter(content, name)
  {
  }

  /** Earlier export lines survive later updates. */
  lemma IndexAfterKeeps(content: string, name: string, other: string)
    requires JsText.Includes(content, ExportLine(other))
    ensures JsText.Includes(IndexAfter(Some(content), name).value, ExportLine(other))
  {
    var line := ExportLine(name);
    if !JsText.Includes(content, line) {
      JsText.IncludesAppend(content, ExportLine(other), line + "\n");
      assert content + line + "\n" == content + (line + "\n");
    }
  }

  /** The index file on disk. */
  class ComponentIndexFile {
    var content: Option<string>

    constructor (initial: Option<string>)
      ensures content == initial
    {
      content := initial;
    }

    /** `updateComponentIndex`: a failed write is logged and leaves the file
        as it was. */
    method UpdateComponentIndex(name: string, writeFails: bool)
      modifies this
      ensures !writeFails ==> content == IndexAfter(old(content), name)
      ensures writeFails ==> content == old(content)
      ensures JsText.Includes(IndexAfter(old(content), name).value, ExportLine(name))
    {
      var text := content.GetOr(IndexHeader);
      var line := ExportLine(name);
      if !JsText.Includes(text, line) {
        text := text + line + "\n";
        if !writeFails {
          content := Some(text);
        }
      }
    }
  }

  /** `getLastVersion`: the stored version, trimmed; `None` when the file
      cannot be read. */
  function GetLastVersion(versionFile: Option<string>): (r: Option<string>)
    ensures versionFile.None? <==> r.None?
    ensures r.Some? ==> r.value == JsText.Trim(versionFile.value)
  {
    match versionFile
    case None => None
    case Some(text) => Some(JsText.Trim(text))
  }

  /** What a run of the script visibly does, in order. */
  datatype Effect =
    | ComponentSaved(name: string)
    | TasksRegistered(count: nat)
    | VersionSaved(version: string)
    | ExitedWithFailure

  /** The saves of the first `n` components, in order. */
  function SavedNames(components: seq<Component>, n: nat): (r: seq<Effect>)
    requires n <= |components|
    ensures |r| == n
    ensures forall i :: 0 <= i < n ==> r[i] == ComponentSaved(SanitizeName(components[i].name))
  {
    seq(n, i requires 0 <= i < n => ComponentSaved(SanitizeName(components[i].name)))
  }

  /** Saving one more component appends its save to the list. */
  lemma SavedNamesSnoc(components: seq<Component>, n: nat)
    requires n < |components|
    ensures SavedNames(components, n + 1) == SavedNames(components, n) + [ComponentSaved(SanitizeName(components[n].name))]
  {
  }

  /** The effects of a run past the version gate over the components
      found: one save per component (stopping with an exit at the save that
      throws, if any), then the tasks, then the new version. */
  function RunEffects(components: seq<Component>, version: string, failingSave: Option<nat>): seq<Effect>
  {
    if failingSave.Some? && failingSave.value < |components| then
      SavedNames(components, failingSave.value) + [ExitedWithFailure]
    else
      SavedNames(components, |components|) + [TasksRegistered(|components|), VersionSaved(version)]
  }

  /** What `sync` does: fetch the document, stop if its version is the
      stored one, otherwise save every component, register the tasks and only
      then store the new version. `fetched` is the design service's answer,
      `versionFile` the stored version file, and `failingSave` the position
      of the first component whose save throws, if any. Any thrown error
      ends the run with exit code 1. */
  function SyncEffects(fetched: Result<FigmaFile, string>, versionFile: Option<string>, failingSave: Option<nat>)
    : seq<Effect>
  {
    if fetched.Failure? then [ExitedWithFailure]
    else if GetLastVersion(versionFile) == Some(fetched.value.version) then []
    else RunEffects(ComponentsOfAll(fetched.value.document.children), fetched.value.version, failingSave)
  }

  /** An unchanged document version makes the run do nothing at all. */
  lemma SyncVersionGate(file: FigmaFile, versionFile: Option<string>, failingSave: Option<nat>)
    requires GetLastVersion(versionFile) == Some(file.version)
    ensures SyncEffects(Success(file), versionFile, failingSave) == []
  {
  }

  /** Within a run past the gate, a stored version comes last, right after
      the tasks, with every component saved before it. */
  lemma RunSavesVersionLast(components: seq<Component>, version: string, failingSave: Option<nat>, i: nat)
    requires i < |RunEffects(components, version, failingSave)|
    requires RunEffects(components, version, failingSave)[i].VersionSaved?
    ensures var effects := RunEffects(components, version, failingSave);
      && effects[i].version == version
      && i == |effects| - 1 && i >= 1 && effects[i - 1] == TasksRegistered(i - 1)
      && i - 1 == |components|
      && forall j :: 0 <= j < i - 1 ==> effects[j].ComponentSaved?
  {
  }

  /** The version is stored last, right after the tasks, and only when every
      component was saved before it; a run that stores a version saves one
      file per component. */
  lemma {:induction false} SyncSavesVersionLast(fetched: Result<FigmaFile, string>, versionFile: Option<string>,
                                               failingSave: Option<nat>, i: nat)
    requires i < |SyncEffects(fetched, versionFile, failingSave)|
    requires SyncEffects(fetched, versionFile, failingSave)[i].VersionSaved?
    ensures var effects := SyncEffects(fetched, versionFile, failingSave);
      && fetched.Success? && effects[i].version == fetched.value.version
      && i == |effects| - 1 && i >= 1 && effects[i - 1] == TasksRegistered(i - 1)
      && i - 1 == |ComponentsOfAll(fetched.value.document.children)|
      && forall j :: 0 <= j < i - 1 ==> effects[j].ComponentSaved?
  {
    assert fetched.Success?;
    RunSavesVersionLast(ComponentsOfAll(fetched.value.document.children), fetched.value.version, failingSave, i);
  }

  /** `sync` itself: the effects in the order it performs them. */
  method Sync(fetched: Result<FigmaFile, string>, versionFile: Option<string>, failingSave: Option<nat>)
    returns (effects: seq<Effect>)
    ensures effects == SyncEffects(fetched, versionFile, failingSave)
  {
    if fetched.Failure? {
      return [ExitedWithFailure];
    }
    var file := fetched.value;
    var lastVersion := GetLastVersion(versionFile);
    if lastVersion == Some(file.version) {
      return [];
    }
    var components := ExtractComponents(file);
    effects := [];
    var i := 0;
    while i < |components|
      invariant 0 <= i <= |components|
      invariant failingSave.Some? ==> i <= failingSave.value
      invariant effects == SavedNames(components, i)
    {
      if failingSave == Some(i) {
        effects := effects + [ExitedWithFailure];
        return;
      }
      SavedNamesSnoc(components, i);
      effects := effects + [ComponentSaved(SanitizeName(components[i].name))];
      i := i + 1;
    }
    effects := effects + [TasksRegistered(|components|), VersionSaved(file.version)];
  }
}
