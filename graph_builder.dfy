/**
 * The incremental knowledge-graph build. Folders become `folder` nodes, Markdown files become
 * `file` nodes keyed by their path below the source root and carrying the hash of their text;
 * a file whose stored hash matches is skipped, a new or changed one loses its outgoing edges
 * and gets them back from its text (its parent issue, the issue keys it mentions and the
 * Markdown links it holds). Files no longer present are removed at the end. The directory
 * walk, file reading, the hash, the three link patterns and path normalisation are parameters.
 */
module GraphBuilding {
  import opened Wrappers
  import opened Text
  import opened DiGraphs

  /** `str(rel_root)` of the source root itself. */
  const Root: string := "."

  const FolderType: string := "folder"
  const FileType: string := "file"
  const IssueType: string := "jira_issue"

  /** A file the walk lists: its name, `str(rel_path)`, and its text, or None when reading raises. */
  datatype WalkedFile = WalkedFile(name: string, id: string, content: Option<string>)

  /** A directory the walk visits: `str(rel_root)`, `rel_root.name`, `str(rel_root.parent)` and its files. */
  datatype WalkedDir = WalkedDir(relRoot: string, folderName: string, parent: string, files: seq<WalkedFile>)

  /**
   * What the patterns find in a file's text: group 1 of the first `Parent: [KEY-n]` (any case),
   * every `[KEY-n]` (upper case only, so an upper-case parent key is among them too), and the
   * target of every Markdown link `[text](target)`, in order.
   */
  datatype Relations = Relations(parent: Option<string>, mentions: seq<string>, links: seq<string>)

  /** The environment of a build: the file hash, the pattern scan and `str(Path(link))`. */
  datatype Oracles = Oracles(hash: string -> string, scan: string -> Relations, pathStr: string -> string)

  function Relation(name: string): Attrs
  {
    map["relation" := name]
  }

  /** A node typed `file`: `data.get("type") == "file"`. */
  predicate IsFileNode(a: Attrs)
  {
    "type" in a && a["type"] == FileType
  }

  // ------------------------------------------------------------------ relations of one file

  /** The `MENTIONS` loop: each key becomes an issue node with an edge from the file. */
  function AddMentions(g: DiGraph, source: string, keys: seq<string>): DiGraph
  {
    if keys == [] then g
    else
      var k := keys[|keys| - 1];
      AddEdge(AddNode(AddMentions(g, source, keys[..|keys| - 1]), k, map["type" := IssueType]), source, k, Relation("MENTIONS"))
  }

  /** Mentions keep the graph valid, lose no node and add exactly the edges from the file to the keys. */
  lemma {:induction false} MentionsFacts(g: DiGraph, source: string, keys: seq<string>)
    ensures var r := AddMentions(g, source, keys);
      && (Valid(g) ==> Valid(r))
      && (forall e :: e in r.edgeAttrs <==> e in g.edgeAttrs || (e.0 == source && e.1 in keys))
      && (forall m :: m in g.attrs ==> m in r.attrs)
      && (forall m :: m in g.attrs && m !in keys ==> r.attrs[m] == g.attrs[m])
    decreases |keys|
  {
    if keys != [] {
      var k := keys[|keys| - 1];
      var init := keys[..|keys| - 1];
      MentionsFacts(g, source, init);
      var g1 := AddMentions(g, source, init);
      AddNodeFacts(g1, k, map["type" := IssueType]);
      AddEdgeFacts(AddNode(g1, k, map["type" := IssueType]), source, k, Relation("MENTIONS"));
      assert forall x :: x in keys <==> x in init || x == k;
    }
  }

  /** The edge `e` exists and its relation is `name`. */
  predicate HasRelation(g: DiGraph, e: Edge, name: string)
  {
    e in g.edgeAttrs && "relation" in g.edgeAttrs[e] && g.edgeAttrs[e]["relation"] == name
  }

  /** After the mention loop every key's edge from the file says `MENTIONS`; the other edges keep their attributes. */
  lemma {:induction false} MentionsRelation(g: DiGraph, source: string, keys: seq<string>)
    ensures forall k :: k in keys ==> HasRelation(AddMentions(g, source, keys), (source, k), "MENTIONS")
    ensures forall e :: e in g.edgeAttrs && !(e.0 == source && e.1 in keys) ==>
      e in AddMentions(g, source, keys).edgeAttrs && AddMentions(g, source, keys).edgeAttrs[e] == g.edgeAttrs[e]
    decreases |keys|
  {
    if keys != [] {
      var k := keys[|keys| - 1];
      var init := keys[..|keys| - 1];
      MentionsRelation(g, source, init);
      var g1 := AddMentions(g, source, init);
      var g2 := AddNode(g1, k, map["type" := IssueType]);
      assert g2.edgeAttrs == g1.edgeAttrs;
      var r := AddEdge(g2, source, k, Relation("MENTIONS"));
      assert r == AddMentions(g, source, keys);
      AddEdgeFacts(g2, source, k, Relation("MENTIONS"));
      forall x | x in keys ensures HasRelation(r, (source, x), "MENTIONS") {
        if x != k {
          assert x in init;
          assert HasRelation(g1, (source, x), "MENTIONS");
        }
      }
    }
  }

  /** Where the Markdown links point: `str(Path(link))` of each. */
  function LinkTargets(links: seq<string>, pathStr: string -> string): (r: seq<string>)
    ensures |r| == |links|
    ensures forall i :: 0 <= i < |links| ==> r[i] == pathStr(links[i])
  {
    if links == [] then [] else LinkTargets(links[..|links| - 1], pathStr) + [pathStr(links[|links| - 1])]
  }

  /** The `REFERENCES` loop: an edge from the file to each link target. */
  function AddReferences(g: DiGraph, source: string, targets: seq<string>): DiGraph
  {
    if targets == [] then g
    else AddEdge(AddReferences(g, source, targets[..|targets| - 1]), source, targets[|targets| - 1], Relation("REFERENCES"))
  }

  /** References keep the graph valid, lose no node and add exactly the edges from the file to the targets. */
  lemma {:induction false} ReferencesFacts(g: DiGraph, source: string, targets: seq<string>)
    ensures var r := AddReferences(g, source, targets);
      && (Valid(g) ==> Valid(r))
      && (forall e :: e in r.edgeAttrs <==> e in g.edgeAttrs || (e.0 == source && e.1 in targets))
      && (forall m :: m in g.attrs ==> m in r.attrs && r.attrs[m] == g.attrs[m])
    decreases |targets|
  {
    if targets != [] {
      var t := targets[|targets| - 1];
      var init := targets[..|targets| - 1];
      ReferencesFacts(g, source, init);
      AddEdgeFacts(AddReferences(g, source, init), source, t, Relation("REFERENCES"));
      assert forall x :: x in targets <==> x in init || x == t;
    }
  }

  /** After the reference loop every target's edge from the file says `REFERENCES`; the other edges keep their attributes. */
  lemma {:induction false} ReferencesRelation(g: DiGraph, source: string, targets: seq<string>)
    ensures forall t :: t in targets ==> HasRelation(AddReferences(g, source, targets), (source, t), "REFERENCES")
    ensures forall e :: e in g.edgeAttrs && !(e.0 == source && e.1 in targets) ==>
      e in AddReferences(g, source, targets).edgeAttrs && AddReferences(g, source, targets).edgeAttrs[e] == g.edgeAttrs[e]
    decreases |targets|
  {
    if targets != [] {
      var t := targets[|targets| - 1];
      var init := targets[..|targets| - 1];
      ReferencesRelation(g, source, init);
      var g1 := AddReferences(g, source, init);
      var r := AddEdge(g1, source, t, Relation("REFERENCES"));
      assert r == AddReferences(g, source, targets);
      AddEdgeFacts(g1, source, t, Relation("REFERENCES"));
      forall x | x in targets ensures HasRelation(r, (source, x), "REFERENCES") {
        if x != t {
          assert x in init;
          assert HasRelation(g1, (source, x), "REFERENCES");
        }
      }
    }
  }

  /** The parent issue: an issue node, `PARENT_OF` from it to the file and `CHILD_OF` back. */
  function AddParent(g: DiGraph, source: string, parent: Option<string>): DiGraph
  {
    match parent
    case None => g
    case Some(t) =>
      AddEdge(AddEdge(AddNode(g, t, map["type" := IssueType]), t, source, Relation("PARENT_OF")), source, t, Relation("CHILD_OF"))
  }

  /** The parent issue keeps the graph valid, loses no node and adds exactly the two edges. */
  lemma ParentFacts(g: DiGraph, source: string, parent: Option<string>)
    ensures var r := AddParent(g, source, parent);
      && (Valid(g) ==> Valid(r))
      && (forall e :: e in r.edgeAttrs <==> (e in g.edgeAttrs ||
           (parent.Some? && (e == (parent.value, source) || e == (source, parent.value)))))
      && (forall m :: m in g.attrs ==> m in r.attrs)
      && (forall m :: m in g.attrs && parent != Some(m) ==> r.attrs[m] == g.attrs[m])
  {
    if parent.Some? {
      var t := parent.value;
      var g1 := AddNode(g, t, map["type" := IssueType]);
      AddNodeFacts(g, t, map["type" := IssueType]);
      AddEdgeFacts(g1, t, source, Relation("PARENT_OF"));
      AddEdgeFacts(AddEdge(g1, t, source, Relation("PARENT_OF")), source, t, Relation("CHILD_OF"));
    }
  }

  /**
   * The parent issue's edges carry their relations: `PARENT_OF` from the issue to the file and
   * `CHILD_OF` back, and the issue is typed `jira_issue`. (A file naming itself as its parent
   * gets one self-loop, whose relation the second edge overwrites with `CHILD_OF`.)
   */
  lemma ParentRelations(g: DiGraph, source: string, t: string)
    requires t != source
    ensures var r := AddParent(g, source, Some(t));
      && (t, source) in r.edgeAttrs && "relation" in r.edgeAttrs[(t, source)]
      && r.edgeAttrs[(t, source)]["relation"] == "PARENT_OF"
      && (source, t) in r.edgeAttrs && "relation" in r.edgeAttrs[(source, t)]
      && r.edgeAttrs[(source, t)]["relation"] == "CHILD_OF"
      && t in r.attrs && "type" in r.attrs[t] && r.attrs[t]["type"] == IssueType
  {
    var g1 := AddNode(g, t, map["type" := IssueType]);
    AddNodeFacts(g, t, map["type" := IssueType]);
    AddEdgeFacts(g1, t, source, Relation("PARENT_OF"));
    AddEdgeFacts(AddEdge(g1, t, source, Relation("PARENT_OF")), source, t, Relation("CHILD_OF"));
  }

  /** `_extract_relations`: the parent issue, then the mentioned keys, then the links. */
  function ExtractSpec(g: DiGraph, source: string, rels: Relations, pathStr: string -> string): DiGraph
  {
    AddReferences(AddMentions(AddParent(g, source, rels.parent), source, rels.mentions), source, LinkTargets(rels.links, pathStr))
  }

  /** Every target the text of a file names: its parent issue, the keys it mentions, its link targets. */
  function Targets(rels: Relations, pathStr: string -> string): seq<string>
  {
    (if rels.parent.Some? then [rels.parent.value] else []) + rels.mentions + LinkTargets(rels.links, pathStr)
  }

  /**
   * Extraction keeps the graph valid and adds exactly the edges from the file to the targets
   * its text names and the `PARENT_OF` edge back from its parent issue; no edge or node is lost.
   */
  lemma ExtractAddsTargets(g: DiGraph, source: string, rels: Relations, pathStr: string -> string)
    ensures Valid(g) ==> Valid(ExtractSpec(g, source, rels, pathStr))
    ensures forall e :: e in ExtractSpec(g, source, rels, pathStr).edgeAttrs <==>
      e in g.edgeAttrs || (e.0 == source && e.1 in Targets(rels, pathStr)) ||
      (rels.parent.Some? && e == (rels.parent.value, source))
    ensures forall m :: m in g.attrs ==> m in ExtractSpec(g, source, rels, pathStr).attrs
    ensures forall m :: m in g.attrs && rels.parent != Some(m) && m !in rels.mentions ==>
      ExtractSpec(g, source, rels, pathStr).attrs[m] == g.attrs[m]
  {
    var g1 := AddParent(g, source, rels.parent);
    var g2 := AddMentions(g1, source, rels.mentions);
    ParentFacts(g, source, rels.parent);
    MentionsFacts(g1, source, rels.mentions);
    ReferencesFacts(g2, source, LinkTargets(rels.links, pathStr));
  }

  /** The parent step leaves the file's edge to its parent with relation `CHILD_OF`. */
  lemma ParentChildEdge(g: DiGraph, source: string, p: string)
    ensures HasRelation(AddParent(g, source, Some(p)), (source, p), "CHILD_OF")
  {
    var g0 := AddEdge(AddNode(g, p, map["type" := IssueType]), p, source, Relation("PARENT_OF"));
    AddEdgeFacts(g0, source, p, Relation("CHILD_OF"));
  }

  /**
   * The relation a file's edge to a named target ends with, each loop overwriting the one
   * before: `REFERENCES` for a link target, else `MENTIONS` for a mentioned key, else `CHILD_OF`
   * for the parent issue.
   */
  lemma ExtractFinalRelation(g: DiGraph, source: string, rels: Relations, pathStr: string -> string, t: string)
    requires t in Targets(rels, pathStr)
    ensures HasRelation(ExtractSpec(g, source, rels, pathStr), (source, t),
      if t in LinkTargets(rels.links, pathStr) then "REFERENCES"
      else if t in rels.mentions then "MENTIONS"
      else "CHILD_OF")
  {
    var g1 := AddParent(g, source, rels.parent);
    var g2 := AddMentions(g1, source, rels.mentions);
    var links := LinkTargets(rels.links, pathStr);
    assert ExtractSpec(g, source, rels, pathStr) == AddReferences(g2, source, links);
    ReferencesRelation(g2, source, links);
    if t !in links {
      MentionsRelation(g1, source, rels.mentions);
      if t !in rels.mentions {
        assert rels.parent == Some(t);
        ParentChildEdge(g, source, t);
        assert HasRelation(g2, (source, t), "CHILD_OF");
      }
    }
  }

  /**
   * A parent key the mention pattern also finds ends as a `MENTIONS` edge, not `CHILD_OF`. The
   * parent pattern ignores case but the mention pattern does not, so this is the outcome for
   * every parent written in upper case, and `CHILD_OF` survives only for one in lower case.
   */
  lemma MentionedParentIsMention(g: DiGraph, source: string, rels: Relations, pathStr: string -> string)
    requires rels.parent.Some? && rels.parent.value in rels.mentions
    requires rels.parent.value !in LinkTargets(rels.links, pathStr)
    ensures HasRelation(ExtractSpec(g, source, rels, pathStr), (source, rels.parent.value), "MENTIONS")
  {
    ExtractFinalRelation(g, source, rels, pathStr, rels.parent.value);
  }

  // ------------------------------------------------------------------ one file, one folder

  /** The hash stored on node `id` equals `h`: the file is unchanged and skipped. */
  predicate Unchanged(g: DiGraph, id: string, h: string)
  {
    id in g.attrs && "hash" in g.attrs[id] && g.attrs[id]["hash"] == h
  }

  /** The graph after the file has been cleared and re-added, before its text is scanned. */
  function Readded(g: DiGraph, dir: string, f: WalkedFile, h: string): DiGraph
  {
    var g1 := if f.id in g.attrs then RemoveOutEdges(g, f.id) else g;
    var g2 := AddNode(g1, f.id, map["type" := FileType, "label" := f.name, "hash" := h]);
    if dir != Root then AddEdge(g2, dir, f.id, Relation("CONTAINS")) else g2
  }

  /**
   * One file of the walk: a file that is not Markdown, cannot be read or is unchanged leaves
   * the graph as it is; any other is cleared, re-added and scanned.
   */
  function FileStep(g: DiGraph, dir: string, f: WalkedFile, o: Oracles): DiGraph
  {
    if !IsMarkdown(f.name) || f.content.None? then g
    else
      var h := o.hash(f.content.value);
      if Unchanged(g, f.id, h) then g
      else ExtractSpec(Readded(g, dir, f, h), f.id, o.scan(f.content.value), o.pathStr)
  }

  /**
   * A new or changed file ends up with exactly the outgoing edges its text names (the old ones
   * are gone) and its `CONTAINS` edge from a folder that is not the root.
   */
  lemma ChangedFileEdges(g: DiGraph, dir: string, f: WalkedFile, o: Oracles)
    requires IsMarkdown(f.name) && f.content.Some?
    requires !Unchanged(g, f.id, o.hash(f.content.value))
    requires Valid(g) && dir != f.id
    ensures var r := FileStep(g, dir, f, o);
      var rels := o.scan(f.content.value);
      && Valid(r)
      && (forall v :: (f.id, v) in r.edgeAttrs <==> v in Targets(rels, o.pathStr))
      && (dir != Root ==> (dir, f.id) in r.edgeAttrs)
  {
    var h := o.hash(f.content.value);
    var g3 := Readded(g, dir, f, h);
    ReaddedEdges(g, dir, f, h);
    ExtractFromCleared(g3, f.id, o.scan(f.content.value), o.pathStr);
    assert FileStep(g, dir, f, o) == ExtractSpec(g3, f.id, o.scan(f.content.value), o.pathStr);
  }

  /** Extraction for a node with no outgoing edge gives it exactly the edges to the targets. */
  lemma ExtractFromCleared(g: DiGraph, source: string, rels: Relations, pathStr: string -> string)
    requires Valid(g)
    requires forall v :: (source, v) !in g.edgeAttrs
    ensures var r := ExtractSpec(g, source, rels, pathStr);
      && Valid(r)
      && (forall v :: (source, v) in r.edgeAttrs <==> v in Targets(rels, pathStr))
      && (forall e :: e in g.edgeAttrs ==> e in r.edgeAttrs)
  {
    ExtractAddsTargets(g, source, rels, pathStr);
  }

  /**
   * Unless the id of a new or changed file is itself the parent issue or a key its text names,
   * its node is typed `file` and carries its name and its new hash.
   */
  lemma ChangedFileNode(g: DiGraph, dir: string, f: WalkedFile, o: Oracles)
    requires IsMarkdown(f.name) && f.content.Some?
    requires !Unchanged(g, f.id, o.hash(f.content.value))
    requires var rels := o.scan(f.content.value); rels.parent != Some(f.id) && f.id !in rels.mentions
    ensures var r := FileStep(g, dir, f, o);
      && f.id in r.attrs
      && var a := r.attrs[f.id];
         IsFileNode(a) && "label" in a && a["label"] == f.name && "hash" in a && a["hash"] == o.hash(f.content.value)
  {
    var h := o.hash(f.content.value);
    ReaddedNode(g, dir, f, h);
    ExtractAddsTargets(Readded(g, dir, f, h), f.id, o.scan(f.content.value), o.pathStr);
  }

  /**
   * Re-adding a file keeps the graph valid, keeps every edge that does not leave the file and
   * adds its `CONTAINS` edge from a folder that is not the root.
   */
  lemma ReaddedEdges(g: DiGraph, dir: string, f: WalkedFile, h: string)
    requires Valid(g)
    ensures var r := Readded(g, dir, f, h);
      && Valid(r)
      && (forall e :: e in r.edgeAttrs <==> (e in g.edgeAttrs && e.0 != f.id) || (dir != Root && e == (dir, f.id)))
  {
    var a := map["type" := FileType, "label" := f.name, "hash" := h];
    var g1 := if f.id in g.attrs then RemoveOutEdges(g, f.id) else g;
    RemoveOutEdgesFacts(g, f.id);
    assert Valid(g1) && forall e :: e in g1.edgeAttrs <==> e in g.edgeAttrs && e.0 != f.id;
    AddNodeFacts(g1, f.id, a);
    if dir != Root {
      AddEdgeFacts(AddNode(g1, f.id, a), dir, f.id, Relation("CONTAINS"));
    }
  }

  /** The re-added file node is typed `file` and carries the file's name and hash. */
  lemma ReaddedNode(g: DiGraph, dir: string, f: WalkedFile, h: string)
    ensures var r := Readded(g, dir, f, h);
      && f.id in r.attrs
      && var a := r.attrs[f.id];
         IsFileNode(a) && "label" in a && a["label"] == f.name && "hash" in a && a["hash"] == h
  {
    var a := map["type" := FileType, "label" := f.name, "hash" := h];
    var g1 := if f.id in g.attrs then RemoveOutEdges(g, f.id) else g;
    AddNodeFacts(g1, f.id, a);
    if dir != Root {
      AddEdgeFacts(AddNode(g1, f.id, a), dir, f.id, Relation("CONTAINS"));
    }
  }

  /** Any file step keeps the graph valid. */
  lemma FileKeepsValid(g: DiGraph, dir: string, f: WalkedFile, o: Oracles)
    requires Valid(g)
    ensures Valid(FileStep(g, dir, f, o))
  {
    if IsMarkdown(f.name) && f.content.Some? {
      var h := o.hash(f.content.value);
      if !Unchanged(g, f.id, h) {
        ReaddedEdges(g, dir, f, h);
        ExtractAddsTargets(Readded(g, dir, f, h), f.id, o.scan(f.content.value), o.pathStr);
      }
    }
  }

  /** A file whose stored hash matches, or that is not Markdown or unreadable, changes nothing. */
  lemma SkippedFile(g: DiGraph, dir: string, f: WalkedFile, o: Oracles)
    requires !IsMarkdown(f.name) || f.content.None? || Unchanged(g, f.id, o.hash(f.content.value))
    ensures FileStep(g, dir, f, o) == g
  {
  }

  /** The files of one directory, in walk order. */
  function FilesStep(g: DiGraph, dir: string, files: seq<WalkedFile>, o: Oracles): DiGraph
  {
    if files == [] then g
    else FileStep(FilesStep(g, dir, files[..|files| - 1], o), dir, files[|files| - 1], o)
  }

  /**
   * The folder part of one directory: any folder but the root becomes a `folder` node, with a
   * `CONTAINS` edge from its parent when that is not the root.
   */
  function FolderStep(g: DiGraph, d: WalkedDir): DiGraph
  {
    if d.relRoot == Root then g
    else
      var g1 := AddNode(g, d.relRoot, map["type" := FolderType, "label" := d.folderName]);
      if d.parent == Root then g1 else AddEdge(g1, d.parent, d.relRoot, Relation("CONTAINS"))
  }

  /**
   * The folder step keeps the graph valid, does nothing for the root, and otherwise leaves a
   * `folder` node for the directory and a `CONTAINS` edge to it from a parent that is not the root.
   */
  lemma FolderFacts(g: DiGraph, d: WalkedDir)
    ensures var r := FolderStep(g, d);
      && (Valid(g) ==> Valid(r))
      && (d.relRoot == Root ==> r == g)
      && (d.relRoot != Root ==>
           d.relRoot in r.attrs && "type" in r.attrs[d.relRoot] && r.attrs[d.relRoot]["type"] == FolderType)
      && (d.relRoot != Root && d.parent != Root ==>
           var e := (d.parent, d.relRoot);
           e in r.edgeAttrs && "relation" in r.edgeAttrs[e] && r.edgeAttrs[e]["relation"] == "CONTAINS")
  {
    if d.relRoot != Root {
      var a := map["type" := FolderType, "label" := d.folderName];
      AddNodeFacts(g, d.relRoot, a);
      AddEdgeFacts(AddNode(g, d.relRoot, a), d.parent, d.relRoot, Relation("CONTAINS"));
    }
  }

  function DirStep(g: DiGraph, d: WalkedDir, o: Oracles): DiGraph
  {
    FilesStep(FolderStep(g, d), d.relRoot, d.files, o)
  }

  /** The walk: every directory in turn. */
  function WalkSpec(g: DiGraph, dirs: seq<WalkedDir>, o: Oracles): DiGraph
  {
    if dirs == [] then g else DirStep(WalkSpec(g, dirs[..|dirs| - 1], o), dirs[|dirs| - 1], o)
  }

  // ------------------------------------------------------------------ the whole build

  /** The ids of the Markdown files of some directories, readable or not. */
  function ActiveFiles(files: seq<WalkedFile>): set<string>
  {
    if files == [] then {}
    else
      var f := files[|files| - 1];
      ActiveFiles(files[..|files| - 1]) + if IsMarkdown(f.name) then {f.id} else {}
  }

  function ActiveIn(dirs: seq<WalkedDir>): set<string>
  {
    if dirs == [] then {} else ActiveIn(dirs[..|dirs| - 1]) + ActiveFiles(dirs[|dirs| - 1].files)
  }

  /** The active ids are exactly the ids of the Markdown files the walk lists. */
  lemma {:induction false} ActiveAreMarkdown(dirs: seq<WalkedDir>)
    ensures forall n :: n in ActiveIn(dirs) <==>
      exists d, f :: d in dirs && f in d.files && IsMarkdown(f.name) && f.id == n
    decreases |dirs|
  {
    if dirs != [] {
      var init := dirs[..|dirs| - 1];
      var d := dirs[|dirs| - 1];
      ActiveAreMarkdown(init);
      ActiveFilesAreMarkdown(d.files);
      assert forall x :: x in dirs <==> x in init || x == d;
    }
  }

  lemma {:induction false} ActiveFilesAreMarkdown(files: seq<WalkedFile>)
    ensures forall n :: n in ActiveFiles(files) <==> exists f :: f in files && IsMarkdown(f.name) && f.id == n
    decreases |files|
  {
    if files != [] {
      var init := files[..|files| - 1];
      ActiveFilesAreMarkdown(init);
      assert forall x :: x in files <==> x in init || x == files[|files| - 1];
    }
  }

  /** The `file` nodes whose id the walk did not see, in node order. */
  function Stale(nodes: seq<string>, attrs: map<string, Attrs>, active: set<string>): (r: seq<string>)
    ensures forall n :: n in r <==> n in nodes && n in attrs && IsFileNode(attrs[n]) && n !in active
  {
    if nodes == [] then []
    else
      var n := nodes[|nodes| - 1];
      assert forall x :: x in nodes <==> x in nodes[..|nodes| - 1] || x == n;
      Stale(nodes[..|nodes| - 1], attrs, active) + if n in attrs && IsFileNode(attrs[n]) && n !in active then [n] else []
  }

  /** `load_graph`: the stored graph, or an empty one when it is missing or cannot be read. */
  function Loaded(stored: Option<DiGraph>): DiGraph
  {
    if stored.Some? then stored.value else Empty
  }

  /** `build_graph`: load, walk, then remove the files that are gone. */
  function BuildSpec(stored: Option<DiGraph>, dirs: seq<WalkedDir>, o: Oracles): DiGraph
  {
    var g := WalkSpec(Loaded(stored), dirs, o);
    RemoveNodes(g, set n | n in Stale(g.nodes, g.attrs, ActiveIn(dirs)))
  }

  lemma {:induction false} WalkKeepsValid(g: DiGraph, dirs: seq<WalkedDir>, o: Oracles)
    requires Valid(g)
    ensures Valid(WalkSpec(g, dirs, o))
    decreases |dirs|
  {
    if dirs != [] {
      WalkKeepsValid(g, dirs[..|dirs| - 1], o);
      var d := dirs[|dirs| - 1];
      FolderFacts(WalkSpec(g, dirs[..|dirs| - 1], o), d);
      FilesKeepValid(FolderStep(WalkSpec(g, dirs[..|dirs| - 1], o), d), d.relRoot, d.files, o);
    }
  }

  lemma {:induction false} FilesKeepValid(g: DiGraph, dir: string, files: seq<WalkedFile>, o: Oracles)
    requires Valid(g)
    ensures Valid(FilesStep(g, dir, files, o))
    decreases |files|
  {
    if files != [] {
      FilesKeepValid(g, dir, files[..|files| - 1], o);
      FileKeepsValid(FilesStep(g, dir, files[..|files| - 1], o), dir, files[|files| - 1], o);
    }
  }

  /**
   * After a build from a valid stored graph (or none) the graph is valid, and the cleanup kept
   * exactly the nodes that are not stale files: every node typed `file` is a Markdown file of
   * this walk, and folder and issue nodes are never removed by it.
   */
  lemma BuildCleansUp(stored: Option<DiGraph>, dirs: seq<WalkedDir>, o: Oracles)
    requires stored.Some? ==> Valid(stored.value)
    ensures Valid(BuildSpec(stored, dirs, o))
    ensures var g := WalkSpec(Loaded(stored), dirs, o);
      forall n :: n in BuildSpec(stored, dirs, o).attrs <==>
        n in g.attrs && (!IsFileNode(g.attrs[n]) || n in ActiveIn(dirs))
    ensures forall n :: n in BuildSpec(stored, dirs, o).attrs && IsFileNode(BuildSpec(stored, dirs, o).attrs[n]) ==>
      n in ActiveIn(dirs)
  {
    EmptyIsValid();
    var g := WalkSpec(Loaded(stored), dirs, o);
    WalkKeepsValid(Loaded(stored), dirs, o);
    RemoveNodesFacts(g, set n | n in Stale(g.nodes, g.attrs, ActiveIn(dirs)));
  }

  // ------------------------------------------------------------------ the builder

  /** `GraphBuilder`: the graph it holds and updates in place. */
  class GraphBuilder {
    var graph: DiGraph

    /** A fresh builder holds an empty graph. */
    constructor ()
      ensures graph == Empty
    {
      graph := Empty;
    }

    /** `load_graph`. */
    method LoadGraph(stored: Option<DiGraph>)
      modifies this
      ensures graph == Loaded(stored)
    {
      if stored.Some? {
        graph := stored.value;
      } else {
        graph := Empty;
      }
    }

    /** `_extract_relations`, edge by edge. */
    method ExtractRelations(source: string, rels: Relations, pathStr: string -> string)
      modifies this
      ensures graph == ExtractSpec(old(graph), source, rels, pathStr)
    {
      if rels.parent.Some? {
        var t := rels.parent.value;
        graph := AddNode(graph, t, map["type" := IssueType]);
        graph := AddEdge(graph, t, source, Relation("PARENT_OF"));
        graph := AddEdge(graph, source, t, Relation("CHILD_OF"));
      }
      AddMentionEdges(source, rels.mentions);
      AddReferenceEdges(source, rels.links, pathStr);
    }

    /** The `MENTIONS` loop of `_extract_relations`. */
    method AddMentionEdges(source: string, keys: seq<string>)
      modifies this
      ensures graph == AddMentions(old(graph), source, keys)
    {
      for i := 0 to |keys|
        invariant graph == AddMentions(old(graph), source, keys[..i])
      {
        assert keys[..i + 1][..i] == keys[..i];
        graph := AddNode(graph, keys[i], map["type" := IssueType]);
        graph := AddEdge(graph, source, keys[i], Relation("MENTIONS"));
      }
      assert keys[..|keys|] == keys;
    }

    /** The `REFERENCES` loop of `_extract_relations`. */
    method AddReferenceEdges(source: string, links: seq<string>, pathStr: string -> string)
      modifies this
      ensures graph == AddReferences(old(graph), source, LinkTargets(links, pathStr))
    {
      for i := 0 to |links|
        invariant graph == AddReferences(old(graph), source, LinkTargets(links[..i], pathStr))
      {
        assert links[..i + 1][..i] == links[..i];
        graph := AddEdge(graph, source, pathStr(links[i]), Relation("REFERENCES"));
      }
      assert links[..|links|] == links;
    }

    /** One file of `build_graph`'s walk. */
    method ProcessFile(dir: string, f: WalkedFile, o: Oracles)
      modifies this
      ensures graph == FileStep(old(graph), dir, f, o)
    {
      if !IsMarkdown(f.name) || f.content.None? {
        return;
      }
      var content := f.content.value;
      var h := o.hash(content);
      if f.id in graph.attrs && "hash" in graph.attrs[f.id] && graph.attrs[f.id]["hash"] == h {
        return;
      }
      if f.id in graph.attrs {
        graph := RemoveOutEdges(graph, f.id);
      }
      graph := AddNode(graph, f.id, map["type" := FileType, "label" := f.name, "hash" := h]);
      if dir != Root {
        graph := AddEdge(graph, dir, f.id, Relation("CONTAINS"));
      }
      ExtractRelations(f.id, o.scan(content), o.pathStr);
    }

    /** One directory of `build_graph`'s walk: its folder node, then its files; returns their ids. */
    method ProcessDir(d: WalkedDir, o: Oracles) returns (ids: set<string>)
      modifies this
      ensures graph == DirStep(old(graph), d, o)
      ensures ids == ActiveFiles(d.files)
    {
      if d.relRoot != Root {
        graph := AddNode(graph, d.relRoot, map["type" := FolderType, "label" := d.folderName]);
        if d.parent != Root {
          graph := AddEdge(graph, d.parent, d.relRoot, Relation("CONTAINS"));
        }
      }
      ghost var g1 := graph;
      ids := {};
      for i := 0 to |d.files|
        invariant graph == FilesStep(g1, d.relRoot, d.files[..i], o)
        invariant ids == ActiveFiles(d.files[..i])
      {
        assert d.files[..i + 1][..i] == d.files[..i];
        if IsMarkdown(d.files[i].name) {
          ids := ids + {d.files[i].id};
        }
        ProcessFile(d.relRoot, d.files[i], o);
      }
      assert d.files[..|d.files|] == d.files;
    }

    /** `build_graph`: load, walk every directory, then remove the stale file nodes. */
    method BuildGraph(stored: Option<DiGraph>, dirs: seq<WalkedDir>, o: Oracles)
      modifies this
      ensures graph == BuildSpec(stored, dirs, o)
    {
      LoadGraph(stored);
      var activeFiles: set<string> := {};
      for i := 0 to |dirs|
        invariant graph == WalkSpec(Loaded(stored), dirs[..i], o)
        invariant activeFiles == ActiveIn(dirs[..i])
      {
        assert dirs[..i + 1][..i] == dirs[..i];
        var ids := ProcessDir(dirs[i], o);
        activeFiles := activeFiles + ids;
      }
      assert dirs[..|dirs|] == dirs;
      var nodesToRemove: seq<string> := [];
      var nodes := graph.nodes;
      for j := 0 to |nodes|
        invariant nodesToRemove == Stale(nodes[..j], graph.attrs, activeFiles)
      {
        assert nodes[..j + 1][..j] == nodes[..j];
        var n := nodes[j];
        if n in graph.attrs && IsFileNode(graph.attrs[n]) && n !in activeFiles {
          nodesToRemove := nodesToRemove + [n];
        }
      }
      assert nodes[..|nodes|] == nodes;
      graph := RemoveNodes(graph, set n | n in nodesToRemove);
    }
  }
}
