/** The filesystem as the build tool sees it through `std::fs`: a tree of
    directories and files. A directory lists its entries in the order
    `read_dir` yields them; an entry created later is listed last. */
module FileTree {
  import opened Common

  /** `Unreadable` is a directory the process may neither list nor enter:
      `read_dir` on it fails, while `Path::is_dir` still reports a directory. */
  datatype Node = File(content: string) | Dir(entries: seq<Entry>) | Unreadable
  datatype Entry = Entry(name: string, node: Node)

  /** What `Path::is_dir` answers for an existing node. */
  predicate IsDirectory(n: Node) {
    n.Dir? || n.Unreadable?
  }

  /** Position of the first entry called `name`, or `|es|` if there is none. */
  function IndexOf(es: seq<Entry>, name: string): (i: nat)
    ensures i <= |es|
    ensures i < |es| ==> es[i].name == name
    ensures forall j :: 0 <= j < i ==> es[j].name != name
  {
    if es == [] then 0
    else if es[0].name == name then 0
    else 1 + IndexOf(es[1..], name)
  }

  /** The three properties above pin the index down. */
  lemma IndexOfUnique(es: seq<Entry>, name: string, i: nat)
    requires i <= |es|
    requires i < |es| ==> es[i].name == name
    requires forall j :: 0 <= j < i ==> es[j].name != name
    requires i == |es| ==> forall j :: 0 <= j < |es| ==> es[j].name != name
    ensures IndexOf(es, name) == i
  {
  }

  function Child(n: Node, name: string): Option<Node> {
    match n
    case Dir(es) =>
      var i := IndexOf(es, name);
      if i < |es| then Some(es[i].node) else None
    case _ => None
  }

  /** The node found at path `p` below `n`, if any. */
  function Lookup(n: Node, p: Path): Option<Node>
    decreases |p|
  {
    if p == [] then Some(n)
    else
      match Child(n, p[0])
      case None => None
      case Some(c) => Lookup(c, p[1..])
  }

  /** `fs::exists` */
  predicate Exists(n: Node, p: Path) {
    Lookup(n, p).Some?
  }

  /** Looking up `p + r` is looking up `r` below whatever `p` names. */
  lemma {:induction false} LookupAppend(n: Node, p: Path, r: Path)
    ensures Lookup(n, p + r) == match Lookup(n, p) { case None => None case Some(m) => Lookup(m, r) }
  {
    if p == [] {
      assert p + r == r;
    } else {
      assert (p + r)[0] == p[0] && (p + r)[1..] == p[1..] + r;
      match Child(n, p[0])
      case None =>
      case Some(c) => LookupAppend(c, p[1..], r);
    }
  }

  /** Nothing lies below a file, an unreadable directory or nothing at all. */
  lemma {:induction false} LookupBelowLeaf(n: Node, r: Path)
    requires !n.Dir? && r != []
    ensures Lookup(n, r) == None
  {
  }

  predicate DistinctNames(es: seq<Entry>) {
    forall i, j :: 0 <= i < j < |es| ==> es[i].name != es[j].name
  }

  /** Sibling entries have distinct names, at every level. */
  predicate WellFormed(n: Node) {
    match n
    case Dir(es) => DistinctNames(es) && forall i :: 0 <= i < |es| ==> WellFormed(es[i].node)
    case _ => true
  }

  /** In a well-formed directory, entry `i` is the child of that name. */
  lemma ChildOfEntry(es: seq<Entry>, i: nat)
    requires DistinctNames(es) && i < |es|
    ensures Child(Dir(es), es[i].name) == Some(es[i].node)
  {
    IndexOfUnique(es, es[i].name, i);
  }

  /** Replace the entry called `name`, or append one when there is none. */
  function SetEntry(es: seq<Entry>, name: string, n: Node): (es': seq<Entry>)
    ensures |es'| == |es| || |es'| == |es| + 1
  {
    var i := IndexOf(es, name);
    if i < |es| then es[i := Entry(name, n)] else es + [Entry(name, n)]
  }

  lemma SetEntryChild(es: seq<Entry>, a: string, x: Node, b: string)
    ensures Child(Dir(SetEntry(es, a, x)), b) == if a == b then Some(x) else Child(Dir(es), b)
  {
    var i := IndexOf(es, a);
    var es' := SetEntry(es, a, x);
    var j := IndexOf(es, b);
    if i < |es| {
      if a == b {
        IndexOfUnique(es', b, i);
      } else {
        IndexOfUnique(es', b, j);
      }
    } else {
      if a == b {
        IndexOfUnique(es', b, |es|);
      } else if j < |es| {
        IndexOfUnique(es', b, j);
      } else {
        IndexOfUnique(es', b, |es| + 1);
      }
    }
  }

  lemma SetEntryWellFormed(es: seq<Entry>, a: string, x: Node)
    requires WellFormed(Dir(es)) && WellFormed(x)
    ensures WellFormed(Dir(SetEntry(es, a, x)))
  {
    var es' := SetEntry(es, a, x);
    var i := IndexOf(es, a);
    forall k | 0 <= k < |es'| ensures WellFormed(es'[k].node) {
      if k < |es| && k != i { assert es'[k] == es[k]; }
    }
  }

  /** The kinds of write the build tool performs. */
  datatype Change =
    | MakeDir            // `fs::create_dir_all` at its last component
    | PutFile(text: string) // `fs::copy` / `fs::write` to a file path
    | PutTree(tree: Node)   // a registry transport materialising a fetched tree

  /** The node a change leaves at its target, given what was there. */
  function Apply(c: Change, current: Option<Node>): (r: Result<Node>)
    ensures c.MakeDir? && r.Ok? ==> IsDirectory(r.value)
  {
    match c
    case MakeDir =>
      (match current
       case None => Ok(Dir([]))
       case Some(File(_)) => Fail("File exists")
       case Some(n) => Ok(n))
    case PutFile(text) =>
      (match current
       case None => Ok(File(text))
       case Some(File(_)) => Ok(File(text))
       case Some(Dir(_)) => Fail("Is a directory")
       case Some(Unreadable) => Fail("Permission denied"))
    case PutTree(t) =>
      (match current
       case None => Ok(t)
       case Some(_) => Fail("File exists"))
  }

  /** Perform change `c` at path `p` below `n`. With `parents`, missing
      directories on the way are created (as `create_dir_all` does); without,
      a missing parent is an error. A failed change leaves nothing behind. */
  function Edit(n: Node, p: Path, c: Change, parents: bool): (r: Result<Node>)
    ensures r.Ok? && n.Dir? ==> r.value.Dir?
    decreases |p|
  {
    if p == [] then Apply(c, Some(n))
    else
      match n
      case Dir(es) =>
        var i := IndexOf(es, p[0]);
        if i < |es| then
          var sub :- Edit(es[i].node, p[1..], c, parents);
          Ok(Dir(SetEntry(es, p[0], sub)))
        else if |p| == 1 then
          var leaf :- Apply(c, None);
          Ok(Dir(SetEntry(es, p[0], leaf)))
        else if parents then
          var sub :- Edit(Dir([]), p[1..], c, parents);
          Ok(Dir(SetEntry(es, p[0], sub)))
        else Fail("No such file or directory")
      case File(_) => Fail("Not a directory")
      case Unreadable => Fail("Permission denied")
  }

  /** After a successful edit the target holds what `Apply` made of the
      node that was there before (nothing, if the parents were created). */
  lemma {:induction false} EditAt(n: Node, p: Path, c: Change, parents: bool)
    requires Edit(n, p, c, parents).Ok?
    ensures Apply(c, Lookup(n, p)).Ok?
    ensures Lookup(Edit(n, p, c, parents).value, p) == Some(Apply(c, Lookup(n, p)).value)
    decreases |p|
  {
    var n' := Edit(n, p, c, parents).value;
    if p != [] {
      var es := n.entries;
      var i := IndexOf(es, p[0]);
      if i < |es| {
        EditAt(es[i].node, p[1..], c, parents);
        SetEntryChild(es, p[0], Edit(es[i].node, p[1..], c, parents).value, p[0]);
      } else if |p| == 1 {
        SetEntryChild(es, p[0], Apply(c, None).value, p[0]);
      } else {
        var sub := Edit(Dir([]), p[1..], c, parents).value;
        EditAt(Dir([]), p[1..], c, parents);
        SetEntryChild(es, p[0], sub, p[0]);
        assert Lookup(Dir([]), p[1..]) == None;
      }
    }
  }

  /** An edit leaves every path that parts ways with its target as it was. */
  lemma {:induction false} EditFrame(n: Node, p: Path, c: Change, parents: bool, q: Path)
    requires Edit(n, p, c, parents).Ok?
    requires Diverge(p, q)
    ensures Lookup(Edit(n, p, c, parents).value, q) == Lookup(n, q)
    decreases |p|
  {
    var k :| 0 <= k < |p| && k < |q| && p[k] != q[k];
    var es := n.entries;
    var i := IndexOf(es, p[0]);
    var sub := if i < |es| then Edit(es[i].node, p[1..], c, parents).value
               else if |p| == 1 then Apply(c, None).value
               else Edit(Dir([]), p[1..], c, parents).value;
    SetEntryChild(es, p[0], sub, q[0]);
    if p[0] == q[0] {
      assert k > 0 && p[1..][k - 1] != q[1..][k - 1];
      if i < |es| {
        EditFrame(es[i].node, p[1..], c, parents, q[1..]);
      } else {
        EditFrame(Dir([]), p[1..], c, parents, q[1..]);
        assert Lookup(Dir([]), q[1..]) == None;
      }
    }
  }

  /** Making a directory, or writing a file, changes no path other than the
      target and its ancestors: in particular nothing below the target. */
  lemma EditOnlyTouches(n: Node, p: Path, c: Change, parents: bool, q: Path)
    requires c.MakeDir? || c.PutFile?
    requires Edit(n, p, c, parents).Ok?
    requires !IsPrefix(q, p)
    ensures Lookup(Edit(n, p, c, parents).value, q) == Lookup(n, q)
  {
    var n' := Edit(n, p, c, parents).value;
    PrefixOrDiverge(q, p);
    if Diverge(p, q) {
      EditFrame(n, p, c, parents, q);
    } else {
      assert IsPrefix(p, q) && |p| < |q|;
      var r := q[|p|..];
      assert q == p + r;
      EditAt(n, p, c, parents);
      LookupAppend(n, p, r);
      LookupAppend(n', p, r);
      var old_ := Lookup(n, p);
      var m := Apply(c, old_).value;
      if old_.None? || !old_.value.Dir? {
        if m == Dir([]) {
          assert Lookup(m, r) == None;
        } else {
          LookupBelowLeaf(m, r);
        }
        if old_.Some? { LookupBelowLeaf(old_.value, r); }
      }
    }
  }

  /** `create_dir_all` on an existing directory changes nothing. */
  lemma {:induction false} MakeExistingDir(n: Node, p: Path, parents: bool)
    requires Lookup(n, p).Some? && IsDirectory(Lookup(n, p).value)
    ensures Edit(n, p, MakeDir, parents) == Ok(n)
  {
    if p != [] {
      var es := n.entries;
      var i := IndexOf(es, p[0]);
      MakeExistingDir(es[i].node, p[1..], parents);
      assert SetEntry(es, p[0], es[i].node) == es;
    }
  }

  /** Hence a second `create_dir_all` of the same path is a no-op. */
  lemma MakeDirIdempotent(n: Node, p: Path, parents: bool)
    requires Edit(n, p, MakeDir, parents).Ok?
    ensures Edit(Edit(n, p, MakeDir, parents).value, p, MakeDir, parents)
            == Edit(n, p, MakeDir, parents)
  {
    EditAt(n, p, MakeDir, parents);
    MakeExistingDir(Edit(n, p, MakeDir, parents).value, p, parents);
  }

  /** Edits keep sibling names distinct. */
  lemma {:induction false} EditWellFormed(n: Node, p: Path, c: Change, parents: bool)
    requires WellFormed(n)
    requires c.PutTree? ==> WellFormed(c.tree)
    requires Edit(n, p, c, parents).Ok?
    ensures WellFormed(Edit(n, p, c, parents).value)
    decreases |p|
  {
    if p != [] {
      var es := n.entries;
      var i := IndexOf(es, p[0]);
      if i < |es| {
        EditWellFormed(es[i].node, p[1..], c, parents);
        SetEntryWellFormed(es, p[0], Edit(es[i].node, p[1..], c, parents).value);
      } else if |p| == 1 {
        SetEntryWellFormed(es, p[0], Apply(c, None).value);
      } else {
        EditWellFormed(Dir([]), p[1..], c, parents);
        SetEntryWellFormed(es, p[0], Edit(Dir([]), p[1..], c, parents).value);
      }
    }
  }

  /** An edit removes nothing: whatever existed before still exists. */
  lemma {:induction false} EditKeepsExisting(n: Node, p: Path, c: Change, parents: bool, q: Path)
    requires Edit(n, p, c, parents).Ok?
    requires Exists(n, q)
    ensures Exists(Edit(n, p, c, parents).value, q)
    decreases |p|
  {
    if p != [] && q != [] {
      var es := n.entries;
      var i := IndexOf(es, p[0]);
      var sub := if i < |es| then Edit(es[i].node, p[1..], c, parents).value
                 else if |p| == 1 then Apply(c, None).value
                 else Edit(Dir([]), p[1..], c, parents).value;
      SetEntryChild(es, p[0], sub, q[0]);
      if p[0] == q[0] {
        EditKeepsExisting(es[i].node, p[1..], c, parents, q[1..]);
      }
    }
  }

  /** Every proper ancestor of an existing path is a readable directory. */
  lemma {:induction false} AncestorIsDirectory(n: Node, p: Path, k: nat)
    requires Exists(n, p) && k < |p|
    ensures Lookup(n, p[..k]).Some? && Lookup(n, p[..k]).value.Dir?
  {
    LookupAppend(n, p[..k], p[k..]);
    assert p[..k] + p[k..] == p;
  }

  /** Making a directory or writing a file changes what `q` names only when
      `q` is the target itself or one of its ancestors, which afterwards
      are readable directories. */
  lemma EditChangesOnlyTarget(n: Node, p: Path, c: Change, parents: bool, q: Path)
    requires c.MakeDir? || c.PutFile?
    requires Edit(n, p, c, parents).Ok?
    ensures || Lookup(Edit(n, p, c, parents).value, q) == Lookup(n, q)
            || q == p
            || (Lookup(Edit(n, p, c, parents).value, q).Some? && Lookup(Edit(n, p, c, parents).value, q).value.Dir?)
  {
    var n' := Edit(n, p, c, parents).value;
    if !IsPrefix(q, p) {
      EditOnlyTouches(n, p, c, parents, q);
    } else if q != p {
      EditAt(n, p, c, parents);
      assert p[..|q|] == q;
      AncestorIsDirectory(n', p, |q|);
    }
  }

  /** Making a directory leaves a directory at its path. */
  lemma MakeDirMakesDirectory(n: Node, p: Path, parents: bool)
    requires Edit(n, p, MakeDir, parents).Ok?
    ensures Lookup(Edit(n, p, MakeDir, parents).value, p).Some?
    ensures IsDirectory(Lookup(Edit(n, p, MakeDir, parents).value, p).value)
  {
    EditAt(n, p, MakeDir, parents);
  }

  /** A filesystem after a sequence of operations, with what they answered. */
  datatype Changed<+T> = Changed(root: Node, result: Result<T>)

  /** `fs::create_dir_all(p).context(message)`: on failure the filesystem is
      left as it was. */
  function CreateDirAllWithContext(n: Node, p: Path, message: string): (c: Changed<()>)
    ensures c.result.Ok? <==> Edit(n, p, MakeDir, true).Ok?
    ensures c.result.Ok? ==> c.root == Edit(n, p, MakeDir, true).value
    ensures c.result.Err? ==> c.root == n && c.result.error == Error(Edit(n, p, MakeDir, true).error.cause, [message] + Edit(n, p, MakeDir, true).error.context)
  {
    match Edit(n, p, MakeDir, true)
    case Ok(n') => Changed(n', Ok(()))
    case Err(e) => Changed(n, WithContext(Err(e), message))
  }

  /** `fs::read_to_string` */
  function ReadFile(n: Node, p: Path): (r: Result<string>)
    ensures r.Ok? <==> Lookup(n, p).Some? && Lookup(n, p).value.File?
    ensures r.Ok? ==> Lookup(n, p) == Some(File(r.value))
  {
    match Lookup(n, p)
    case None => Fail("No such file or directory")
    case Some(File(text)) => Ok(text)
    case Some(_) => Fail("Is a directory")
  }

  /** Listing one node: only a readable directory can be listed. */
  function ListDir(n: Node): (r: Result<seq<Entry>>)
    ensures r.Ok? <==> n.Dir?
    ensures r.Ok? ==> n == Dir(r.value)
  {
    match n
    case Dir(es) => Ok(es)
    case File(_) => Fail("Not a directory")
    case Unreadable => Fail("Permission denied")
  }

  /** `fs::read_dir`: the entries of a listable directory. */
  function ReadDir(n: Node, p: Path): (r: Result<seq<Entry>>)
    ensures r.Ok? <==> Lookup(n, p).Some? && Lookup(n, p).value.Dir?
    ensures r.Ok? ==> Lookup(n, p) == Some(Dir(r.value))
    ensures Lookup(n, p).None? ==> r == Fail("No such file or directory")
  {
    match Lookup(n, p)
    case None => Fail("No such file or directory")
    case Some(m) => ListDir(m)
  }

  /** `fs::canonicalize`, for a model whose paths are already absolute and
      free of `.`, `..` and links: an existing path is its own canonical form. */
  function Canonicalize(n: Node, p: Path): (r: Result<Path>)
    ensures r.Ok? <==> Exists(n, p)
    ensures r.Ok? ==> r.value == p
  {
    if Exists(n, p) then Ok(p) else Fail("No such file or directory")
  }

  /** Height of a tree: a bound on how deep a walk below it can go. */
  function Depth(n: Node): nat {
    match n
    case Dir(es) => 1 + DepthOfEntries(es)
    case _ => 0
  }

  function DepthOfEntries(es: seq<Entry>): nat {
    if es == [] then 0
    else
      var first := Depth(es[0].node);
      var rest := DepthOfEntries(es[1..]);
      if first < rest then rest else first
  }

  lemma {:induction false} EntryDepth(es: seq<Entry>, i: nat)
    requires i < |es|
    ensures Depth(es[i].node) <= DepthOfEntries(es)
  {
    if i > 0 {
      EntryDepth(es[1..], i - 1);
    }
  }

  /** The depth of whatever `p` names, or 0. */
  function DepthAt(n: Node, p: Path): nat {
    match Lookup(n, p)
    case None => 0
    case Some(m) => Depth(m)
  }

  /** Stepping into a child of a listed directory makes the depth shrink:
      the measure that bounds every walk over the tree. */
  lemma ChildDepth(n: Node, p: Path, es: seq<Entry>, i: nat)
    requires Lookup(n, p) == Some(Dir(es)) && i < |es|
    ensures Lookup(n, p + [es[i].name]) == Some(es[IndexOf(es, es[i].name)].node)
    ensures DepthAt(n, p + [es[i].name]) < DepthAt(n, p)
  {
    LookupAppend(n, p, [es[i].name]);
    var j := IndexOf(es, es[i].name);
    assert Lookup(es[j].node, []) == Some(es[j].node);
    EntryDepth(es, j);
  }

  /** The mutable filesystem the tool works on; its methods are the `std::fs`
      calls the core makes. */
  class FileSystem {
    var root: Node

    /** The filesystem root is a readable directory. */
    ghost predicate Valid()
      reads this
    {
      root.Dir?
    }

    constructor (root: Node)
      requires root.Dir?
      ensures Valid() && this.root == root
    {
      this.root := root;
    }

    /** Perform one change; on failure nothing is changed. */
    method Perform(p: Path, c: Change, parents: bool) returns (r: Result<()>)
      requires Valid()
      modifies this
      ensures Valid()
      ensures r.Ok? <==> Edit(old(root), p, c, parents).Ok?
      ensures r.Ok? ==> root == Edit(old(root), p, c, parents).value
      ensures r.Err? ==> root == old(root) && r.error == Edit(old(root), p, c, parents).error
    {
      var e := Edit(root, p, c, parents);
      if e.Ok? {
        root := e.value;
        r := Ok(());
      } else {
        r := Err(e.error);
      }
    }

    /** `fs::create_dir_all` */
    method CreateDirAll(p: Path) returns (r: Result<()>)
      requires Valid()
      modifies this
      ensures Valid()
      ensures r.Ok? <==> Edit(old(root), p, MakeDir, true).Ok?
      ensures r.Ok? ==> root == Edit(old(root), p, MakeDir, true).value
      ensures r.Err? ==> root == old(root) && r.error == Edit(old(root), p, MakeDir, true).error
    {
      r := Perform(p, MakeDir, true);
    }

    /** `fs::write`: create or truncate the file; its parent must exist. */
    method Write(p: Path, text: string) returns (r: Result<()>)
      requires Valid()
      modifies this
      ensures Valid()
      ensures r.Ok? <==> Edit(old(root), p, PutFile(text), false).Ok?
      ensures r.Ok? ==> root == Edit(old(root), p, PutFile(text), false).value
      ensures r.Err? ==> root == old(root) && r.error == Edit(old(root), p, PutFile(text), false).error
    {
      r := Perform(p, PutFile(text), false);
    }

    /** `fs::copy`: read the source file, then write its text to `to`. */
    method Copy(from: Path, to: Path) returns (r: Result<()>)
      requires Valid()
      modifies this
      ensures Valid()
      ensures r.Ok? <==> (ReadFile(old(root), from).Ok?
                          && Edit(old(root), to, PutFile(ReadFile(old(root), from).value), false).Ok?)
      ensures r.Ok? ==> root == Edit(old(root), to, PutFile(ReadFile(old(root), from).value), false).value
      ensures r.Err? ==> root == old(root)
      ensures r.Err? && ReadFile(old(root), from).Err? ==> r.error == ReadFile(old(root), from).error
      ensures r.Err? && ReadFile(old(root), from).Ok? ==> r.error == Edit(old(root), to, PutFile(ReadFile(old(root), from).value), false).error
    {
      var text := ReadFile(root, from);
      if text.Err? {
        return Err(text.error);
      }
      r := Write(to, text.value);
    }
  }
}
