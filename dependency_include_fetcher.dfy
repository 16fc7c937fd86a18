/** The header projector: copies the `.h` files of every fetched dependency
    into an include directory of its own, keeping the folder structure. */
module DependencyIncludeFetcher {
  import opened Common
  import opened FileTree
  import DependencySourceFetcher

  /** A file name whose extension is exactly `h`. */
  predicate IsHeader(name: string) {
    ExtensionOf(name) == Some("h")
  }

  /** `copy_headers` from the source tree `n` into `dst`, on the filesystem
      `root`. The source tree is a snapshot: the copy never writes where it
      reads (see `CopyWritesOnlyBelow`). An entry is looked up again by its
      path when it is visited, so the node visited for an entry is the first
      entry of that name. */
  function CopyNode(root: Node, n: Node, dst: Path): Changed<()>
    decreases n, 0, 0
  {
    match n
    case Dir(es) => CopyListing(root, es, 0, dst)
    case _ => Changed(root, Err(ListDir(n).error))
  }

  /** The copy for the entries from position `i` of a listing on. */
  function CopyListing(root: Node, es: seq<Entry>, i: nat, dst: Path): Changed<()>
    requires i <= |es|
    decreases es, |es| - i, 1
  {
    if i == |es| then Changed(root, Ok(()))
    else
      var c := CopyEntry(root, es, i, dst);
      if c.result.Err? then c else CopyListing(c.root, es, i + 1, dst)
  }

  /** The copy for entry `i`: a directory is copied into the destination
      folder of the same name; for anything else the destination directory
      is created, and a header is copied into it. */
  function CopyEntry(root: Node, es: seq<Entry>, i: nat, dst: Path): Changed<()>
    requires i < |es|
    decreases es, |es| - i, 0
  {
    var name := es[i].name;
    var child := es[IndexOf(es, name)].node;
    if IsDirectory(child) then CopyNode(root, child, dst + [name])
    else
      match Edit(root, dst, MakeDir, true)
      case Err(e) => Changed(root, Err(e))
      case Ok(root1) =>
        if !IsHeader(name) then Changed(root1, Ok(()))
        else
          match Edit(root1, dst + [name], PutFile(child.content), false)
          case Err(e) => Changed(root1, Err(e))
          case Ok(root2) => Changed(root2, Ok(()))
  }

  /** `copy_headers(src, dst)` on the filesystem `root`. */
  function CopyAt(root: Node, src: Path, dst: Path): Changed<()> {
    match Lookup(root, src)
    case None => Changed(root, Fail("No such file or directory"))
    case Some(n) => CopyNode(root, n, dst)
  }

  /** `copy_headers`: walks the live source directory while writing into
      `dst`, which lies elsewhere. */
  method CopyHeaders(fs: FileSystem, src: Path, dst: Path) returns (r: Result<()>)
    requires fs.Valid()
    requires Diverge(src, dst)
    modifies fs
    ensures fs.Valid()
    ensures Changed(fs.root, r) == CopyAt(old(fs.root), src, dst)
    decreases DepthAt(fs.root, src), 1
  {
    var listing := ReadDir(fs.root, src);
    if listing.Err? {
      return Err(listing.error);
    }
    var es := listing.value;
    var i := 0;
    while i < |es|
      invariant 0 <= i <= |es|
      invariant fs.Valid()
      invariant Lookup(fs.root, src) == Some(Dir(es))
      invariant DepthAt(fs.root, src) == DepthAt(old(fs.root), src)
      invariant CopyAt(old(fs.root), src, dst) == CopyListing(fs.root, es, i, dst)
    {
      ghost var before := fs.root;
      var copied := CopyHeadersEntry(fs, src, es, i, dst);
      if copied.Err? {
        return copied;
      }
      DivergeBelow(src, dst, [], []);
      assert src + [] == src && dst + [] == dst;
      CopyEntryWritesOnlyBelow(before, es, i, dst, src);
      i := i + 1;
    }
    return Ok(());
  }

  /** One iteration of `copy_headers`, for entry `i` of the listing of `src`. */
  method CopyHeadersEntry(fs: FileSystem, src: Path, es: seq<Entry>, i: nat, dst: Path) returns (r: Result<()>)
    requires fs.Valid()
    requires Diverge(src, dst)
    requires Lookup(fs.root, src) == Some(Dir(es)) && i < |es|
    modifies fs
    ensures fs.Valid()
    ensures Changed(fs.root, r) == CopyEntry(old(fs.root), es, i, dst)
    decreases DepthAt(fs.root, src), 0
  {
    var name := es[i].name;
    var entryPath := src + [name];
    ChildDepth(fs.root, src, es, i);
    DivergeBelow(src, dst, [name], [name]);
    DivergeBelow(src, dst, [name], []);
    assert dst + [] == dst;
    var entry := Lookup(fs.root, entryPath).value;
    if IsDirectory(entry) {
      r := CopyHeaders(fs, entryPath, dst + [name]);
      return;
    }
    ghost var before := fs.root;
    var made := fs.CreateDirAll(dst);
    if made.Err? {
      return made;
    }
    if PathExtension(entryPath) != Some("h") {
      return Ok(());
    }
    EditFrame(before, dst, MakeDir, true, entryPath);
    assert ReadFile(fs.root, entryPath) == Ok(entry.content);
    var copied := fs.Copy(entryPath, dst + [name]);
    if copied.Err? {
      return copied;
    }
    return Ok(());
  }

  /** The copy writes nothing outside its destination: every path that
      parts ways with `dst`, the source tree among them, is left as it was. */
  lemma {:induction false} CopyWritesOnlyBelow(root: Node, n: Node, dst: Path, q: Path)
    requires Diverge(dst, q)
    ensures Lookup(CopyNode(root, n, dst).root, q) == Lookup(root, q)
    decreases n, 0, 0
  {
    if n.Dir? {
      CopyListingWritesOnlyBelow(root, n.entries, 0, dst, q);
    }
  }

  lemma {:induction false} CopyListingWritesOnlyBelow(root: Node, es: seq<Entry>, i: nat, dst: Path, q: Path)
    requires i <= |es|
    requires Diverge(dst, q)
    ensures Lookup(CopyListing(root, es, i, dst).root, q) == Lookup(root, q)
    decreases es, |es| - i, 1
  {
    if i < |es| {
      var c := CopyEntry(root, es, i, dst);
      CopyEntryWritesOnlyBelow(root, es, i, dst, q);
      if c.result.Ok? {
        CopyListingWritesOnlyBelow(c.root, es, i + 1, dst, q);
      }
    }
  }

  lemma {:induction false} CopyEntryWritesOnlyBelow(root: Node, es: seq<Entry>, i: nat, dst: Path, q: Path)
    requires i < |es|
    requires Diverge(dst, q)
    ensures Lookup(CopyEntry(root, es, i, dst).root, q) == Lookup(root, q)
    decreases es, |es| - i, 0
  {
    var name := es[i].name;
    var child := es[IndexOf(es, name)].node;
    DivergeBelow(dst, q, [name], []);
    assert q + [] == q;
    if IsDirectory(child) {
      CopyWritesOnlyBelow(root, child, dst + [name], q);
    } else if Edit(root, dst, MakeDir, true).Ok? {
      var root1 := Edit(root, dst, MakeDir, true).value;
      EditFrame(root, dst, MakeDir, true, q);
      if IsHeader(name) && Edit(root1, dst + [name], PutFile(child.content), false).Ok? {
        EditFrame(root1, dst + [name], PutFile(child.content), false, q);
      }
    }
  }

  // What the copy writes.

  /** `q` holds, as content `c`, a copy of a header of the source tree `n`:
      it lies below `dst` at the relative path the header has in `n`. */
  predicate HeaderCopyOf(n: Node, dst: Path, q: Path, c: string) {
    && |q| > |dst| && q[..|dst|] == dst
    && IsHeader(q[|q| - 1])
    && Lookup(n, q[|dst|..]) == Some(File(c))
  }

  /** Every file that differs between `before` and `after` is a copy of a
      header of `n` at its relative path below `dst`. */
  ghost predicate OnlyHeadersWritten(before: Node, after: Node, n: Node, dst: Path) {
    forall q :: Lookup(after, q).Some? && Lookup(after, q).value.File? && Lookup(after, q) != Lookup(before, q) ==>
      HeaderCopyOf(n, dst, q, Lookup(after, q).value.content)
  }

  lemma OnlyHeadersWrittenTransitive(a: Node, b: Node, c: Node, n: Node, dst: Path)
    requires OnlyHeadersWritten(a, b, n, dst) && OnlyHeadersWritten(b, c, n, dst)
    ensures OnlyHeadersWritten(a, c, n, dst)
  {
  }

  /** A copy made below `dst/<name>` from the entry called `name` is a copy
      made below `dst` from the directory holding that entry. */
  lemma HeaderCopyOfEntry(es: seq<Entry>, name: string, dst: Path, q: Path, c: string)
    requires IndexOf(es, name) < |es|
    requires HeaderCopyOf(es[IndexOf(es, name)].node, dst + [name], q, c)
    ensures HeaderCopyOf(Dir(es), dst, q, c)
  {
    var rest := q[|dst| + 1..];
    assert q[..|dst| + 1] == dst + [name];
    assert q[..|dst|] == (dst + [name])[..|dst|];
    assert q[|dst|..] == [name] + rest;
    assert ([name] + rest)[1..] == rest;
  }

  /** Only headers are copied: every file the copy creates or changes is a
      header of the source tree, at the same relative path below `dst`. */
  lemma {:induction false} CopyWritesOnlyHeaders(root: Node, n: Node, dst: Path)
    ensures OnlyHeadersWritten(root, CopyNode(root, n, dst).root, n, dst)
    decreases n, 0, 0
  {
    if n.Dir? {
      CopyListingWritesOnlyHeaders(root, n.entries, 0, dst);
    }
  }

  lemma {:induction false} CopyListingWritesOnlyHeaders(root: Node, es: seq<Entry>, i: nat, dst: Path)
    requires i <= |es|
    ensures OnlyHeadersWritten(root, CopyListing(root, es, i, dst).root, Dir(es), dst)
    decreases es, |es| - i, 1
  {
    if i < |es| {
      var c := CopyEntry(root, es, i, dst);
      CopyEntryWritesOnlyHeaders(root, es, i, dst);
      if c.result.Ok? {
        CopyListingWritesOnlyHeaders(c.root, es, i + 1, dst);
        OnlyHeadersWrittenTransitive(root, c.root, CopyListing(root, es, i, dst).root, Dir(es), dst);
      }
    }
  }

  lemma {:induction false} CopyEntryWritesOnlyHeaders(root: Node, es: seq<Entry>, i: nat, dst: Path)
    requires i < |es|
    ensures OnlyHeadersWritten(root, CopyEntry(root, es, i, dst).root, Dir(es), dst)
    decreases es, |es| - i, 0
  {
    var name := es[i].name;
    var child := es[IndexOf(es, name)].node;
    var after := CopyEntry(root, es, i, dst).root;
    if IsDirectory(child) {
      CopyWritesOnlyHeaders(root, child, dst + [name]);
      forall q | Lookup(after, q).Some? && Lookup(after, q).value.File? && Lookup(after, q) != Lookup(root, q)
        ensures HeaderCopyOf(Dir(es), dst, q, Lookup(after, q).value.content)
      {
        HeaderCopyOfEntry(es, name, dst, q, Lookup(after, q).value.content);
      }
    } else if Edit(root, dst, MakeDir, true).Ok? {
      var root1 := Edit(root, dst, MakeDir, true).value;
      MakeDirWritesNoFile(root, Dir(es), dst);
      if IsHeader(name) && Edit(root1, dst + [name], PutFile(child.content), false).Ok? {
        HeaderWriteIsCopy(root1, es, i, dst);
        OnlyHeadersWrittenTransitive(root, root1, after, Dir(es), dst);
      }
    }
  }

  /** Creating the destination directory writes no file. */
  lemma MakeDirWritesNoFile(root: Node, n: Node, dst: Path)
    requires Edit(root, dst, MakeDir, true).Ok?
    ensures OnlyHeadersWritten(root, Edit(root, dst, MakeDir, true).value, n, dst)
  {
    var root1 := Edit(root, dst, MakeDir, true).value;
    MakeDirMakesDirectory(root, dst, true);
    forall q | Lookup(root1, q).Some? && Lookup(root1, q).value.File? && Lookup(root1, q) != Lookup(root, q)
      ensures false
    {
      EditChangesOnlyTarget(root, dst, MakeDir, true, q);
    }
  }

  /** Writing a header entry's content into the destination directory
      writes a copy of that header. */
  lemma HeaderWriteIsCopy(root1: Node, es: seq<Entry>, i: nat, dst: Path)
    requires i < |es|
    requires IsHeader(es[i].name) && !IsDirectory(es[IndexOf(es, es[i].name)].node)
    requires var name := es[i].name;
      Edit(root1, dst + [name], PutFile(es[IndexOf(es, name)].node.content), false).Ok?
    ensures var name := es[i].name;
      var root2 := Edit(root1, dst + [name], PutFile(es[IndexOf(es, name)].node.content), false).value;
      OnlyHeadersWritten(root1, root2, Dir(es), dst)
  {
    var name := es[i].name;
    var child := es[IndexOf(es, name)].node;
    var target := dst + [name];
    var root2 := Edit(root1, target, PutFile(child.content), false).value;
    EditAt(root1, target, PutFile(child.content), false);
    forall q | Lookup(root2, q).Some? && Lookup(root2, q).value.File? && Lookup(root2, q) != Lookup(root1, q)
      ensures HeaderCopyOf(Dir(es), dst, q, Lookup(root2, q).value.content)
    {
      EditChangesOnlyTarget(root1, target, PutFile(child.content), false, q);
      assert q[|dst|..] == [name];
      assert Lookup(child, []) == Some(child);
    }
  }

  /** Every header of a well-formed source tree is copied, to the same
      relative path below `dst`, with the same content. */
  lemma {:induction false} HeaderCopied(root: Node, n: Node, dst: Path, rel: Path)
    requires WellFormed(n)
    requires CopyNode(root, n, dst).result.Ok?
    requires rel != [] && Lookup(n, rel).Some? && Lookup(n, rel).value.File? && IsHeader(rel[|rel| - 1])
    ensures Lookup(CopyNode(root, n, dst).root, dst + rel) == Lookup(n, rel)
    decreases n, 0
  {
    ListingCopiesHeader(root, n.entries, 0, dst, rel);
  }

  lemma {:induction false} ListingCopiesHeader(root: Node, es: seq<Entry>, i: nat, dst: Path, rel: Path)
    requires i <= |es| && WellFormed(Dir(es))
    requires CopyListing(root, es, i, dst).result.Ok?
    requires rel != [] && Lookup(Dir(es), rel).Some? && Lookup(Dir(es), rel).value.File? && IsHeader(rel[|rel| - 1])
    requires i <= IndexOf(es, rel[0])
    ensures Lookup(CopyListing(root, es, i, dst).root, dst + rel) == Lookup(Dir(es), rel)
    decreases es, |es| - i
  {
    var j := IndexOf(es, rel[0]);
    var c := CopyEntry(root, es, i, dst);
    if i == j {
      EntryCopiesHeader(root, es, i, dst, rel);
      forall k | i + 1 <= k < |es| ensures es[k].name != rel[0] {
      }
      ListingKeepsFile(c.root, es, i + 1, dst, rel);
    } else {
      ListingCopiesHeader(c.root, es, i + 1, dst, rel);
    }
  }

  /** The entry a header's path starts with copies the header. */
  lemma {:induction false} EntryCopiesHeader(root: Node, es: seq<Entry>, i: nat, dst: Path, rel: Path)
    requires i < |es| && WellFormed(Dir(es))
    requires CopyEntry(root, es, i, dst).result.Ok?
    requires rel != [] && Lookup(Dir(es), rel).Some? && Lookup(Dir(es), rel).value.File? && IsHeader(rel[|rel| - 1])
    requires i == IndexOf(es, rel[0])
    ensures Lookup(CopyEntry(root, es, i, dst).root, dst + rel) == Lookup(Dir(es), rel)
    decreases es, 0
  {
    var name := es[i].name;
    ChildOfEntry(es, i);
    var child := es[i].node;
    assert IndexOf(es, name) == i;
    assert Lookup(Dir(es), rel) == Lookup(child, rel[1..]);
    if rel[1..] == [] {
      assert rel == [name];
      assert Lookup(child, []) == Some(child);
      HeaderFileCopied(root, es, i, dst);
    } else {
      assert child.Dir?;
      HeaderCopied(root, child, dst + [name], rel[1..]);
      assert dst + [name] + rel[1..] == dst + rel;
    }
  }

  /** A header file entry is copied into the destination directory. */
  lemma HeaderFileCopied(root: Node, es: seq<Entry>, i: nat, dst: Path)
    requires i < |es| && IndexOf(es, es[i].name) == i
    requires es[i].node.File? && IsHeader(es[i].name)
    requires CopyEntry(root, es, i, dst).result.Ok?
    ensures Lookup(CopyEntry(root, es, i, dst).root, dst + [es[i].name]) == Some(es[i].node)
  {
    var root1 := Edit(root, dst, MakeDir, true).value;
    EditAt(root1, dst + [es[i].name], PutFile(es[i].node.content), false);
  }

  /** Entries named differently from `rel[0]` leave a file at `dst + rel`
      as it is. */
  lemma {:induction false} ListingKeepsFile(root: Node, es: seq<Entry>, i: nat, dst: Path, rel: Path)
    requires i <= |es|
    requires rel != [] && Lookup(root, dst + rel).Some? && Lookup(root, dst + rel).value.File?
    requires forall k :: i <= k < |es| ==> es[k].name != rel[0]
    ensures Lookup(CopyListing(root, es, i, dst).root, dst + rel) == Lookup(root, dst + rel)
    decreases |es| - i
  {
    if i < |es| {
      var name := es[i].name;
      var child := es[IndexOf(es, name)].node;
      var c := CopyEntry(root, es, i, dst);
      var q := dst + rel;
      assert Diverge(dst + [name], q) by {
        assert (dst + [name])[|dst|] != q[|dst|];
      }
      if IsDirectory(child) {
        CopyWritesOnlyBelow(root, child, dst + [name], q);
      } else {
        assert q[..|dst|] == dst;
        AncestorIsDirectory(root, q, |dst|);
        MakeExistingDir(root, dst, true);
        if IsHeader(name) && Edit(root, dst + [name], PutFile(child.content), false).Ok? {
          EditFrame(root, dst + [name], PutFile(child.content), false, q);
        }
      }
      if c.result.Ok? {
        ListingKeepsFile(c.root, es, i + 1, dst, rel);
      }
    }
  }

  /** A folder holding only files, none of them a header, still gets its
      destination directory, which stays empty. */
  lemma NonHeadersLeaveEmptyDirectory(root: Node, es: seq<Entry>, dst: Path)
    requires es != []
    requires forall k :: 0 <= k < |es| ==> es[k].node.File? && !IsHeader(es[k].name)
    requires !Exists(root, dst)
    ensures CopyNode(root, Dir(es), dst).result.Ok? <==> Edit(root, dst, MakeDir, true).Ok?
    ensures CopyNode(root, Dir(es), dst).result.Ok? ==> Lookup(CopyNode(root, Dir(es), dst).root, dst) == Some(Dir([]))
  {
    if Edit(root, dst, MakeDir, true).Ok? {
      var root1 := Edit(root, dst, MakeDir, true).value;
      EditAt(root, dst, MakeDir, true);
      assert !IsDirectory(es[IndexOf(es, es[0].name)].node);
      assert CopyEntry(root, es, 0, dst) == Changed(root1, Ok(()));
      ListingKeepsEmptyDirectory(root1, es, 1, dst);
    } else {
      assert !IsDirectory(es[IndexOf(es, es[0].name)].node);
      assert CopyEntry(root, es, 0, dst).result.Err?;
    }
  }

  lemma {:induction false} ListingKeepsEmptyDirectory(root: Node, es: seq<Entry>, i: nat, dst: Path)
    requires i <= |es|
    requires forall k :: 0 <= k < |es| ==> es[k].node.File? && !IsHeader(es[k].name)
    requires Lookup(root, dst) == Some(Dir([]))
    ensures CopyListing(root, es, i, dst) == Changed(root, Ok(()))
    decreases |es| - i
  {
    if i < |es| {
      assert !IsDirectory(es[IndexOf(es, es[i].name)].node);
      MakeExistingDir(root, dst, true);
      ListingKeepsEmptyDirectory(root, es, i + 1, dst);
    }
  }

  // The projection of every artifact.

  /** `DependencyIncludeFetcher::fetch`: the headers of `<path>/src` of each
      artifact go to `<includeDir>/<name>`, artifact by artifact; the first
      failure ends the projection. */
  function FetchHeaders(root: Node, artifacts: seq<DependencySourceFetcher.Artifact>, includeDir: Path): Changed<()>
    decreases |artifacts|
  {
    if artifacts == [] then Changed(root, Ok(()))
    else
      var c := CopyAt(root, artifacts[0].path + ["src"], includeDir + [artifacts[0].dependency.name]);
      if c.result.Err? then c else FetchHeaders(c.root, artifacts[1..], includeDir)
  }

  method Fetch(fs: FileSystem, artifacts: seq<DependencySourceFetcher.Artifact>, includeDir: Path) returns (r: Result<()>)
    requires fs.Valid()
    requires forall k :: 0 <= k < |artifacts| ==> Diverge(artifacts[k].path, includeDir)
    modifies fs
    ensures fs.Valid()
    ensures Changed(fs.root, r) == FetchHeaders(old(fs.root), artifacts, includeDir)
  {
    var i := 0;
    while i < |artifacts|
      invariant 0 <= i <= |artifacts|
      invariant fs.Valid()
      invariant FetchHeaders(old(fs.root), artifacts, includeDir) == FetchHeaders(fs.root, artifacts[i..], includeDir)
    {
      var artifact := artifacts[i];
      assert artifacts[i..][0] == artifact && artifacts[i..][1..] == artifacts[i + 1..];
      DivergeBelow(artifact.path, includeDir, ["src"], [artifact.dependency.name]);
      var copied := CopyHeaders(fs, artifact.path + ["src"], includeDir + [artifact.dependency.name]);
      if copied.Err? {
        return copied;
      }
      i := i + 1;
    }
    return Ok(());
  }

  /** Projecting `xs + ys` projects `xs`, then, unless that failed, `ys`:
      after a failure the later artifacts are left untouched. */
  lemma {:induction false} FetchHeadersAppend(root: Node, xs: seq<DependencySourceFetcher.Artifact>, ys: seq<DependencySourceFetcher.Artifact>, includeDir: Path)
    ensures FetchHeaders(root, xs + ys, includeDir)
            == (var c := FetchHeaders(root, xs, includeDir); if c.result.Err? then c else FetchHeaders(c.root, ys, includeDir))
    decreases |xs|
  {
    if xs == [] {
      assert xs + ys == ys;
    } else {
      var c := CopyAt(root, xs[0].path + ["src"], includeDir + [xs[0].dependency.name]);
      assert (xs + ys)[0] == xs[0] && (xs + ys)[1..] == xs[1..] + ys;
      if c.result.Ok? {
        FetchHeadersAppend(c.root, xs[1..], ys, includeDir);
      }
    }
  }

  /** Nothing outside the include directory is written; in particular the
      dependency sources are only read. */
  lemma {:induction false} FetchWritesOnlyIncludes(root: Node, artifacts: seq<DependencySourceFetcher.Artifact>, includeDir: Path, q: Path)
    requires Diverge(includeDir, q)
    ensures Lookup(FetchHeaders(root, artifacts, includeDir).root, q) == Lookup(root, q)
    decreases |artifacts|
  {
    if artifacts != [] {
      var src := artifacts[0].path + ["src"];
      var dst := includeDir + [artifacts[0].dependency.name];
      var c := CopyAt(root, src, dst);
      DivergeBelow(includeDir, q, [artifacts[0].dependency.name], []);
      assert q + [] == q;
      if Lookup(root, src).Some? {
        CopyWritesOnlyBelow(root, Lookup(root, src).value, dst, q);
      }
      if c.result.Ok? {
        FetchWritesOnlyIncludes(c.root, artifacts[1..], includeDir, q);
      }
    }
  }
}
