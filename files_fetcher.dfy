/** Source discovery: every file with a given extension below a directory,
    in the order of a depth-first walk over the directory listings. */
module FilesFetcher {
  import opened Common
  import opened FileTree

  predicate HasExtension(name: string, ext: string) {
    ExtensionOf(name) == Some(ext)
  }

  /** The files found below node `n`, which sits at path `at`. An entry is
      looked up again by its path when it is visited, so the node visited
      for an entry is the first entry of that name. */
  function FilesIn(n: Node, at: Path, ext: string): Result<seq<Path>>
    decreases n, 0, 0
  {
    match n
    case Dir(es) => FilesInListing(es, 0, at, ext)
    case _ => Err(ListDir(n).error)
  }

  /** The files found for the entries from position `i` of a listing on. */
  function FilesInListing(es: seq<Entry>, i: nat, at: Path, ext: string): Result<seq<Path>>
    requires i <= |es|
    decreases es, |es| - i, 1
  {
    if i == |es| then Ok([])
    else
      match EntryFiles(es, i, at, ext)
      case Err(e) => Err(e)
      case Ok(found) => AfterFound(found, FilesInListing(es, i + 1, at, ext))
  }

  /** The files found for entry `i`: the walk below it if it is a
      directory, itself if it is a file with the extension, else nothing. */
  function EntryFiles(es: seq<Entry>, i: nat, at: Path, ext: string): Result<seq<Path>>
    requires i < |es|
    decreases es, |es| - i, 0
  {
    var name := es[i].name;
    var child := es[IndexOf(es, name)].node;
    if IsDirectory(child) then FilesIn(child, at + [name], ext)
    else if HasExtension(name, ext) then Ok([at + [name]])
    else Ok([])
  }

  /** The walk starting at path `path` of the filesystem `root`. */
  function FilesAt(root: Node, path: Path, ext: string): Result<seq<Path>> {
    match Lookup(root, path)
    case None => Fail("No such file or directory")
    case Some(n) => FilesIn(n, path, ext)
  }

  /** Files found so far, in front of what the rest of a walk finds. */
  function AfterFound(found: seq<Path>, rest: Result<seq<Path>>): Result<seq<Path>> {
    match rest
    case Err(e) => Err(e)
    case Ok(more) => Ok(found + more)
  }

  lemma AfterFoundNothing(rest: Result<seq<Path>>)
    ensures AfterFound([], rest) == rest
  {
    if rest.Ok? {
      assert [] + rest.value == rest.value;
    }
  }

  lemma AfterFoundTwice(a: seq<Path>, b: seq<Path>, rest: Result<seq<Path>>)
    ensures AfterFound(a, AfterFound(b, rest)) == AfterFound(a + b, rest)
  {
    if rest.Ok? {
      assert a + (b + rest.value) == (a + b) + rest.value;
    }
  }

  /** `fetch_files_by_extension`: walks the live filesystem. */
  method FetchFilesByExtension(fs: FileSystem, path: Path, ext: string) returns (r: Result<seq<Path>>)
    ensures r == FilesAt(fs.root, path, ext)
    decreases DepthAt(fs.root, path)
  {
    var listing := ReadDir(fs.root, path);
    if listing.Err? {
      return Err(listing.error);
    }
    var es := listing.value;
    var found: seq<Path> := [];
    var i := 0;
    AfterFoundNothing(FilesInListing(es, 0, path, ext));
    while i < |es|
      invariant 0 <= i <= |es|
      invariant FilesInListing(es, 0, path, ext) == AfterFound(found, FilesInListing(es, i, path, ext))
    {
      var entryPath := path + [es[i].name];
      ChildDepth(fs.root, path, es, i);
      var entry := Lookup(fs.root, entryPath).value;
      if IsDirectory(entry) {
        var sub := FetchFilesByExtension(fs, entryPath, ext);
        if sub.Err? {
          return Err(sub.error);
        }
        AfterFoundTwice(found, sub.value, FilesInListing(es, i + 1, path, ext));
        found := found + sub.value;
      } else if PathExtension(entryPath) == Some(ext) {
        AfterFoundTwice(found, [entryPath], FilesInListing(es, i + 1, path, ext));
        found := found + [entryPath];
      } else {
        AfterFoundTwice(found, [], FilesInListing(es, i + 1, path, ext));
        assert found + [] == found;
      }
      i := i + 1;
    }
    assert found + [] == found;
    return Ok(found);
  }

  /** `fetch_files`: the walk starts at the `src` directory below `path`. */
  method FetchFiles(fs: FileSystem, path: Path, ext: string) returns (r: Result<seq<Path>>)
    ensures r == FilesAt(fs.root, path + ["src"], ext)
  {
    r := FetchFilesByExtension(fs, path + ["src"], ext);
  }

  /** `q`, found by a walk of `n` at `at`, lies strictly below `at`, names a
      file there, and its file name has exactly the requested extension. */
  predicate FoundBelow(n: Node, at: Path, ext: string, q: Path) {
    && |q| > |at| && q[..|at|] == at
    && Lookup(n, q[|at|..]).Some? && Lookup(n, q[|at|..]).value.File?
    && HasExtension(q[|q| - 1], ext)
  }

  /** Only files with the extension are found, never directories. */
  lemma {:induction false} FilesInSound(n: Node, at: Path, ext: string, k: nat)
    requires FilesIn(n, at, ext).Ok? && k < |FilesIn(n, at, ext).value|
    ensures FoundBelow(n, at, ext, FilesIn(n, at, ext).value[k])
    decreases n, 0, 0
  {
    ListingSound(n.entries, 0, at, ext, k);
  }

  lemma {:induction false} ListingSound(es: seq<Entry>, i: nat, at: Path, ext: string, k: nat)
    requires i <= |es|
    requires FilesInListing(es, i, at, ext).Ok? && k < |FilesInListing(es, i, at, ext).value|
    ensures FoundBelow(Dir(es), at, ext, FilesInListing(es, i, at, ext).value[k])
    ensures exists j :: i <= j < |es| && es[j].name == FilesInListing(es, i, at, ext).value[k][|at|]
    decreases es, |es| - i, 1
  {
    var found := EntryFiles(es, i, at, ext).value;
    if k < |found| {
      EntrySound(es, i, at, ext, k);
    } else {
      ListingSound(es, i + 1, at, ext, k - |found|);
    }
  }

  lemma {:induction false} EntrySound(es: seq<Entry>, i: nat, at: Path, ext: string, k: nat)
    requires i < |es|
    requires EntryFiles(es, i, at, ext).Ok? && k < |EntryFiles(es, i, at, ext).value|
    ensures FoundBelow(Dir(es), at, ext, EntryFiles(es, i, at, ext).value[k])
    ensures EntryFiles(es, i, at, ext).value[k][|at|] == es[i].name
    decreases es, |es| - i, 0
  {
    var name := es[i].name;
    var child := es[IndexOf(es, name)].node;
    var q := EntryFiles(es, i, at, ext).value[k];
    if IsDirectory(child) {
      FilesInSound(child, at + [name], ext, k);
      var rel := q[|at|..];
      assert q[..|at| + 1] == at + [name];
      assert rel[0] == name && rel[1..] == q[|at| + 1..];
      assert q[..|at|] == (at + [name])[..|at|];
    } else {
      assert q == at + [name];
      assert q[|at|..] == [name];
      assert Lookup(child, []) == Some(child);
    }
  }

  /** Every file below `n` whose name has the extension is found. */
  lemma {:induction false} FilesInComplete(n: Node, at: Path, ext: string, rel: Path)
    requires FilesIn(n, at, ext).Ok?
    requires rel != [] && Lookup(n, rel).Some? && Lookup(n, rel).value.File?
    requires HasExtension(rel[|rel| - 1], ext)
    ensures at + rel in FilesIn(n, at, ext).value
    decreases n, 0
  {
    var es := n.entries;
    ListingComplete(es, 0, at, ext, rel);
  }

  lemma {:induction false} ListingComplete(es: seq<Entry>, i: nat, at: Path, ext: string, rel: Path)
    requires i <= |es|
    requires FilesInListing(es, i, at, ext).Ok?
    requires rel != [] && Lookup(Dir(es), rel).Some? && Lookup(Dir(es), rel).value.File?
    requires i <= IndexOf(es, rel[0])
    requires HasExtension(rel[|rel| - 1], ext)
    ensures at + rel in FilesInListing(es, i, at, ext).value
    decreases es, |es| - i
  {
    var name := es[i].name;
    var child := es[IndexOf(es, name)].node;
    var here :=
      if IsDirectory(child) then FilesIn(child, at + [name], ext)
      else if HasExtension(name, ext) then Ok([at + [name]])
      else Ok([]);
    var j := IndexOf(es, rel[0]);
    if i == j {
      assert IndexOf(es, name) == j;
      assert Lookup(Dir(es), rel) == Lookup(child, rel[1..]);
      if rel[1..] == [] {
        assert rel == [name];
        assert here.value == [at + rel];
      } else {
        assert child.Dir?;
        FilesInComplete(child, at + [name], ext, rel[1..]);
        assert at + [name] + rel[1..] == at + rel;
      }
    } else {
      ListingComplete(es, i + 1, at, ext, rel);
    }
  }

  predicate NoDuplicates(ps: seq<Path>) {
    forall a, b :: 0 <= a < b < |ps| ==> ps[a] != ps[b]
  }

  /** In a tree whose sibling names are distinct, no file is found twice. */
  lemma {:induction false} FilesInOnce(n: Node, at: Path, ext: string)
    requires WellFormed(n)
    requires FilesIn(n, at, ext).Ok?
    ensures NoDuplicates(FilesIn(n, at, ext).value)
    decreases n, 0
  {
    ListingOnce(n.entries, 0, at, ext);
  }

  lemma {:induction false} ListingOnce(es: seq<Entry>, i: nat, at: Path, ext: string)
    requires i <= |es|
    requires WellFormed(Dir(es))
    requires FilesInListing(es, i, at, ext).Ok?
    ensures NoDuplicates(FilesInListing(es, i, at, ext).value)
    decreases es, |es| - i
  {
    if i < |es| {
      var name := es[i].name;
      ChildOfEntry(es, i);
      var child := es[i].node;
      assert es[IndexOf(es, name)].node == child;
      if IsDirectory(child) {
        FilesInOnce(child, at + [name], ext);
      }
      ListingOnce(es, i + 1, at, ext);
      EntryApartFromRest(es, i, at, ext);
      NoDuplicatesConcat(EntryFiles(es, i, at, ext).value, FilesInListing(es, i + 1, at, ext).value);
    }
  }

  /** The files found for one entry all lie below that entry, so none is
      found again for a later entry. */
  lemma EntryApartFromRest(es: seq<Entry>, i: nat, at: Path, ext: string)
    requires i < |es|
    requires WellFormed(Dir(es))
    requires FilesInListing(es, i, at, ext).Ok?
    ensures EntryFiles(es, i, at, ext).Ok? && FilesInListing(es, i + 1, at, ext).Ok?
    ensures var found := EntryFiles(es, i, at, ext).value;
      var more := FilesInListing(es, i + 1, at, ext).value;
      forall a, b :: 0 <= a < |found| && 0 <= b < |more| ==> found[a] != more[b]
  {
    var found := EntryFiles(es, i, at, ext).value;
    var more := FilesInListing(es, i + 1, at, ext).value;
    forall a, b | 0 <= a < |found| && 0 <= b < |more|
      ensures found[a] != more[b]
    {
      EntrySound(es, i, at, ext, a);
      ListingSound(es, i + 1, at, ext, b);
      var j :| i + 1 <= j < |es| && es[j].name == more[b][|at|];
      assert found[a][|at|] == es[i].name;
    }
  }

  lemma NoDuplicatesConcat(found: seq<Path>, more: seq<Path>)
    requires NoDuplicates(found) && NoDuplicates(more)
    requires forall a, b :: 0 <= a < |found| && 0 <= b < |more| ==> found[a] != more[b]
    ensures NoDuplicates(found + more)
  {
    var all := found + more;
    forall a, b | 0 <= a < b < |all| ensures all[a] != all[b] {
      if b < |found| {
      } else if a >= |found| {
        assert all[a] == more[a - |found|] && all[b] == more[b - |found|];
      } else {
        assert all[a] == found[a] && all[b] == more[b - |found|];
      }
    }
  }

  /** A walk below a readable directory fails exactly when an unreadable
      directory lies somewhere below it; a failed walk returns no list. */
  lemma FilesInFailsIffUnreadable(n: Node, at: Path, ext: string)
    requires n.Dir?
    ensures FilesIn(n, at, ext).Err? <==> exists rel :: Lookup(n, rel) == Some(Unreadable)
  {
    if FilesIn(n, at, ext).Err? {
      var rel := UnreadableWitness(n, at, ext);
    }
    if exists rel :: Lookup(n, rel) == Some(Unreadable) {
      var rel :| Lookup(n, rel) == Some(Unreadable);
      UnreadableFails(n, at, ext, rel);
    }
  }

  lemma {:induction false} UnreadableWitness(n: Node, at: Path, ext: string) returns (rel: Path)
    requires n.Dir? && FilesIn(n, at, ext).Err?
    ensures Lookup(n, rel) == Some(Unreadable)
    decreases n, 0
  {
    rel := ListingWitness(n.entries, 0, at, ext);
  }

  lemma {:induction false} ListingWitness(es: seq<Entry>, i: nat, at: Path, ext: string) returns (rel: Path)
    requires i <= |es| && FilesInListing(es, i, at, ext).Err?
    ensures Lookup(Dir(es), rel) == Some(Unreadable)
    decreases es, |es| - i
  {
    var name := es[i].name;
    var child := es[IndexOf(es, name)].node;
    var here :=
      if IsDirectory(child) then FilesIn(child, at + [name], ext)
      else if HasExtension(name, ext) then Ok([at + [name]])
      else Ok([]);
    if here.Err? {
      if child.Unreadable? {
        rel := [name];
        assert Lookup(child, []) == Some(child);
      } else {
        var sub := UnreadableWitness(child, at + [name], ext);
        rel := [name] + sub;
        assert rel[1..] == sub;
      }
    } else {
      rel := ListingWitness(es, i + 1, at, ext);
    }
  }

  lemma {:induction false} UnreadableFails(n: Node, at: Path, ext: string, rel: Path)
    requires n.Dir? && Lookup(n, rel) == Some(Unreadable)
    ensures FilesIn(n, at, ext).Err?
    decreases n, 0
  {
    ListingFails(n.entries, 0, at, ext, rel);
  }

  lemma {:induction false} ListingFails(es: seq<Entry>, i: nat, at: Path, ext: string, rel: Path)
    requires i <= |es|
    requires Lookup(Dir(es), rel) == Some(Unreadable)
    requires rel != [] && i <= IndexOf(es, rel[0])
    ensures FilesInListing(es, i, at, ext).Err?
    decreases es, |es| - i
  {
    var name := es[i].name;
    var child := es[IndexOf(es, name)].node;
    var j := IndexOf(es, rel[0]);
    if i == j {
      assert IndexOf(es, name) == j;
      assert Lookup(child, rel[1..]) == Some(Unreadable);
      if rel[1..] != [] {
        assert child.Dir?;
        UnreadableFails(child, at + [name], ext, rel[1..]);
      }
      assert EntryFiles(es, i, at, ext).Err?;
    } else {
      ListingFails(es, i + 1, at, ext, rel);
    }
  }
}
