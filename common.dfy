/** Shared vocabulary of the model: optional values, results that carry an
    error with its chain of context messages (the shape of an `anyhow::Error`
    built with `.context(..)`), and filesystem paths as sequences of components. */
module Common {

  datatype Option<+T> = None | Some(value: T)

  /** An error: the underlying cause and the context messages wrapped around
      it, outermost first. */
  datatype Error = Error(cause: string, context: seq<string>)

  datatype Result<+T> = Ok(value: T) | Err(error: Error) {
    predicate IsFailure() { Err? }

    function PropagateFailure<U>(): Result<U>
      requires Err?
    {
      Err(error)
    }

    function Extract(): T
      requires Ok?
    {
      value
    }
  }

  function Fail<T>(cause: string): (r: Result<T>)
    ensures r.Err? && r.error == Error(cause, [])
  {
    Err(Error(cause, []))
  }

  /** `.context(message)` / `.with_context(|| message)`: a success passes
      through, a failure keeps its cause and gains `message` as its outermost
      context. */
  function WithContext<T>(r: Result<T>, message: string): (r': Result<T>)
    ensures r.Ok? <==> r'.Ok?
    ensures r.Ok? ==> r' == r
    ensures r.Err? ==> r'.error == Error(r.error.cause, [message] + r.error.context)
  {
    match r
    case Ok(v) => Ok(v)
    case Err(e) => Err(Error(e.cause, [message] + e.context))
  }

  /** The text `{}` shows for an error: its outermost context message, or
      its cause when it has no context. */
  function Message(e: Error): (m: string)
    ensures e.context == [] ==> m == e.cause
    ensures e.context != [] ==> m == e.context[0]
  {
    if e.context == [] then e.cause else e.context[0]
  }

  /** A path is the sequence of its components, from the filesystem root. */
  type Path = seq<string>

  /** `PathBuf::join` with one component. */
  function Join(p: Path, name: string): (q: Path)
    ensures |q| == |p| + 1 && q[..|p|] == p && q[|p|] == name
  {
    p + [name]
  }

  /** `p` is `q` itself or one of its ancestors. */
  predicate IsPrefix(p: Path, q: Path) {
    |p| <= |q| && q[..|p|] == p
  }

  /** Two paths part ways at some component: neither lies on the other's
      route from the root, so writing one cannot touch the other. */
  predicate Diverge(p: Path, q: Path) {
    exists k :: 0 <= k < |p| && k < |q| && p[k] != q[k]
  }

  lemma DivergeExtend(p: Path, q: Path, a: string, b: string)
    requires Diverge(p, q)
    ensures Diverge(p + [a], q + [b])
  {
    var k :| 0 <= k < |p| && k < |q| && p[k] != q[k];
    assert (p + [a])[k] == p[k] && (q + [b])[k] == q[k];
  }

  /** Paths below two diverging paths diverge too. */
  lemma DivergeBelow(p: Path, q: Path, x: Path, y: Path)
    requires Diverge(p, q)
    ensures Diverge(p + x, q + y) && Diverge(q + y, p + x)
  {
    var k :| 0 <= k < |p| && k < |q| && p[k] != q[k];
    assert (p + x)[k] == p[k] && (q + y)[k] == q[k];
  }

  /** Diverging paths are not ancestors of one another. */
  lemma DivergeNotPrefix(p: Path, q: Path)
    requires Diverge(p, q)
    ensures !IsPrefix(p, q) && !IsPrefix(q, p)
  {
    var k :| 0 <= k < |p| && k < |q| && p[k] != q[k];
    assert p[..k + 1] != q[..k + 1];
  }

  /** Any two paths are related by prefix one way or the other, or diverge. */
  lemma {:induction false} PrefixOrDiverge(p: Path, q: Path)
    ensures IsPrefix(p, q) || IsPrefix(q, p) || Diverge(p, q)
  {
    if p != [] && q != [] {
      if p[0] != q[0] {
        assert Diverge(p, q) by { assert p[0] != q[0]; }
      } else {
        PrefixOrDiverge(p[1..], q[1..]);
        if Diverge(p[1..], q[1..]) {
          var k :| 0 <= k < |p[1..]| && k < |q[1..]| && p[1..][k] != q[1..][k];
          assert p[k + 1] != q[k + 1];
        } else if IsPrefix(p[1..], q[1..]) {
          assert q[..|p|] == [q[0]] + q[1..][..|p| - 1];
          assert p == [p[0]] + p[1..];
        } else {
          assert p[..|q|] == [p[0]] + p[1..][..|q| - 1];
          assert q == [q[0]] + q[1..];
        }
      }
    }
  }

  /** Text of a path as `Path::display` shows an absolute path:
      every component preceded by a slash; the root alone is "/". */
  function Display(p: Path): (s: string)
    ensures |s| > 0 && s[0] == '/'
  {
    if p == [] then "/" else Slashed(p)
  }

  function Slashed(p: Path): (s: string)
    ensures p != [] ==> |s| > 0 && s[0] == '/'
  {
    if p == [] then "" else "/" + p[0] + Slashed(p[1..])
  }

  /** The `{:?}` form of a path: its text between double quotes. */
  function Debug(p: Path): string {
    "\"" + Display(p) + "\""
  }

  /** Concatenation of a sequence of strings. */
  function Concat(parts: seq<string>): string {
    if parts == [] then "" else parts[0] + Concat(parts[1..])
  }

  /** `Path::file_name`: the last component, unless there is none or it is
      the parent-directory component. */
  function FinalComponent(p: Path): (name: Option<string>)
    ensures name.Some? <==> p != [] && p[|p| - 1] != ".."
    ensures name.Some? ==> name.value == p[|p| - 1]
  {
    if p == [] || p[|p| - 1] == ".." then None else Some(p[|p| - 1])
  }

  /** Position of the last dot in `s`, or -1. */
  function LastDot(s: string): (i: int)
    ensures -1 <= i < |s|
    ensures 0 <= i ==> s[i] == '.'
    ensures forall j :: i < j < |s| ==> s[j] != '.'
  {
    if s == [] then -1
    else if s[|s| - 1] == '.' then |s| - 1
    else LastDot(s[..|s| - 1])
  }

  /** `Path::extension` of a file name: the text after the last dot, unless
      there is no dot, the only dot-separated stem is empty (a hidden file
      such as `.profile`), or the name is `..`. */
  function ExtensionOf(name: string): (ext: Option<string>)
    ensures ext.Some? <==> name != ".." && LastDot(name) > 0
    ensures ext.Some? ==> name == name[..LastDot(name)] + "." + ext.value
    ensures ext.Some? ==> forall j :: 0 <= j < |ext.value| ==> ext.value[j] != '.'
  {
    var i := LastDot(name);
    if name == ".." || i <= 0 then None
    else
      assert name == name[..i] + "." + name[i + 1..];
      Some(name[i + 1..])
  }

  /** A name that ends in a dot and a dot-free suffix, after a non-empty
      stem, has that suffix as its extension. */
  lemma ExtensionOfSuffixed(stem: string, ext: string)
    requires stem != [] && stem != "."
    requires forall j :: 0 <= j < |ext| ==> ext[j] != '.'
    ensures ExtensionOf(stem + "." + ext) == Some(ext)
  {
    var name := stem + "." + ext;
    var i := LastDot(name);
    assert name[|stem|] == '.';
    assert i == |stem|;
    assert name[|stem| + 1..] == ext;
    assert name != ".." by {
      if |name| == 2 { assert stem == [name[0]]; }
    }
  }

  /** `Path::extension`: the extension of the path's file name, if any. */
  function PathExtension(p: Path): (ext: Option<string>)
    ensures p != [] ==> ext == ExtensionOf(p[|p| - 1])
  {
    match FinalComponent(p)
    case None => None
    case Some(name) => ExtensionOf(name)
  }
}
