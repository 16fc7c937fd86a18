/** Platform naming of build artifacts: the suffix table per operating
    system and the `lib` prefix of libraries. */
module Extension {
  import opened Common

  datatype Extension = Object | Executable | StaticLibrary | DynamicLibrary

  /** The operating-system family a target triple names; any family other
      than the three below is `OtherSystem`. */
  datatype OperatingSystem = Linux | MacOSX | Windows | OtherSystem(name: string)

  function LinuxExtension(kind: Extension): Option<string> {
    match kind
    case Object => Some("o")
    case Executable => None
    case StaticLibrary => Some("a")
    case DynamicLibrary => Some("so")
  }

  function MacosExtension(kind: Extension): Option<string> {
    match kind
    case Object => Some("o")
    case Executable => None
    case StaticLibrary => Some("a")
    case DynamicLibrary => Some("dylib")
  }

  function WindowsExtension(kind: Extension): Option<string> {
    match kind
    case Object => Some("obj")
    case Executable => Some("exe")
    case StaticLibrary => Some("lib")
    case DynamicLibrary => Some("dll")
  }

  /** The suffix for `kind` on the target `triple`. `parse` is the triple
      parser: `None` when the triple does not parse. A triple that does not
      parse, or names another system, gets the Linux suffix. */
  function ForTriple(kind: Extension, triple: string, parse: string -> Option<OperatingSystem>): (suffix: Option<string>)
    ensures parse(triple) == Some(MacOSX) ==> suffix == MacosExtension(kind)
    ensures parse(triple) == Some(Windows) ==> suffix == WindowsExtension(kind)
    ensures parse(triple) != Some(MacOSX) && parse(triple) != Some(Windows) ==> suffix == LinuxExtension(kind)
  {
    var os := match parse(triple) { case Some(os) => os case None => Linux };
    match os
    case Linux => LinuxExtension(kind)
    case MacOSX => MacosExtension(kind)
    case Windows => WindowsExtension(kind)
    case _ => LinuxExtension(kind)
  }

  /** The two Unix tables agree except on dynamic libraries. */
  lemma MacosDiffersOnlyForDynamic(kind: Extension)
    ensures MacosExtension(kind) == LinuxExtension(kind) <==> kind != DynamicLibrary
  {
  }

  /** On Windows every artifact kind has a suffix, and they are distinct. */
  lemma WindowsAlwaysSuffixed(a: Extension, b: Extension)
    ensures WindowsExtension(a).Some?
    ensures a != b ==> WindowsExtension(a) != WindowsExtension(b)
  {
  }

  /** Libraries carry the `lib` prefix on every platform, Windows included. */
  function Prefix(kind: Extension): (p: string)
    ensures p == "lib" <==> kind == StaticLibrary || kind == DynamicLibrary
    ensures p == "" <==> kind == Object || kind == Executable
  {
    match kind
    case Object => ""
    case Executable => ""
    case StaticLibrary => "lib"
    case DynamicLibrary => "lib"
  }

  /** The text appended for a suffix: a dot and the suffix, or nothing. */
  function Dotted(suffix: Option<string>): (s: string)
    ensures suffix.None? <==> s == ""
    ensures suffix.Some? ==> s == "." + suffix.value
  {
    match suffix
    case None => ""
    case Some(e) => "." + e
  }

  /** `Extension::file_name`, for the target `triple` the compiler reports. */
  function FileName(kind: Extension, name: string, triple: string, parse: string -> Option<OperatingSystem>): string {
    Prefix(kind) + name + Dotted(ForTriple(kind, triple, parse))
  }

  /** A file name splits into the prefix, the logical name and the dotted
      suffix, in that order. */
  lemma FileNameParts(kind: Extension, name: string, triple: string, parse: string -> Option<OperatingSystem>)
    ensures var f := FileName(kind, name, triple, parse);
      && |f| == |Prefix(kind)| + |name| + |Dotted(ForTriple(kind, triple, parse))|
      && f[..|Prefix(kind)|] == Prefix(kind)
      && f[|Prefix(kind)|..|Prefix(kind)| + |name|] == name
      && f[|Prefix(kind)| + |name|..] == Dotted(ForTriple(kind, triple, parse))
  {
  }

  /** Recover the logical name from an artifact's file name, if it has the
      shape `FileName` gives it. */
  function NameOf(kind: Extension, fileName: string, triple: string, parse: string -> Option<OperatingSystem>): Option<string> {
    var prefix := Prefix(kind);
    var tail := Dotted(ForTriple(kind, triple, parse));
    if |fileName| >= |prefix| + |tail|
       && fileName[..|prefix|] == prefix
       && fileName[|fileName| - |tail|..] == tail
    then Some(fileName[|prefix|..|fileName| - |tail|])
    else None
  }

  /** Naming loses nothing: the logical name can be read back. */
  lemma FileNameRoundTrip(kind: Extension, name: string, triple: string, parse: string -> Option<OperatingSystem>)
    ensures NameOf(kind, FileName(kind, name, triple, parse), triple, parse) == Some(name)
  {
    FileNameParts(kind, name, triple, parse);
    var f := FileName(kind, name, triple, parse);
    var tail := Dotted(ForTriple(kind, triple, parse));
    assert |f| - |tail| == |Prefix(kind)| + |name|;
  }

  /** Hence two names never share an artifact file name. */
  lemma FileNameInjective(kind: Extension, a: string, b: string, triple: string, parse: string -> Option<OperatingSystem>)
    requires FileName(kind, a, triple, parse) == FileName(kind, b, triple, parse)
    ensures a == b
  {
    FileNameRoundTrip(kind, a, triple, parse);
    FileNameRoundTrip(kind, b, triple, parse);
  }
}
