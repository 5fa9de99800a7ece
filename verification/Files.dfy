/** A directory as a map from file names to file contents, pathlib's `suffix`, and the
    directory states that an atomic write (tmp, write, rename) passes through. */
module Files {
  import opened JsonValues

  // ---- names ----

  /** A file name, structured by the suffixes the agent looks at. `Render` gives the string;
      every string is the rendering of exactly one canonical name. */
  datatype Name =
    | Report(id: string)    // "<id>.json"
    | Temp(of: Name)        // "<name>.tmp"
    | Other(text: string)   // neither suffix

  function Render(n: Name): string {
    match n
    case Report(id) => id + ".json"
    case Temp(of) => Render(of) + ".tmp"
    case Other(text) => text
  }

  function LastDot(name: string): (i: int)
    ensures -1 <= i < |name|
    ensures 0 <= i ==> name[i] == '.'
    ensures forall k :: i < k < |name| ==> name[k] != '.'
  {
    if name == "" then -1
    else if name[|name| - 1] == '.' then |name| - 1
    else LastDot(name[..|name| - 1])
  }

  /** `PurePath.suffix`: empty when the only dot is leading or the name ends in a dot. */
  function Suffix(name: string): string {
    var i := LastDot(name);
    if 0 < i < |name| - 1 then name[i..] else ""
  }

  predicate Canonical(n: Name) {
    match n
    case Report(id) => id != ""
    case Temp(of) => Canonical(of)
    case Other(text) => text != "" && Suffix(text) != ".json" && Suffix(text) != ".tmp"
  }

  predicate IsTmp(n: Name) {
    n.Temp?
  }

  predicate IsJson(n: Name) {
    n.Report?
  }

  /** The sibling an atomic write of `n` goes through: `path.name + ".tmp"`. */
  function TmpName(n: Name): Name {
    Temp(n)
  }

  /** A stem followed by a dot-free extension has exactly that extension as its suffix. */
  lemma SuffixOfExtension(stem: string, ext: string)
    requires stem != "" && ext != "" && '.' !in ext
    ensures Suffix(stem + "." + ext) == "." + ext
  {
    var name := stem + "." + ext;
    assert name[|stem|] == '.';
    assert forall k :: |stem| < k < |name| ==> name[k] == ext[k - |stem| - 1];
    assert LastDot(name) == |stem|;
    assert name[|stem|..] == "." + ext;
  }

  lemma {:induction false} RenderNotEmpty(n: Name)
    requires Canonical(n)
    ensures Render(n) != ""
  {
  }

  /** The structured tests are the suffix tests of the code: a leftover temporary file is
      found by the cleanup and never listed as a report. */
  lemma SuffixOfName(n: Name)
    requires Canonical(n)
    ensures IsJson(n) <==> Suffix(Render(n)) == ".json"
    ensures IsTmp(n) <==> Suffix(Render(n)) == ".tmp"
  {
    assert ".json"[1] != ".tmp"[1];
    match n
    case Report(id) =>
      assert id + ".json" == id + "." + "json";
      SuffixOfExtension(id, "json");
    case Temp(of) =>
      RenderNotEmpty(of);
      assert Render(of) + ".tmp" == Render(of) + "." + "tmp";
      SuffixOfExtension(Render(of), "tmp");
    case Other(_) =>
  }

  lemma {:induction false} RenderInjective(a: Name, b: Name)
    requires Canonical(a) && Canonical(b) && Render(a) == Render(b)
    ensures a == b
  {
    SuffixOfName(a);
    SuffixOfName(b);
    match a
    case Report(id) =>
      assert Render(a)[..|id|] == id && Render(b)[..|b.id|] == b.id;
    case Temp(of) =>
      assert Render(a)[..|Render(of)|] == Render(of) && Render(b)[..|Render(b.of)|] == Render(b.of);
      RenderInjective(of, b.of);
    case Other(_) =>
  }

  /** Every non-empty file name has a canonical structured form. */
  lemma {:induction false} RenderOnto(text: string) returns (n: Name)
    requires text != ""
    ensures Canonical(n) && Render(n) == text
    decreases |text|
  {
    var i := LastDot(text);
    if Suffix(text) == ".json" {
      n := Report(text[..i]);
      assert text == text[..i] + ".json";
    } else if Suffix(text) == ".tmp" {
      var of := RenderOnto(text[..i]);
      n := Temp(of);
      assert text == text[..i] + ".tmp";
    } else {
      n := Other(text);
    }
  }

  // ---- contents ----

  /** What a file holds: a whole JSON text, text that does not parse (a torn write), or bytes
      that are no UTF-8. */
  datatype Content = Whole(value: Json) | Torn(bytes: string) | Undecodable

  datatype File = File(content: Content, mtime: nat)

  type Directory = map<Name, File>

  // ---- the atomic write, one directory state per file operation ----

  /** After `os.open(tmp, O_CREAT | O_TRUNC)`, and again after any partial write. */
  function Tear(d: Directory, n: Name, bytes: string, t: nat): Directory {
    d[TmpName(n) := File(Torn(bytes), t)]
  }

  /** After the whole text is written and synced. */
  function Fill(d: Directory, n: Name, v: Json, t: nat): Directory {
    d[TmpName(n) := File(Whole(v), t)]
  }

  /** After `os.replace(tmp, path)`; the rename keeps the tmp file's mtime. */
  function Commit(d: Directory, n: Name): Directory
    requires TmpName(n) in d
  {
    (d - {TmpName(n)})[n := d[TmpName(n)]]
  }

  /** Where an atomic write fails, if it does: the open; the write, after which the temporary
      file is removed; the rename; the chmod after the rename. */
  datatype Fault = NoFault | OnOpen | OnWrite(bytes: string) | OnReplace | OnChmod

  predicate Renamed(fault: Fault) {
    fault.NoFault? || fault.OnChmod?
  }

  /** What a reader of the directory sees: everything but temporary files. */
  function Visible(d: Directory): Directory {
    map n | n in d && !IsTmp(n) :: d[n]
  }

  /** Crash refinement. Cut the write after any torn write, after the full write, or after
      the rename: a reader sees the old directory or the old directory with the one name
      updated, never anything else. */
  lemma AtomicWriteRefinesUpdate(d: Directory, n: Name, torn: string, v: Json, t: nat)
    requires !IsTmp(n)
    ensures Visible(Tear(d, n, torn, t)) == Visible(d)
    ensures Visible(Fill(Tear(d, n, torn, t), n, v, t + 1)) == Visible(d)
    ensures Visible(Commit(Fill(Tear(d, n, torn, t), n, v, t + 1), n))
         == Visible(d)[n := File(Whole(v), t + 1)]
  {
  }
}
