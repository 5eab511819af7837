/** `QmdlConversionService`: the checks made on a QMDL diagnostic log
    before it is converted, the name of the capture file derived from it,
    and the test for the log extensions that need converting. */
module QmdlConversion {
  import opened Wrappers
  import opened Text

  /** A path as `java.nio.file.Path` splits it: the parent directory, absent
      for a bare file name, and the last name element. */
  datatype FilePath = FilePath(parent: Option<string>, fileName: string)

  // ------------------------------------------------------ deriveOutputPath

  /** The characters `java.util.regex` treats as line terminators. */
  predicate IsLineTerminator(c: char) {
    c == '\n' || c == '\r' || c == '\U{85}' || c == '\U{2028}' || c == '\U{2029}'
  }

  /** The length of the line terminator that ends `name`, if any: without
      `MULTILINE`, `$` matches at the end of the input and also just before
      such a final terminator, a "\r\n" pair counting as one. */
  function TerminatorLength(name: string): (n: nat)
    ensures n <= |name|
  {
    if |name| >= 2 && name[|name| - 2] == '\r' && name[|name| - 1] == '\n' then 2
    else if |name| >= 1 && IsLineTerminator(name[|name| - 1]) then 1
    else 0
  }

  /** The name without its final line terminator, and that terminator. */
  function Body(name: string): string { name[..|name| - TerminatorLength(name)] }
  function Tail(name: string): string { name[|name| - TerminatorLength(name)..] }

  /** `replaceAll("\\.(qmdl2?|qmdl)$", ".pcap")`: the expression is anchored
      by `$`, so only a lower-case ".qmdl2" or ".qmdl" at the end of the
      name, or just before its final line terminator, is replaced, and the
      terminator stays behind the replacement. */
  function ReplaceQmdlSuffix(name: string): string {
    var body, tail := Body(name), Tail(name);
    if EndsWith(body, ".qmdl2") then body[..|body| - 6] + ".pcap" + tail
    else if EndsWith(body, ".qmdl") then body[..|body| - 5] + ".pcap" + tail
    else name
  }

  /** `deriveOutputPath`: the replaced name, or the name with ".pcap"
      appended when the replacement left it unchanged, in the same
      directory (a bare name stays bare). */
  function DeriveOutputPath(qmdlFile: FilePath): (r: FilePath)
    ensures r.parent == qmdlFile.parent
  {
    var filename := qmdlFile.fileName;
    var pcapFilename := ReplaceQmdlSuffix(filename);
    FilePath(qmdlFile.parent, if pcapFilename == filename then filename + ".pcap" else pcapFilename)
  }

  lemma EndsWithSuffix(stem: string, ext: string)
    ensures EndsWith(stem + ext, ext)
  {
    assert (stem + ext)[|stem|..] == ext;
  }

  /** Two suffixes that end in different characters never both end a name. */
  lemma LastCharOfSuffix(s: string, p: string)
    requires |p| > 0 && EndsWith(s, p)
    ensures s[|s| - 1] == p[|p| - 1]
  {
    assert s[|s| - |p|..][|p| - 1] == p[|p| - 1];
  }

  /** A replaced extension always changes the name: ".qmdl2" shortens it,
      and ".qmdl" turns its last letter into a "p". */
  lemma ReplacementChanges(name: string)
    requires EndsWith(Body(name), ".qmdl2") || EndsWith(Body(name), ".qmdl")
    ensures ReplaceQmdlSuffix(name) != name
  {
    var body, tail := Body(name), Tail(name);
    assert |name| == |body| + |tail|;
    if EndsWith(body, ".qmdl2") {
      var r := body[..|body| - 6] + ".pcap" + tail;
      assert ReplaceQmdlSuffix(name) == r;
      assert |r| == |name| - 1;
    } else {
      LastCharOfSuffix(body, ".qmdl");
      assert name[|body| - 1] == body[|body| - 1] == 'l';
      var r := body[..|body| - 5] + ".pcap";
      EndsWithSuffix(body[..|body| - 5], ".pcap");
      LastCharOfSuffix(r, ".pcap");
      assert ReplaceQmdlSuffix(name) == r + tail;
      assert |r| == |body| && (r + tail)[|body| - 1] == r[|r| - 1] == 'p';
    }
  }

  /** The derived name, case by case: a lower-case ".qmdl2" or ".qmdl" at
      the end, or before a final line terminator, becomes ".pcap" with the
      terminator kept after it, and every other name, upper-case ".QMDL"
      included, gets ".pcap" appended. */
  lemma DerivedName(qmdlFile: FilePath)
    ensures var name := qmdlFile.fileName;
            var body, tail := Body(name), Tail(name);
            DeriveOutputPath(qmdlFile).fileName ==
              if EndsWith(body, ".qmdl2") then body[..|body| - 6] + ".pcap" + tail
              else if EndsWith(body, ".qmdl") then body[..|body| - 5] + ".pcap" + tail
              else name + ".pcap"
  {
    var name := qmdlFile.fileName;
    if EndsWith(Body(name), ".qmdl2") || EndsWith(Body(name), ".qmdl") {
      ReplacementChanges(name);
    }
  }

  /** A log named with a final line terminator keeps it at the end of the
      capture's name: "x.qmdl\n" becomes "x.pcap\n", not "x.qmdl\n.pcap". */
  lemma TerminatorStaysLast(stem: string)
    ensures DeriveOutputPath(FilePath(None, stem + ".qmdl\n")).fileName == stem + ".pcap\n"
  {
    var name := stem + ".qmdl\n";
    assert TerminatorLength(name) == 1;
    assert Body(name) == stem + ".qmdl" && Tail(name) == "\n";
    EndsWithSuffix(stem, ".qmdl");
    LastCharOfSuffix(stem + ".qmdl", ".qmdl");
    if EndsWith(stem + ".qmdl", ".qmdl2") {
      LastCharOfSuffix(stem + ".qmdl", ".qmdl2");
      assert false;
    }
    DerivedName(FilePath(None, name));
    assert (stem + ".qmdl")[..|stem + ".qmdl"| - 5] == stem;
  }

  /** A name whose last character is no line terminator is its own body. */
  lemma NoTerminator(name: string)
    requires name != [] && !IsLineTerminator(name[|name| - 1])
    ensures TerminatorLength(name) == 0 && Body(name) == name && Tail(name) == []
  {
  }

  /** The replaced name ends in ".pcap" followed by the terminator. */
  lemma ReplacedEndsInPcap(name: string)
    requires EndsWith(Body(name), ".qmdl2") || EndsWith(Body(name), ".qmdl")
    ensures EndsWith(ReplaceQmdlSuffix(name), ".pcap" + Tail(name))
  {
    var body, tail := Body(name), Tail(name);
    var k := if EndsWith(body, ".qmdl2") then 6 else 5;
    assert ReplaceQmdlSuffix(name) == body[..|body| - k] + ".pcap" + tail;
    assert body[..|body| - k] + ".pcap" + tail == body[..|body| - k] + (".pcap" + tail);
    EndsWithSuffix(body[..|body| - k], ".pcap" + tail);
  }

  /** The derived file is a ".pcap" file, or, when a replaced extension had
      a final line terminator behind it, ".pcap" followed by that
      terminator; it stays in the same directory and is never the input
      file itself. */
  lemma DerivedPathIsPcap(qmdlFile: FilePath)
    ensures var name := qmdlFile.fileName;
            EndsWith(DeriveOutputPath(qmdlFile).fileName, ".pcap" + Tail(name))
            || EndsWith(DeriveOutputPath(qmdlFile).fileName, ".pcap")
    ensures TerminatorLength(qmdlFile.fileName) == 0 ==> EndsWith(DeriveOutputPath(qmdlFile).fileName, ".pcap")
    ensures DeriveOutputPath(qmdlFile).parent == qmdlFile.parent
    ensures DeriveOutputPath(qmdlFile) != qmdlFile
  {
    var name := qmdlFile.fileName;
    var derived := DeriveOutputPath(qmdlFile).fileName;
    if EndsWith(Body(name), ".qmdl2") || EndsWith(Body(name), ".qmdl") {
      ReplacementChanges(name);
      ReplacedEndsInPcap(name);
      assert derived == ReplaceQmdlSuffix(name);
      if TerminatorLength(name) == 0 {
        assert Tail(name) == [] && ".pcap" + Tail(name) == ".pcap";
      }
    } else {
      assert ReplaceQmdlSuffix(name) == name;
      assert derived == name + ".pcap";
      EndsWithSuffix(name, ".pcap");
    }
  }

  // -------------------------------------------------------------- isQmdlFile

  /** `isQmdlFile`: the lower-cased name ends in ".qmdl", ".qmdl2", ".dlf"
      or ".sdm". */
  predicate IsQmdlFile(file: FilePath) {
    var filename := Lower(file.fileName);
    EndsWith(filename, ".qmdl") || EndsWith(filename, ".qmdl2") ||
    EndsWith(filename, ".dlf") || EndsWith(filename, ".sdm")
  }

  lemma LowerSuffix(stem: string, ext: string)
    ensures Lower(stem + ext) == Lower(stem) + Lower(ext)
  {
  }

  /** The test ignores case: a name with any extension of the list, in any
      ASCII case, is a QMDL file. */
  lemma QmdlExtensionInAnyCase(stem: string, ext: string)
    requires Lower(ext) in [".qmdl", ".qmdl2", ".dlf", ".sdm"]
    ensures IsQmdlFile(FilePath(None, stem + ext))
    ensures forall dir :: IsQmdlFile(FilePath(Some(dir), stem + ext))
  {
    LowerSuffix(stem, ext);
    EndsWithSuffix(Lower(stem), Lower(ext));
  }

  /** The extension test ignores case but the renaming does not: an
      upper-case ".QMDL" log counts as a QMDL file and its capture is named
      "<name>.QMDL.pcap". */
  lemma UpperCaseQmdlKeepsExtension(stem: string)
    ensures IsQmdlFile(FilePath(None, stem + ".QMDL"))
    ensures DeriveOutputPath(FilePath(None, stem + ".QMDL")).fileName == stem + ".QMDL.pcap"
  {
    assert Lower(".QMDL") == ".qmdl";
    QmdlExtensionInAnyCase(stem, ".QMDL");
    var name := stem + ".QMDL";
    EndsWithSuffix(stem, ".QMDL");
    LastCharOfSuffix(name, ".QMDL");
    NoTerminator(name);
    if EndsWith(name, ".qmdl") {
      LastCharOfSuffix(name, ".qmdl");
      assert false;
    }
    if EndsWith(name, ".qmdl2") {
      LastCharOfSuffix(name, ".qmdl2");
      assert false;
    }
    assert ReplaceQmdlSuffix(name) == name;
    assert DeriveOutputPath(FilePath(None, name)).fileName == name + ".pcap";
  }

  // -------------------------------------------------------- validateQmdlFile

  datatype ValidationError =
    | NotFound        // "QMDL file not found"
    | TooSmall(size: int)   // "QMDL file too small (likely corrupted)"
    | HeaderTooShort  // "Invalid QMDL file: header too short"

  /** `validateQmdlFile`, given what `Files.exists`, `Files.size` and the
      length of `Files.readAllBytes` report. */
  function ValidateQmdlFile(found: bool, fileSize: int, contentLength: nat): (r: Result<(), ValidationError>)
    ensures r.Ok? <==> found && fileSize >= 100 && contentLength >= 4
  {
    if !found then Err(NotFound)
    else if fileSize < 100 then Err(TooSmall(fileSize))
    else if contentLength < 4 then Err(HeaderTooShort)
    else Ok(())
  }

  /** When the bytes read are the whole file, a file passes exactly when it
      exists and holds at least 100 bytes; the header check then never
      fails. */
  lemma ValidationIff(found: bool, fileSize: nat)
    ensures ValidateQmdlFile(found, fileSize, fileSize).Ok? <==> found && fileSize >= 100
    ensures ValidateQmdlFile(found, fileSize, fileSize) != Err(HeaderTooShort)
    ensures found && fileSize < 100 ==> ValidateQmdlFile(found, fileSize, fileSize) == Err(TooSmall(fileSize))
  {
  }
}
