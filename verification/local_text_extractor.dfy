/**
 * `LocalTextExtractor`: text extraction from PDF and plain-text files without a cloud
 * service, and the directory scan that feeds it.
 *
 * The PDF reader is the parameter `pdfPages` (None where the reader raises, one
 * outcome per page otherwise), UTF-8 and cp1252 decoding are `utf8` and `cp1252`,
 * and the file system is a value listing files, directories and directory entries.
 * Latin-1 decoding is written out: it maps each byte to the code point of equal value.
 */
module LocalTextExtractor {
  import opened Json
  import opened Text
  import opened Collections

  const SUPPORTED_EXTENSIONS: set<string> := {".pdf", ".txt", ".py", ".json", ".md", ".csv"}
  const TEXT_EXTENSIONS: set<string> := {".txt", ".py", ".json", ".md", ".csv"}
  const WORD_LIMIT: nat := 100

  datatype PageText = PageText(text: string) | PageError(message: string)

  datatype Encoding = Utf8 | Latin1 | Cp1252

  const ENCODINGS: seq<Encoding> := [Utf8, Latin1, Cp1252]

  datatype Env = Env(
    pdfPages: seq<bv8> -> Option<seq<PageText>>,
    utf8: seq<bv8> -> Option<string>,
    cp1252: seq<bv8> -> Option<string>)

  datatype FileSystem = FileSystem(files: map<string, seq<bv8>>, dirs: set<string>, entries: string -> seq<string>)

  datatype ErrorKind =
    | Unsupported(extension: string)
    | PdfFailed
    | DecodeFailed
    | FileNotFound(path: string)
    | ReadFailed

  /** The result dict: an error with the document name, or the extracted text with its
      lines, the first words and the counts. */
  datatype Extraction =
    | ExtractionError(kind: ErrorKind, documentName: string)
    | Extracted(documentName: string, rawText: string, lines: seq<string>, words: seq<string>,
                totalLines: nat, totalWords: nat, totalPages: Option<nat>, extractor: string,
                fileSizeBytes: nat, encoding: Option<string>)

  /* ---------------------------------------------------------------- names */

  /** `os.path.basename`: the text after the last '/'. */
  function BaseName(path: string): (r: string)
    ensures '/' !in r
  {
    var i := RFind(path, '/');
    path[i + 1..]
  }

  /** `Path(name).suffix`: from the last '.' of the final component, when that dot is
      neither its first nor its last character. */
  function Suffix(name: string): (r: string)
    ensures r == [] || (|r| >= 2 && r[0] == '.' && '.' !in r[1..] && '/' !in r)
  {
    var last := BaseName(RStripChar(name, '/'));
    var i := RFind(last, '.');
    if 0 < i < |last| - 1 then
      assert last[i..][1..] == last[i + 1..];
      last[i..]
    else []
  }

  predicate Supported(name: string)
  {
    Lower(Suffix(name)) in SUPPORTED_EXTENSIONS
  }

  /* ----------------------------------------------------------- line metrics */

  /** `[line.strip() for line in raw.split('\n') if line.strip()]`. */
  function StrippedLines(parts: seq<string>): seq<string>
    decreases |parts|
  {
    if parts == [] then []
    else
      var l := Strip(parts[|parts| - 1]);
      StrippedLines(parts[..|parts| - 1]) + (if l != [] then [l] else [])
  }

  function Lines(raw: string): seq<string>
  {
    StrippedLines(SplitOn(raw, '\n'))
  }

  function FirstWords(ws: seq<string>): (r: seq<string>)
    ensures |r| == if |ws| < WORD_LIMIT then |ws| else WORD_LIMIT
    ensures r == ws[..|r|]
  {
    if |ws| <= WORD_LIMIT then ws else ws[..WORD_LIMIT]
  }

  function TextResult(name: string, raw: string, pages: Option<nat>, extractor: string,
                      size: nat, encoding: Option<string>): Extraction
  {
    Extracted(name, raw, Lines(raw), FirstWords(Words(raw)), |Lines(raw)|, |Words(raw)|,
              pages, extractor, size, encoding)
  }

  /* ------------------------------------------------------------------- PDF */

  /** The page texts kept by `_extract_from_pdf_bytes`: non-blank pages as they are,
      failed pages as an error marker numbered from 1. */
  function KeptPages(pages: seq<PageText>): seq<string>
    decreases |pages|
  {
    if pages == [] then []
    else
      var p := pages[|pages| - 1];
      KeptPages(pages[..|pages| - 1]) +
        (match p
         case PageText(t) => if Strip(t) != [] then [t] else []
         case PageError(m) => ["[Error extracting page " + NatToString(|pages|) + ": " + m + "]"])
  }

  method CollectPages(pages: seq<PageText>) returns (kept: seq<string>)
    ensures kept == KeptPages(pages)
  {
    kept := [];
    var n := 0;
    while n < |pages|
      invariant 0 <= n <= |pages|
      invariant kept == KeptPages(pages[..n])
    {
      assert pages[..n + 1][..n] == pages[..n];
      match pages[n] {
        case PageText(t) =>
          if Strip(t) != [] {
            kept := kept + [t];
          }
        case PageError(m) =>
          kept := kept + ["[Error extracting page " + NatToString(n + 1) + ": " + m + "]"];
      }
      n := n + 1;
    }
    assert pages[..|pages|] == pages;
  }

  function PdfSpec(bytes: seq<bv8>, name: string, env: Env): (r: Extraction)
    ensures r.documentName == name
    ensures r.ExtractionError? <==> env.pdfPages(bytes).None?
    ensures r.Extracted? ==>
      r.totalPages == Some(|env.pdfPages(bytes).value|) && r.fileSizeBytes == |bytes| && r.encoding.None?
  {
    match env.pdfPages(bytes)
    case None => ExtractionError(PdfFailed, name)
    case Some(pages) =>
      TextResult(name, JoinWith(KeptPages(pages), '\n'), Some(|pages|), "PyPDF2", |bytes|, None)
  }

  method ExtractFromPdfBytes(bytes: seq<bv8>, name: string, env: Env) returns (r: Extraction)
    ensures r == PdfSpec(bytes, name, env)
  {
    var pages := env.pdfPages(bytes);
    if pages.None? {
      return ExtractionError(PdfFailed, name);
    }
    var kept := CollectPages(pages.value);
    r := TextResult(name, JoinWith(kept, '\n'), Some(|pages.value|), "PyPDF2", |bytes|, None);
  }

  /* ------------------------------------------------------------ plain text */

  function Latin1Decode(bytes: seq<bv8>): (s: string)
    ensures |s| == |bytes| && forall i :: 0 <= i < |bytes| ==> s[i] as int == bytes[i] as int
  {
    seq(|bytes|, i requires 0 <= i < |bytes| => (bytes[i] as int) as char)
  }

  function Decode(enc: Encoding, bytes: seq<bv8>, env: Env): Option<string>
  {
    match enc
    case Utf8 => env.utf8(bytes)
    case Latin1 => Some(Latin1Decode(bytes))
    case Cp1252 => env.cp1252(bytes)
  }

  /** The first encoding of the list that decodes the bytes. */
  function FirstDecoding(encs: seq<Encoding>, bytes: seq<bv8>, env: Env): Option<string>
  {
    if encs == [] then None
    else if Decode(encs[0], bytes, env).Some? then Decode(encs[0], bytes, env)
    else FirstDecoding(encs[1..], bytes, env)
  }

  /** The encoding loop: try each encoding in order and stop at the first success. */
  method DecodeText(bytes: seq<bv8>, env: Env) returns (raw: Option<string>)
    ensures raw == FirstDecoding(ENCODINGS, bytes, env)
  {
    raw := None;
    var k := 0;
    while k < |ENCODINGS|
      invariant 0 <= k <= |ENCODINGS|
      invariant raw.None?
      invariant FirstDecoding(ENCODINGS, bytes, env) == FirstDecoding(ENCODINGS[k..], bytes, env)
    {
      var attempt := Decode(ENCODINGS[k], bytes, env);
      if attempt.Some? {
        raw := attempt;
        return;
      }
      assert ENCODINGS[k..][1..] == ENCODINGS[k + 1..];
      k := k + 1;
    }
  }

  function TextSpec(bytes: seq<bv8>, name: string, env: Env): (r: Extraction)
    ensures r.Extracted? && r.documentName == name
    ensures r.totalPages.None? && r.fileSizeBytes == |bytes| && r.encoding == Some("utf-8")
  {
    assert ENCODINGS[1..] == [Latin1, Cp1252];
    assert FirstDecoding(ENCODINGS[1..], bytes, env).Some?;
    match FirstDecoding(ENCODINGS, bytes, env)
    case None => ExtractionError(DecodeFailed, name)
    case Some(raw) => TextResult(name, raw, None, "direct_text", |bytes|, Some("utf-8"))
  }

  method ExtractFromTextBytes(bytes: seq<bv8>, name: string, env: Env) returns (r: Extraction)
    ensures r == TextSpec(bytes, name, env)
  {
    var raw := DecodeText(bytes, env);
    if raw.None? {
      return ExtractionError(DecodeFailed, name);
    }
    r := TextResult(name, raw.value, None, "direct_text", |bytes|, Some("utf-8"));
  }

  /* -------------------------------------------------------------- dispatch */

  /** `extract_text_from_bytes`: refuse an unsupported suffix, then PDF or text. */
  function BytesSpec(bytes: seq<bv8>, name: string, env: Env): (r: Extraction)
    ensures r.documentName == name
    ensures (r.ExtractionError? && r.kind.Unsupported?) <==> Lower(Suffix(name)) !in SUPPORTED_EXTENSIONS
    ensures r.ExtractionError? ==> r.kind.Unsupported? || r.kind == PdfFailed
    ensures r.Extracted? ==> r.fileSizeBytes == |bytes|
  {
    var ext := Lower(Suffix(name));
    if ext !in SUPPORTED_EXTENSIONS then ExtractionError(Unsupported(ext), name)
    else if ext == ".pdf" then PdfSpec(bytes, name, env)
    else TextSpec(bytes, name, env)
  }

  /** `extract_text_from_file`: a missing path, or a directory that cannot be read,
      gives an error named by the path's base name. */
  function FileSpec(path: string, fs: FileSystem, env: Env): (r: Extraction)
    ensures r.documentName == BaseName(path)
    ensures (r.ExtractionError? && r.kind.FileNotFound?) <==> path !in fs.files && path !in fs.dirs
    ensures r.Extracted? ==> path in fs.files && r.fileSizeBytes == |fs.files[path]|
  {
    if path !in fs.files && path !in fs.dirs then ExtractionError(FileNotFound(path), BaseName(path))
    else if path !in fs.files then ExtractionError(ReadFailed, BaseName(path))
    else BytesSpec(fs.files[path], BaseName(path), env)
  }

  /** `extract_text_from_bytes`. */
  method ExtractTextFromBytes(bytes: seq<bv8>, name: string, env: Env) returns (r: Extraction)
    ensures r == BytesSpec(bytes, name, env)
  {
    var ext := Lower(Suffix(name));
    if ext !in SUPPORTED_EXTENSIONS {
      return ExtractionError(Unsupported(ext), name);
    }
    if ext == ".pdf" {
      r := ExtractFromPdfBytes(bytes, name, env);
    } else {
      r := ExtractFromTextBytes(bytes, name, env);
    }
  }

  /** `extract_text_from_file`. */
  method ExtractTextFromFile(path: string, fs: FileSystem, env: Env) returns (r: Extraction)
    ensures r == FileSpec(path, fs, env)
  {
    if path !in fs.files && path !in fs.dirs {
      return ExtractionError(FileNotFound(path), BaseName(path));
    }
    if path !in fs.files {
      return ExtractionError(ReadFailed, BaseName(path));
    }
    r := ExtractTextFromBytes(fs.files[path], BaseName(path), env);
  }

  method ExtractTextFromMultipleFiles(paths: seq<string>, fs: FileSystem, env: Env) returns (results: seq<Extraction>)
    ensures |results| == |paths|
    ensures forall i :: 0 <= i < |paths| ==> results[i] == FileSpec(paths[i], fs, env)
  {
    results := [];
    var i := 0;
    while i < |paths|
      invariant 0 <= i <= |paths|
      invariant |results| == i
      invariant forall j :: 0 <= j < i ==> results[j] == FileSpec(paths[j], fs, env)
    {
      var r := ExtractTextFromFile(paths[i], fs, env);
      results := results + [r];
      i := i + 1;
    }
  }

  /* ----------------------------------------------------------- directory scan */

  predicate SortedStrings(s: seq<string>)
  {
    forall i, j :: 0 <= i < j < |s| ==> StrLe(s[i], s[j])
  }

  function InsertSorted(x: string, s: seq<string>): (r: seq<string>)
    ensures multiset(r) == multiset(s) + multiset{x}
    decreases |s|
  {
    if s == [] || StrLe(x, s[0]) then [x] + s
    else
      assert s == [s[0]] + s[1..];
      [s[0]] + InsertSorted(x, s[1..])
  }

  /** Python's `sorted` on strings. */
  function SortStrings(s: seq<string>): (r: seq<string>)
    ensures multiset(r) == multiset(s)
    decreases |s|
  {
    if s == [] then []
    else
      assert s == [s[0]] + s[1..];
      InsertSorted(s[0], SortStrings(s[1..]))
  }

  /** The entries of the listing that are files with a supported suffix, in listing order. */
  function SupportedFiles(entries: seq<string>, fs: FileSystem): seq<string>
    decreases |entries|
  {
    if entries == [] then []
    else
      var e := entries[|entries| - 1];
      SupportedFiles(entries[..|entries| - 1], fs) + (if e in fs.files && Supported(e) then [e] else [])
  }

  /** The loop of the directory scan. */
  method CollectSupported(entries: seq<string>, fs: FileSystem) returns (found: seq<string>)
    ensures found == SupportedFiles(entries, fs)
  {
    found := [];
    var i := 0;
    while i < |entries|
      invariant 0 <= i <= |entries|
      invariant found == SupportedFiles(entries[..i], fs)
    {
      SupportedFilesStep(entries, i, fs);
      found := found + (if entries[i] in fs.files && Supported(entries[i]) then [entries[i]] else []);
      i := i + 1;
    }
    assert entries[..|entries|] == entries;
  }

  lemma SupportedFilesStep(entries: seq<string>, i: nat, fs: FileSystem)
    requires i < |entries|
    ensures SupportedFiles(entries[..i + 1], fs) ==
      SupportedFiles(entries[..i], fs) + (if entries[i] in fs.files && Supported(entries[i]) then [entries[i]] else [])
  {
    assert entries[..i + 1][..i] == entries[..i];
  }

  /** `scan_directory_for_documents`: `[]` for a missing directory; iterating a path that
      is not a directory raises. */
  method ScanDirectoryForDocuments(directory: string, fs: FileSystem) returns (r: Outcome<seq<string>>)
    ensures directory !in fs.files && directory !in fs.dirs ==> r == Done([])
    ensures directory in fs.files && directory !in fs.dirs ==> r == Raised
    ensures directory in fs.dirs ==> r == Done(SortStrings(SupportedFiles(fs.entries(directory), fs)))
  {
    if directory !in fs.files && directory !in fs.dirs {
      return Done([]);
    }
    if directory !in fs.dirs {
      return Raised;
    }
    var found := CollectSupported(fs.entries(directory), fs);
    r := Done(SortStrings(found));
  }

  /* ---------------------------------------------------------------- lemmas */

  lemma {:induction false} InsertSortedSorted(x: string, s: seq<string>)
    requires SortedStrings(s)
    ensures SortedStrings(InsertSorted(x, s))
    decreases |s|
  {
    if s != [] && StrLe(x, s[0]) {
      forall j | 0 < j < |s|
        ensures StrLe(x, s[j])
      {
        StrLeTransitive(x, s[0], s[j]);
      }
      assert InsertSorted(x, s) == [x] + s;
    } else if s != [] {
      InsertSortedSorted(x, s[1..]);
      StrLeTotal(x, s[0]);
      var r := InsertSorted(x, s[1..]);
      assert r != [] && (r[0] == x || r[0] == s[1]);
      forall j | 0 < j < |r| + 1
        ensures StrLe(s[0], ([s[0]] + r)[j])
      {
        assert r[j - 1] in multiset(r);
        assert r[j - 1] == x || r[j - 1] in multiset(s[1..]);
        if r[j - 1] != x {
          var k :| 0 <= k < |s[1..]| && s[1..][k] == r[j - 1];
          assert s[k + 1] == r[j - 1];
        }
      }
      assert InsertSorted(x, s) == [s[0]] + r;
      forall i, j | 0 <= i < j < |r| + 1
        ensures StrLe(([s[0]] + r)[i], ([s[0]] + r)[j])
      {
        if i > 0 {
          assert ([s[0]] + r)[i] == r[i - 1] && ([s[0]] + r)[j] == r[j - 1];
        }
      }
    }
  }

  /** `sorted` returns the same strings in ascending order. */
  lemma {:induction false} SortStringsSpec(s: seq<string>)
    ensures SortedStrings(SortStrings(s))
    ensures multiset(SortStrings(s)) == multiset(s)
    decreases |s|
  {
    if s != [] {
      SortStringsSpec(s[1..]);
      InsertSortedSorted(s[0], SortStrings(s[1..]));
    }
  }

  /** The scan keeps exactly the listed files whose lowercased suffix is supported. */
  lemma {:induction false} SupportedFilesSpec(entries: seq<string>, fs: FileSystem)
    ensures forall x :: x in SupportedFiles(entries, fs) <==> x in entries && x in fs.files && Supported(x)
    ensures IsSubsequence(SupportedFiles(entries, fs), entries)
    decreases |entries|
  {
    if entries != [] {
      var front := entries[..|entries| - 1];
      var e := entries[|entries| - 1];
      SupportedFilesSpec(front, fs);
      assert entries == front + [e];
      SubsequenceExtend(SupportedFiles(front, fs), front, e, e in fs.files && Supported(e));
      assert SupportedFiles(entries, fs) ==
        if e in fs.files && Supported(e) then SupportedFiles(front, fs) + [e] else SupportedFiles(front, fs);
    }
  }

  /** The scan of an existing directory is sorted and holds each supported file of the
      listing as often as the listing does. */
  lemma ScanSpec(directory: string, fs: FileSystem)
    requires directory in fs.dirs
    ensures var r := SortStrings(SupportedFiles(fs.entries(directory), fs));
      && SortedStrings(r)
      && (forall x :: x in r <==> x in fs.entries(directory) && x in fs.files && Supported(x))
  {
    SortStringsSpec(SupportedFiles(fs.entries(directory), fs));
    SupportedFilesSpec(fs.entries(directory), fs);
    var r := SortStrings(SupportedFiles(fs.entries(directory), fs));
    forall x
      ensures x in r <==> x in SupportedFiles(fs.entries(directory), fs)
    {
      assert x in r <==> x in multiset(r);
    }
  }

  /** Latin-1 decodes every byte string, so decoding never fails and cp1252 is never
      tried: the text is the UTF-8 reading when there is one, else the Latin-1 one. */
  lemma DecodingNeverFails(bytes: seq<bv8>, env: Env)
    ensures FirstDecoding(ENCODINGS, bytes, env) ==
      if env.utf8(bytes).Some? then env.utf8(bytes) else Some(Latin1Decode(bytes))
    ensures TextSpec(bytes, "", env).Extracted?
  {
    assert ENCODINGS[1..] == [Latin1, Cp1252];
  }

  /** The dispatch: an unsupported suffix is refused with the document name, `.pdf` goes
      to the PDF reader and every other supported suffix to the text path, so the
      "handler not implemented" branch cannot be reached. */
  lemma DispatchSpec(bytes: seq<bv8>, name: string, env: Env)
    ensures Lower(Suffix(name)) !in SUPPORTED_EXTENSIONS ==>
      BytesSpec(bytes, name, env) == ExtractionError(Unsupported(Lower(Suffix(name))), name)
    ensures Lower(Suffix(name)) == ".pdf" ==> BytesSpec(bytes, name, env) == PdfSpec(bytes, name, env)
    ensures Lower(Suffix(name)) in TEXT_EXTENSIONS ==> BytesSpec(bytes, name, env) == TextSpec(bytes, name, env)
  {
    var ext := Lower(Suffix(name));
    assert ext in TEXT_EXTENSIONS ==> ext in SUPPORTED_EXTENSIONS && ext != ".pdf";
  }

  /** A name without a dot in its last component has no suffix and is refused. */
  lemma NoDotUnsupported(name: string)
    requires '.' !in name
    ensures Suffix(name) == [] && !Supported(name)
  {
    var last := BaseName(RStripChar(name, '/'));
    assert forall c :: c in last ==> c in name;
  }

  lemma StripIsSlice(s: string)
    ensures exists a, b :: 0 <= a <= b <= |s| && Strip(s) == s[a..b]
  {
    var a, b := StripBounds(s);
  }

  /** Where the stripped text starts and ends. */
  lemma StripBounds(s: string) returns (a: nat, b: nat)
    ensures a <= b <= |s| && Strip(s) == s[a..b]
  {
    var l := StripLeft(s);
    a := |s| - |l|;
    var r := StripRight(l);
    b := a + |r|;
    assert s[a..][..|r|] == s[a..b];
  }

  predicate CleanLine(l: string)
  {
    l != [] && !IsSpace(l[0]) && !IsSpace(l[|l| - 1]) && '\n' !in l
  }

  lemma StripLine(p: string)
    requires '\n' !in p
    ensures Strip(p) != [] ==> CleanLine(Strip(p))
  {
    StripIsSlice(p);
    var a, b :| 0 <= a <= b <= |p| && Strip(p) == p[a..b];
    assert forall c :: c in p[a..b] ==> c in p;
  }

  /** Every reported line is non-empty, holds no newline and has no surrounding
      whitespace. */
  lemma {:induction false} StrippedLinesSpec(parts: seq<string>)
    requires forall k :: 0 <= k < |parts| ==> '\n' !in parts[k]
    ensures |StrippedLines(parts)| <= |parts|
    ensures forall k :: 0 <= k < |StrippedLines(parts)| ==> CleanLine(StrippedLines(parts)[k])
    decreases |parts|
  {
    if parts != [] {
      var front := parts[..|parts| - 1];
      var last := parts[|parts| - 1];
      StrippedLinesSpec(front);
      StripLine(last);
      var l := Strip(last);
      assert StrippedLines(parts) == StrippedLines(front) + (if l != [] then [l] else []);
    }
  }

  /** The metrics of extracted text: lines as above, at most 100 listed words which
      are the first ones, a word total counting all of them, and words that together
      hold exactly the text's non-whitespace characters. */
  lemma TextMetrics(name: string, raw: string, pages: Option<nat>, extractor: string,
                    size: nat, encoding: Option<string>)
    ensures var r := TextResult(name, raw, pages, extractor, size, encoding);
      && r.totalLines == |r.lines|
      && (forall k :: 0 <= k < |r.lines| ==> CleanLine(r.lines[k]))
      && |r.words| <= WORD_LIMIT && r.words == Words(raw)[..|r.words|]
      && r.totalWords == |Words(raw)| && (r.totalWords <= WORD_LIMIT ==> r.words == Words(raw))
      && Concat(Words(raw)) == NonSpaces(raw)
  {
    StrippedLinesSpec(SplitOn(raw, '\n'));
    WordsKeepNonSpaces(raw);
  }

  /** A PDF whose pages are all blank yields empty text, no lines and no words. */
  lemma {:induction false} BlankPdf(pages: seq<PageText>)
    requires forall k :: 0 <= k < |pages| ==> pages[k].PageText? && Strip(pages[k].text) == []
    ensures KeptPages(pages) == []
    decreases |pages|
  {
    if pages != [] {
      BlankPdf(pages[..|pages| - 1]);
    }
  }
}
