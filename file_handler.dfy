/** The file-system handler behind the application's dialogs: the list of
    recently opened files, the directory the next dialog starts in, the check of
    image file types, and the post-processing of the save dialog's answer.
    The dialogs themselves are not modelled: what the user picked is an input. */
module FileHandler {
  import opened Common
  import opened Paths

  // ---------------------------------------------------------------------------
  // File type tables
  // ---------------------------------------------------------------------------

  /** The patterns of `IMAGE_TYPES`, in the table's order, each already split into
      its words (`pattern.split()` of the constant table). */
  const ImagePatterns: seq<seq<string>> := [["*.png"], ["*.jpg", "*.jpeg"], ["*.tif", "*.tiff"]]

  /** The image extensions those patterns accept. */
  const ImageExtensions: set<string> := {".png", ".jpg", ".jpeg", ".tif", ".tiff"}

  /** The entries of `OUTPUT_TYPES` and `OUTPUT_FORMAT_MAP`, which share their keys. */
  datatype OutputFormat = PlainText | Hocr | Pdf | TextOnlyPdf | Tsv | AltoXml | PageXml

  /** The key of a format in both tables. */
  function DisplayName(f: OutputFormat): string {
    match f
    case PlainText => "Plain Text"
    case Hocr => "HTML (hOCR)"
    case Pdf => "PDF"
    case TextOnlyPdf => "Text-only PDF"
    case Tsv => "TSV"
    case AltoXml => "ALTO XML"
    case PageXml => "PAGE XML"
  }

  /** `OUTPUT_TYPES[name]`: the file pattern of a format. */
  function Pattern(f: OutputFormat): string {
    match f
    case PlainText => "*.txt"
    case Hocr => "*.html"
    case Pdf | TextOnlyPdf => "*.pdf"
    case Tsv => "*.tsv"
    case AltoXml | PageXml => "*.xml"
  }

  /** `OUTPUT_FORMAT_MAP[name]`: the OCR engine's output format for a format. */
  function Code(f: OutputFormat): string {
    match f
    case PlainText => "txt"
    case Hocr => "hocr"
    case Pdf | TextOnlyPdf => "pdf"
    case Tsv => "tsv"
    case AltoXml => "alto"
    case PageXml => "page"
  }

  /** The keys of the two tables. */
  const OutputNames: set<string> :=
    {"Plain Text", "HTML (hOCR)", "PDF", "Text-only PDF", "TSV", "ALTO XML", "PAGE XML"}

  /** Looking a name up in the tables: `None` where Python raises KeyError. */
  function FormatOf(name: string): (r: Option<OutputFormat>)
    ensures r.Some? <==> name in OutputNames
    ensures r.Some? ==> DisplayName(r.value) == name
  {
    if name == "Plain Text" then Some(PlainText)
    else if name == "HTML (hOCR)" then Some(Hocr)
    else if name == "PDF" then Some(Pdf)
    else if name == "Text-only PDF" then Some(TextOnlyPdf)
    else if name == "TSV" then Some(Tsv)
    else if name == "ALTO XML" then Some(AltoXml)
    else if name == "PAGE XML" then Some(PageXml)
    else None
  }

  lemma FormatOfDisplayName(f: OutputFormat)
    ensures FormatOf(DisplayName(f)) == Some(f)
  {
    var r := FormatOf(DisplayName(f));
    assert r.Some? && DisplayName(r.value) == DisplayName(f);
    match f
    case PlainText =>
    case Hocr =>
    case Pdf => assert |DisplayName(f)| == 3;
    case TextOnlyPdf =>
    case Tsv => assert |DisplayName(f)| == 3;
    case AltoXml => assert DisplayName(f)[1] == 'L';
    case PageXml => assert DisplayName(f)[1] == 'A';
  }

  /** The extensions a pattern's words name: each word with the '*' removed. */
  function PatternExtensions(words: seq<string>): (r: seq<string>)
    ensures |r| == |words| && forall k :: 0 <= k < |words| ==> r[k] == RemoveChar(words[k], '*')
  {
    seq(|words|, k requires 0 <= k < |words| => RemoveChar(words[k], '*'))
  }

  /** The extensions of all patterns of `patterns`. */
  function AllExtensions(patterns: seq<seq<string>>): set<string> {
    if patterns == [] then {}
    else AllExtensions(patterns[..|patterns| - 1]) + Elements(PatternExtensions(patterns[|patterns| - 1]))
  }

  function Elements(s: seq<string>): set<string> {
    set e | e in s
  }

  /** Words that are each a '*' followed by an extension name those extensions. */
  lemma StarWords(words: seq<string>, es: seq<string>)
    requires |words| == |es|
    requires forall k :: 0 <= k < |es| ==> words[k] == "*" + es[k] && '*' !in es[k]
    ensures PatternExtensions(words) == es
  {
    forall k | 0 <= k < |es| ensures PatternExtensions(words)[k] == es[k] {
      RemoveLeadingStar(es[k]);
    }
  }

  lemma ImagePatternWords()
    ensures PatternExtensions(ImagePatterns[0]) == [".png"]
    ensures PatternExtensions(ImagePatterns[1]) == [".jpg", ".jpeg"]
    ensures PatternExtensions(ImagePatterns[2]) == [".tif", ".tiff"]
  {
    assert PatternExtensions(ImagePatterns[0]) == [".png"] by {
      StarWords(ImagePatterns[0], [".png"]);
    }
    assert PatternExtensions(ImagePatterns[1]) == [".jpg", ".jpeg"] by {
      StarWords(ImagePatterns[1], [".jpg", ".jpeg"]);
    }
    assert PatternExtensions(ImagePatterns[2]) == [".tif", ".tiff"] by {
      StarWords(ImagePatterns[2], [".tif", ".tiff"]);
    }
  }

  /** The image patterns accept exactly the five image extensions. */
  lemma ImagePatternsExtensions(e: string)
    ensures e in AllExtensions(ImagePatterns) <==> e in ImageExtensions
  {
    var ps := ImagePatterns;
    ImagePatternWords();
    assert ps[..3][..2] == ps[..2] && ps[..2][..1] == ps[..1] && ps[..1][..0] == [] && ps[..3] == ps;
    assert AllExtensions(ps[..1]) == Elements(PatternExtensions(ps[0]));
    assert AllExtensions(ps[..2]) == AllExtensions(ps[..1]) + Elements(PatternExtensions(ps[1]));
    assert AllExtensions(ps) == AllExtensions(ps[..2]) + Elements(PatternExtensions(ps[2]));
  }

  lemma {:induction false} InAllExtensions(patterns: seq<seq<string>>, i: nat, e: string)
    requires i < |patterns| && e in PatternExtensions(patterns[i])
    ensures e in AllExtensions(patterns)
    decreases |patterns|
  {
    var n := |patterns| - 1;
    if i < n {
      assert patterns[..n][i] == patterns[i];
      InAllExtensions(patterns[..n], i, e);
    }
  }

  /** The loops of `validate_file_type`: whether `ext` is one of the extensions
      some pattern of `patterns` names, stopping at the first match. */
  method MatchesPattern(ext: string, patterns: seq<seq<string>>) returns (found: bool)
    ensures found <==> ext in AllExtensions(patterns)
  {
    var i := 0;
    while i < |patterns|
      invariant 0 <= i <= |patterns|
      invariant ext !in AllExtensions(patterns[..i])
    {
      var extensions := patterns[i];
      var j := 0;
      while j < |extensions|
        invariant 0 <= j <= |extensions|
        invariant ext !in PatternExtensions(extensions)[..j]
      {
        if ext == RemoveChar(extensions[j], '*') {
          assert PatternExtensions(extensions)[j] == ext;
          InAllExtensions(patterns, i, ext);
          return true;
        }
        assert PatternExtensions(extensions)[..j + 1] == PatternExtensions(extensions)[..j] + [RemoveChar(extensions[j], '*')];
        j := j + 1;
      }
      assert PatternExtensions(extensions)[..j] == PatternExtensions(patterns[i]);
      assert patterns[..i + 1][..i] == patterns[..i];
      i := i + 1;
    }
    assert patterns[..i] == patterns;
    return false;
  }

  // ---------------------------------------------------------------------------
  // Recent files
  // ---------------------------------------------------------------------------

  /** The position of the first occurrence of `x` in `s`. */
  function IndexOf(s: seq<string>, x: string): (k: nat)
    requires x in s
    ensures k < |s| && s[k] == x && x !in s[..k]
  {
    if s[0] == x then 0
    else
      assert x in s[1..];
      var k := IndexOf(s[1..], x);
      assert s[..k + 1] == [s[0]] + s[1..][..k];
      k + 1
  }

  /** `list.remove(x)` when `x` is present: drops its first occurrence. */
  function RemoveFirst(s: seq<string>, x: string): (r: seq<string>)
    ensures x !in s ==> r == s
    ensures x in s ==> |r| == |s| - 1
    ensures x in s ==> exists k :: 0 <= k < |s| && s[k] == x && x !in s[..k] && r == s[..k] + s[k + 1..]
    ensures x in s ==> multiset(r) == multiset(s) - multiset{x}
  {
    if x in s then
      var k := IndexOf(s, x);
      assert s == s[..k] + [x] + s[k + 1..];
      s[..k] + s[k + 1..]
    else s
  }

  /** The recent-files list after opening `p`: `p` moves (or is added) to the front,
      and the list is cut to `max` entries. */
  function MoveToFront(s: seq<string>, p: string, max: nat): seq<string> {
    var t := [p] + RemoveFirst(s, p);
    if |t| > max then t[..max] else t
  }

  /** The opened file comes first, it occurs exactly once, no entry is duplicated,
      and the list never exceeds `max`. */
  lemma MoveToFrontFront(s: seq<string>, p: string, max: nat)
    requires NoDuplicates(s) && max >= 1
    ensures |MoveToFront(s, p, max)| >= 1 && MoveToFront(s, p, max)[0] == p
    ensures |MoveToFront(s, p, max)| <= max
    ensures NoDuplicates(MoveToFront(s, p, max))
    ensures forall i :: 0 < i < |MoveToFront(s, p, max)| ==> MoveToFront(s, p, max)[i] != p
  {
    var rest := RemoveFirst(s, p);
    if p in s {
      var k := IndexOf(s, p);
      assert forall i :: 0 <= i < |rest| ==> rest[i] != p;
      assert NoDuplicates(rest) by {
        forall i, j | 0 <= i < j < |rest| ensures rest[i] != rest[j] {
          var i' := if i < k then i else i + 1;
          var j' := if j < k then j else j + 1;
          assert rest[i] == s[i'] && rest[j] == s[j'];
        }
      }
    }
    var t := [p] + rest;
    assert NoDuplicates(t) by {
      forall i, j | 0 <= i < j < |t| ensures t[i] != t[j] {
        if i > 0 {
          assert t[i] == rest[i - 1] && t[j] == rest[j - 1];
        }
      }
    }
  }

  /** The other entries keep their relative order: the list becomes `p`, then the
      old list without `p`, cut to `max`; so the entries dropped are the oldest. */
  lemma MoveToFrontOrder(s: seq<string>, p: string, max: nat)
    ensures p in s ==> MoveToFront(s, p, max) == Take([p] + s[..IndexOf(s, p)] + s[IndexOf(s, p) + 1..], max)
    ensures p !in s ==> MoveToFront(s, p, max) == Take([p] + s, max)
  {
    if p in s {
      var k := IndexOf(s, p);
      assert [p] + (s[..k] + s[k + 1..]) == [p] + s[..k] + s[k + 1..];
    }
  }

  /** The new length: one more than before unless the file was already listed,
      and never more than `max`. */
  lemma MoveToFrontLength(s: seq<string>, p: string, max: nat)
    ensures |MoveToFront(s, p, max)| == Min(max, if p in s then |s| else |s| + 1)
  {
  }

  /** `s[:n]`. */
  function Take(s: seq<string>, n: nat): (r: seq<string>)
    ensures |r| == Min(n, |s|) && r == s[..|r|]
  {
    if |s| > n then s[..n] else s
  }

  // ---------------------------------------------------------------------------
  // Format names of the save dialog's filters
  // ---------------------------------------------------------------------------

  /** The dialog filter text of an output format: `"name (pattern)"`. */
  function FilterText(f: OutputFormat): string {
    DisplayName(f) + " (" + Pattern(f) + ")"
  }

  /** Index of the first `" ("` in `s`, or -1. */
  function FirstOpen(s: string): (r: int)
    ensures r == -1 || 0 <= r < |s| - 1
    ensures r >= 0 ==> s[r] == ' ' && s[r + 1] == '('
    ensures forall k :: 0 <= k < (if r < 0 then |s| - 1 else r) ==> !(s[k] == ' ' && s[k + 1] == '(')
  {
    if |s| < 2 then -1
    else if s[0] == ' ' && s[1] == '(' then 0
    else
      var r := FirstOpen(s[1..]);
      if r < 0 then -1 else r + 1
  }

  /** Index of the last `" ("` in `s`, or -1. */
  function LastOpen(s: string): (r: int)
    ensures r == -1 || 0 <= r < |s| - 1
    ensures r >= 0 ==> s[r] == ' ' && s[r + 1] == '('
    ensures forall k :: r < k < |s| - 1 ==> !(s[k] == ' ' && s[k + 1] == '(')
  {
    if |s| < 2 then -1
    else if s[|s| - 2] == ' ' && s[|s| - 1] == '(' then |s| - 2
    else LastOpen(s[..|s| - 1])
  }

  /** `selected_format.split(" (")[0]`: the text before the first `" ("`. */
  function FormatNameAsWritten(filter: string): (r: string)
    ensures StartsWith(filter, r)
  {
    var i := FirstOpen(filter);
    if i < 0 then filter else filter[..i]
  }

  /** The format name of a filter: the text before the last `" ("`, which opens the
      pattern list. */
  function FormatName(filter: string): (r: string)
    ensures StartsWith(filter, r)
  {
    var i := LastOpen(filter);
    if i < 0 then filter else filter[..i]
  }

  /** A name followed by a parenthesised pattern without parentheses is recovered
      from the filter text. */
  lemma FormatNameOfFilter(name: string, pattern: string)
    requires '(' !in pattern
    ensures FormatName(name + " (" + pattern + ")") == name
  {
    var s := name + " (" + pattern + ")";
    var i := LastOpen(s);
    assert s[|name|] == ' ' && s[|name| + 1] == '(';
    assert i >= |name|;
    assert s[..|name|] == name;
  }

  /** Every output format's filter text gives back its name. */
  lemma FormatNameRoundTrip(f: OutputFormat)
    ensures FormatName(FilterText(f)) == DisplayName(f)
    ensures FormatOf(FormatName(FilterText(f))) == Some(f)
  {
    assert '(' !in Pattern(f);
    FormatNameOfFilter(DisplayName(f), Pattern(f));
    FormatOfDisplayName(f);
  }

  /** The text before the first `" ("` when the name itself holds no `" ("`. */
  lemma FormatNameAsWrittenOf(a: string, b: string)
    requires forall k :: 0 <= k < |a| - 1 ==> !(a[k] == ' ' && a[k + 1] == '(')
    ensures FormatNameAsWritten(a + " (" + b) == a
  {
    var s := a + " (" + b;
    assert s[|a|] == ' ' && s[|a| + 1] == '(';
    assert forall k :: 0 <= k < |a| ==> s[k] == a[k];
    assert s[..|a|] == a;
  }

  /** As written, the hOCR filter gives the name "HTML", which is not a key of the
      format tables, so choosing it raises a KeyError. */
  lemma HocrFilterAsWritten()
    ensures FormatNameAsWritten(FilterText(Hocr)) == "HTML"
    ensures FormatOf("HTML").None?
  {
    assert FilterText(Hocr) == "HTML" + " (" + "hOCR) (*.html)";
    FormatNameAsWrittenOf("HTML", "hOCR) (*.html)");
  }

  /** As written, every other format's filter resolves to that format: no other
      name holds a `" ("`. */
  lemma OtherFiltersAsWritten(f: OutputFormat)
    requires f != Hocr
    ensures FormatNameAsWritten(FilterText(f)) == DisplayName(f)
    ensures FormatOf(FormatNameAsWritten(FilterText(f))) == Some(f)
  {
    var a := DisplayName(f);
    assert FilterText(f) == a + " (" + (Pattern(f) + ")");
    assert forall k :: 0 <= k < |a| ==> a[k] != '(' by {
      match f
      case PlainText =>
      case Pdf =>
      case TextOnlyPdf =>
      case Tsv =>
      case AltoXml =>
      case PageXml =>
    }
    FormatNameAsWrittenOf(a, Pattern(f) + ")");
    FormatOfDisplayName(f);
  }

  /** The extension a save pattern adds: `pattern.replace("*", "").split()[0]`. */
  function FirstExtension(pattern: string): string {
    var words := SplitWords(RemoveChar(pattern, '*'));
    if words == [] then "" else words[0]
  }

  /** The pattern `*` + `e` of a single extension adds `e`. */
  lemma FirstExtensionOf(e: string)
    requires e != "" && ' ' !in e && '*' !in e
    ensures FirstExtension("*" + e) == e
  {
    RemoveLeadingStar(e);
    SplitWordsSingle(e);
  }

  /** The extension a format's files get. */
  function Extension(f: OutputFormat): string {
    FirstExtension(Pattern(f))
  }

  /** Every format's extension is a dot followed by the pattern's suffix. */
  lemma ExtensionOfFormat(f: OutputFormat)
    ensures "*" + Extension(f) == Pattern(f)
    ensures |Extension(f)| >= 2 && Extension(f)[0] == '.'
  {
    var e := Pattern(f)[1..];
    assert Pattern(f) == "*" + e;
    assert ' ' !in e && '*' !in e;
    FirstExtensionOf(e);
  }

  /** `file_path` with `extension` appended unless it already ends with it,
      ignoring case. */
  function WithExtension(path: string, extension: string): (r: string)
    ensures EndsWith(Lower(r), Lower(extension))
    ensures r == path || r == path + extension
    ensures EndsWith(Lower(path), Lower(extension)) ==> r == path
  {
    if EndsWith(Lower(path), Lower(extension)) then path
    else
      LowerAppend(path, extension);
      path + extension
  }

  // ---------------------------------------------------------------------------
  // FileSystemHandler
  // ---------------------------------------------------------------------------

  class FileSystemHandler {
    var recentFiles: seq<string>
    var maxRecentFiles: nat
    var lastDirectory: string

    /** The recent list holds no path twice. */
    ghost predicate Valid()
      reads this
    {
      NoDuplicates(recentFiles)
    }

    /** A new handler: no recent files, at most ten of them, dialogs start in the
        home directory. */
    constructor(home: string)
      ensures Valid()
      ensures recentFiles == [] && maxRecentFiles == 10 && lastDirectory == home
    {
      recentFiles := [];
      maxRecentFiles := 10;
      lastDirectory := home;
    }

    /** `_add_to_recent_files`: remove, insert at the front, truncate. */
    method AddToRecentFiles(p: string)
      requires Valid()
      modifies this
      ensures Valid()
      ensures recentFiles == MoveToFront(old(recentFiles), p, maxRecentFiles)
      ensures maxRecentFiles == old(maxRecentFiles) && lastDirectory == old(lastDirectory)
    {
      ghost var s := recentFiles;
      if p in recentFiles {
        recentFiles := RemoveFirst(recentFiles, p);
      }
      recentFiles := [p] + recentFiles;
      if |recentFiles| > maxRecentFiles {
        recentFiles := recentFiles[..maxRecentFiles];
      }
      if maxRecentFiles >= 1 {
        MoveToFrontFront(s, p, maxRecentFiles);
      }
    }

    method GetRecentFiles() returns (r: seq<string>)
      ensures r == recentFiles
    {
      r := recentFiles;
    }

    /** `validate_file_type`: the path is non-empty, names an existing regular file
        (`isFile`), and its lower-cased suffix is one the image patterns list. */
    method ValidateFileType(path: string, isFile: bool) returns (ok: bool)
      ensures ok <==> path != "" && isFile && Lower(Suffix(path)) in ImageExtensions
    {
      if path == "" || !isFile {
        return false;
      }
      var fileExt := Lower(Suffix(path));
      ok := MatchesPattern(fileExt, ImagePatterns);
      ImagePatternsExtensions(fileExt);
    }

    /** `select_image_file` once the dialog has answered `chosen` ("" when
        cancelled): a chosen file's directory becomes the starting directory and
        the file is recorded as recently opened. */
    method SelectImageFile(chosen: string) returns (r: Option<string>)
      requires Valid()
      modifies this
      ensures Valid()
      ensures chosen == "" ==> r == None && recentFiles == old(recentFiles) && lastDirectory == old(lastDirectory)
      ensures chosen != "" ==>
                r == Some(chosen) && lastDirectory == Parent(chosen) &&
                recentFiles == MoveToFront(old(recentFiles), chosen, maxRecentFiles)
      ensures maxRecentFiles == old(maxRecentFiles)
    {
      if chosen != "" {
        lastDirectory := Parent(chosen);
        AddToRecentFiles(chosen);
        return Some(chosen);
      }
      return None;
    }

    /** `select_output_file(default_format)` once the dialog has answered with the
        path `chosen` ("" when cancelled) and the filter text `filter` the user
        left selected. An unknown default format is a KeyError before the dialog
        opens. Otherwise the name before the first `" ("` of the filter is looked
        up: the chosen path gets that format's extension and is returned with
        its OCR output code, except that the hOCR filter yields the name "HTML",
        which is a KeyError after the last directory has been updated. */
    method SelectOutputFile(defaultFormat: string, chosen: string, filter: string)
      returns (r: Result<Option<(string, string)>>)
      modifies this
      ensures recentFiles == old(recentFiles) && maxRecentFiles == old(maxRecentFiles)
      ensures FormatOf(defaultFormat).None? ==> r == Err(KeyError(defaultFormat)) && lastDirectory == old(lastDirectory)
      ensures FormatOf(defaultFormat).Some? && chosen == "" ==> r == Ok(None) && lastDirectory == old(lastDirectory)
      ensures FormatOf(defaultFormat).Some? && chosen != "" ==> lastDirectory == Parent(chosen)
      ensures FormatOf(defaultFormat).Some? && chosen != "" && FormatOf(FormatNameAsWritten(filter)).None? ==>
                r == Err(KeyError(FormatNameAsWritten(filter)))
      ensures FormatOf(defaultFormat).Some? && chosen != "" && FormatOf(FormatNameAsWritten(filter)).Some? ==>
                var f := FormatOf(FormatNameAsWritten(filter)).value;
                r == Ok(Some((WithExtension(chosen, Extension(f)), Code(f))))
      ensures FormatOf(defaultFormat).Some? && chosen != "" && filter == FilterText(Hocr) ==>
                r == Err(KeyError("HTML"))
      ensures forall f :: FormatOf(defaultFormat).Some? && chosen != "" && f != Hocr && filter == FilterText(f) ==>
                r == Ok(Some((WithExtension(chosen, Extension(f)), Code(f))))
    {
      if FormatOf(defaultFormat).None? {
        return Err(KeyError(defaultFormat));
      }
      if chosen == "" {
        return Ok(None);
      }
      lastDirectory := Parent(chosen);
      HocrFilterAsWritten();
      forall f | f != Hocr ensures FormatOf(FormatNameAsWritten(FilterText(f))) == Some(f) {
        OtherFiltersAsWritten(f);
      }
      var formatName := FormatNameAsWritten(filter);
      var format := FormatOf(formatName);
      if format.None? {
        return Err(KeyError(formatName));
      }
      var extension := FirstExtension(Pattern(format.value));
      var path := chosen;
      if !EndsWith(Lower(path), Lower(extension)) {
        path := path + extension;
      }
      return Ok(Some((path, Code(format.value))));
    }

    /** `select_directory` once the dialog has answered `chosen` ("" when
        cancelled): a chosen directory becomes the starting directory. */
    method SelectDirectory(chosen: string) returns (r: Option<string>)
      modifies this
      ensures recentFiles == old(recentFiles) && maxRecentFiles == old(maxRecentFiles)
      ensures chosen == "" ==> r == None && lastDirectory == old(lastDirectory)
      ensures chosen != "" ==> r == Some(chosen) && lastDirectory == chosen
    {
      if chosen != "" {
        lastDirectory := chosen;
        return Some(chosen);
      }
      return None;
    }
  }

  /** With the corrected name extraction, picking any output format's filter,
      hOCR included, resolves to that format: the returned
      path ends with the format's extension (ignoring case) and comes with the
      format's code. */
  lemma OutputFilterResolves(f: OutputFormat, chosen: string)
    ensures FormatOf(FormatName(FilterText(f))) == Some(f)
    ensures EndsWith(Lower(WithExtension(chosen, Extension(f))), Lower(Extension(f)))
    ensures |Extension(f)| >= 2 && Extension(f)[0] == '.'
  {
    FormatNameRoundTrip(f);
    ExtensionOfFormat(f);
  }
}
