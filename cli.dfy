/** The path handling of the command-line tool: which files an input path
    stands for, and where an enhanced image is written. */
module Cli {
  import opened Common
  import opened Paths
  import opened Utils

  // ---------------------------------------------------------------------------
  // The file system as seen by the tool
  // ---------------------------------------------------------------------------

  /** A directory, with its entries in listing order. */
  datatype Dir = Dir(entries: seq<Entry>)
  datatype Entry = FileEntry(name: string) | DirEntry(name: string, dir: Dir)

  /** What an input path names: a regular file or a directory. A path that
      names neither is `None` where it is used. */
  datatype Node = RegularFile | Directory(dir: Dir)

  /** `os.listdir`: the names of all entries, files and directories alike. */
  function Names(es: seq<Entry>): (r: seq<string>)
    ensures |r| == |es|
    ensures forall i :: 0 <= i < |es| ==> r[i] == es[i].name
  {
    if es == [] then [] else [es[0].name] + Names(es[1..])
  }

  /** The names of the entries that are files, in listing order. */
  function FileNames(es: seq<Entry>): (r: seq<string>)
    ensures forall n :: n in r <==> exists i :: 0 <= i < |es| && es[i] == FileEntry(n)
  {
    if es == [] then []
    else (if es[0].FileEntry? then [es[0].name] else []) + FileNames(es[1..])
  }

  /** `os.walk(root)`, top-down: the root with its file names first, then the
      walk of each subdirectory in listing order. */
  function Walk(root: string, d: Dir): (w: seq<(string, seq<string>)>)
    ensures |w| >= 1 && w[0] == (root, FileNames(d.entries))
    decreases d, 1
  {
    [(root, FileNames(d.entries))] + WalkSubdirs(root, d.entries)
  }

  function WalkSubdirs(root: string, es: seq<Entry>): seq<(string, seq<string>)>
    decreases es, 0
  {
    if es == [] then []
    else
      (match es[0]
       case FileEntry(_) => []
       case DirEntry(n, sub) => Walk(Join(root, n), sub))
      + WalkSubdirs(root, es[1..])
  }

  /** The walk of a directory's entries visits each subdirectory at its joined
      path, with that subdirectory's file names. */
  lemma {:induction false} WalkSubdirsVisits(root: string, es: seq<Entry>, i: nat)
    requires i < |es| && es[i].DirEntry?
    ensures (Join(root, es[i].name), FileNames(es[i].dir.entries)) in WalkSubdirs(root, es)
    decreases i
  {
    if i == 0 {
      var w := Walk(Join(root, es[0].name), es[0].dir);
      assert WalkSubdirs(root, es) == w + WalkSubdirs(root, es[1..]);
      assert w[0] in WalkSubdirs(root, es);
    } else {
      WalkSubdirsVisits(root, es[1..], i - 1);
      assert es[1..][i - 1] == es[i];
      var head := match es[0] case FileEntry(_) => [] case DirEntry(n, sub) => Walk(Join(root, n), sub);
      assert WalkSubdirs(root, es) == head + WalkSubdirs(root, es[1..]);
    }
  }

  /** `os.walk` visits every subdirectory of the root at the root joined with
      its name, listing that subdirectory's files. */
  lemma WalkVisits(root: string, d: Dir, n: string, sub: Dir)
    requires DirEntry(n, sub) in d.entries
    ensures (Join(root, n), FileNames(sub.entries)) in Walk(root, d)
  {
    var i :| 0 <= i < |d.entries| && d.entries[i] == DirEntry(n, sub);
    WalkSubdirsVisits(root, d.entries, i);
  }

  // ---------------------------------------------------------------------------
  // get_image_paths
  // ---------------------------------------------------------------------------

  /** A name is an image name when the extension of its lower-cased form is a
      supported format. */
  predicate IsImageName(name: string) {
    SplitExt(Lower(name)).1 in SupportedFormats()
  }

  /** Whether a name is an image name does not depend on its case. */
  lemma ImageNameIgnoresCase(name: string)
    ensures IsImageName(Lower(name)) <==> IsImageName(name)
  {
    LowerIdempotent(name);
  }

  /** The names of `names` that pass `isImage` (`IsImageName` in the tool),
      in order, each joined to `root`. */
  function ImagesIn(root: string, names: seq<string>, isImage: string -> bool): seq<string> {
    if names == [] then []
    else ImagesIn(root, names[..|names| - 1], isImage)
         + (if isImage(names[|names| - 1]) then [Join(root, names[|names| - 1])] else [])
  }

  /** The images of every directory of a walk, in walk order. */
  function ImagesInWalk(w: seq<(string, seq<string>)>, isImage: string -> bool): seq<string> {
    if w == [] then []
    else ImagesInWalk(w[..|w| - 1], isImage) + ImagesIn(w[|w| - 1].0, w[|w| - 1].1, isImage)
  }

  /** A path is listed exactly when it joins `root` to an image name of `names`. */
  lemma {:induction false} ImagesInMembers(root: string, names: seq<string>, isImage: string -> bool, x: string)
    ensures x in ImagesIn(root, names, isImage) <==> exists n :: n in names && isImage(n) && x == Join(root, n)
    ensures |ImagesIn(root, names, isImage)| <= |names|
    decreases |names|
  {
    if names != [] {
      var init := names[..|names| - 1];
      ImagesInMembers(root, init, isImage, x);
      assert names == init + [names[|names| - 1]];
      if exists n :: n in names && isImage(n) && x == Join(root, n) {
        var n :| n in names && isImage(n) && x == Join(root, n);
        if n != names[|names| - 1] {
          assert n in init;
        }
      }
    }
  }

  /** A path is listed by a walk exactly when it joins some walked directory
      to an image name among that directory's files. */
  lemma {:induction false} ImagesInWalkMembers(w: seq<(string, seq<string>)>, isImage: string -> bool, x: string)
    ensures x in ImagesInWalk(w, isImage) <==> exists i :: 0 <= i < |w| && x in ImagesIn(w[i].0, w[i].1, isImage)
    decreases |w|
  {
    if w != [] {
      var init := w[..|w| - 1];
      ImagesInWalkMembers(init, isImage, x);
      if exists i :: 0 <= i < |w| && x in ImagesIn(w[i].0, w[i].1, isImage) {
        var i :| 0 <= i < |w| && x in ImagesIn(w[i].0, w[i].1, isImage);
        if i < |w| - 1 {
          assert w[i] == init[i];
        }
      }
      if exists i :: 0 <= i < |init| && x in ImagesIn(init[i].0, init[i].1, isImage) {
        var i :| 0 <= i < |init| && x in ImagesIn(init[i].0, init[i].1, isImage);
        assert init[i] == w[i];
      }
    }
  }

  /** `ImagesInWalk` distributes over concatenation. */
  lemma {:induction false} ImagesInWalkAppend(a: seq<(string, seq<string>)>, b: seq<(string, seq<string>)>, isImage: string -> bool)
    ensures ImagesInWalk(a + b, isImage) == ImagesInWalk(a, isImage) + ImagesInWalk(b, isImage)
    decreases |b|
  {
    if b != [] {
      var init := b[..|b| - 1];
      assert (a + b)[..|a + b| - 1] == a + init;
      assert (a + b)[|a + b| - 1] == b[|b| - 1];
      ImagesInWalkAppend(a, init, isImage);
    } else {
      assert a + b == a;
    }
  }

  /** A recursive listing starts with the images among the input directory's
      own files. */
  lemma RecursiveStartsWithTopLevel(root: string, d: Dir, isImage: string -> bool)
    ensures ImagesIn(root, FileNames(d.entries), isImage) <= ImagesInWalk(Walk(root, d), isImage)
  {
    var w := Walk(root, d);
    assert w == [w[0]] + w[1..];
    ImagesInWalkAppend([w[0]], w[1..], isImage);
    assert ImagesInWalk([w[0]], isImage) == ImagesInWalk([], isImage) + ImagesIn(w[0].0, w[0].1, isImage);
  }

  /** `get_image_paths(input_path, recursive)`, given what the path names
      (`None` when it is neither a file nor a directory). A file stands for
      itself when it is an image; a directory for the images among its entries,
      or, recursively, among the files of every directory beneath it; anything
      else is a not-found error. */
  method GetImagePaths(inputPath: string, node: Option<Node>, recursive: bool) returns (r: Result<seq<string>>)
    ensures node.None? ==> r == Err(FileNotFound(inputPath))
    ensures node == Some(RegularFile) ==> r == Ok(if IsImageName(inputPath) then [inputPath] else [])
    ensures node.Some? && node.value.Directory? && !recursive ==>
              r == Ok(ImagesIn(inputPath, Names(node.value.dir.entries), IsImageName))
    ensures node.Some? && node.value.Directory? && recursive ==>
              r == Ok(ImagesInWalk(Walk(inputPath, node.value.dir), IsImageName))
  {
    if node.None? {
      return Err(FileNotFound(inputPath));
    }
    if node.value.RegularFile? {
      if IsImageName(inputPath) {
        return Ok([inputPath]);
      }
      return Ok([]);
    }
    var imagePaths;
    if recursive {
      imagePaths := ImagesInTree(inputPath, node.value.dir, IsImageName);
    } else {
      imagePaths := ImagesInListing(inputPath, Names(node.value.dir.entries), IsImageName);
    }
    return Ok(imagePaths);
  }

  /** The inner loop of both branches: every name of `names` that passes
      `isImage`, joined to `root`, in order. */
  method ImagesInListing(root: string, names: seq<string>, isImage: string -> bool) returns (imagePaths: seq<string>)
    ensures imagePaths == ImagesIn(root, names, isImage)
  {
    imagePaths := [];
    var i := 0;
    while i < |names|
      invariant 0 <= i <= |names|
      invariant imagePaths == ImagesIn(root, names[..i], isImage)
    {
      if isImage(names[i]) {
        imagePaths := imagePaths + [Join(root, names[i])];
      }
      assert names[..i + 1][..i] == names[..i];
      i := i + 1;
    }
    assert names[..i] == names;
  }

  /** The recursive branch: the files of every directory of `os.walk(root)`
      that pass `isImage`, in walk order. */
  method ImagesInTree(root: string, d: Dir, isImage: string -> bool) returns (imagePaths: seq<string>)
    ensures imagePaths == ImagesInWalk(Walk(root, d), isImage)
  {
    imagePaths := [];
    var walk := Walk(root, d);
    var i := 0;
    while i < |walk|
      invariant 0 <= i <= |walk|
      invariant imagePaths == ImagesInWalk(walk[..i], isImage)
    {
      var found := ImagesInListing(walk[i].0, walk[i].1, isImage);
      imagePaths := imagePaths + found;
      assert walk[..i + 1][..i] == walk[..i];
      i := i + 1;
    }
    assert walk[..i] == walk;
  }

  // ---------------------------------------------------------------------------
  // get_output_path
  // ---------------------------------------------------------------------------

  /** The file name `base + suffix + ext` for an input file `base + ext`. */
  function SuffixedName(inputPath: string, suffix: string): (r: string)
    ensures EndsWith(r, SplitExt(Basename(inputPath)).1)
  {
    var (base, ext) := SplitExt(Basename(inputPath));
    base + suffix + ext
  }

  /** `get_output_path(input_path, output_path, suffix)`, given whether the
      output path names a directory. Without an output path the suffixed name
      goes next to the input; an output directory receives the suffixed name;
      any other output path is used as it is. */
  function GetOutputPath(inputPath: string, outputPath: Option<string>, outputIsDir: bool,
                         suffix: string := "_enhanced"): (r: string)
    ensures outputPath.Some? && !outputIsDir ==> r == outputPath.value
    ensures outputPath.None? && !StartsWith(SuffixedName(inputPath, suffix), "/") ==>
              StartsWith(r, Dirname(inputPath))
    ensures outputPath.Some? && outputIsDir && !StartsWith(SuffixedName(inputPath, suffix), "/") ==>
              StartsWith(r, outputPath.value)
    ensures outputPath.None? || outputIsDir ==> EndsWith(r, SuffixedName(inputPath, suffix))
  {
    match outputPath
    case None => JoinStartsWith(Dirname(inputPath), SuffixedName(inputPath, suffix));
      Join(Dirname(inputPath), SuffixedName(inputPath, suffix))
    case Some(out) =>
      if outputIsDir then
        JoinStartsWith(out, SuffixedName(inputPath, suffix));
        Join(out, SuffixedName(inputPath, suffix))
      else out
  }

  /** Joining keeps the directory in front unless the name is absolute. */
  lemma JoinStartsWith(a: string, b: string)
    ensures !StartsWith(b, "/") ==> StartsWith(Join(a, b), a)
  {
    if !StartsWith(b, "/") {
      var r := Join(a, b);
      assert r[..|a|] == a;
    }
  }

  /** The last component of a join is the joined name, when that is a
      single non-empty component. */
  lemma BasenameJoin(a: string, b: string)
    requires b != "" && '/' !in b
    ensures Basename(Join(a, b)) == b
  {
    var r := Join(a, b);
    assert b[0] != '/';
    assert !StartsWith(b, "/");
    var prefix := if a == [] || a[|a| - 1] == '/' then a else a + "/";
    assert r == prefix + b;
    var i := RFind(r, '/');
    if prefix == [] {
      assert i == -1;
    } else {
      assert r[|prefix| - 1] == '/';
      assert i == |prefix| - 1;
    }
    assert r[i + 1..] == b;
  }

  /** Written next to the input or into a directory, the output's file name
      is the input's file name with the suffix inserted before the extension:
      taking the suffix out again gives the input's name back. */
  lemma OutputNameHasSuffix(inputPath: string, outputPath: Option<string>, outputIsDir: bool, suffix: string)
    requires outputPath.None? || outputIsDir
    requires '/' !in suffix && SuffixedName(inputPath, suffix) != ""
    ensures var (base, ext) := SplitExt(Basename(inputPath));
            Basename(GetOutputPath(inputPath, outputPath, outputIsDir, suffix)) == base + suffix + ext
            && base + ext == Basename(inputPath)
  {
    var name := SuffixedName(inputPath, suffix);
    var (base, ext) := SplitExt(Basename(inputPath));
    assert '/' !in base + ext;
    assert name == base + suffix + ext;
    BasenameJoin(if outputPath.None? then Dirname(inputPath) else outputPath.value, name);
  }

  /** Without a suffix argument, the suffix is "_enhanced". */
  lemma DefaultSuffix(inputPath: string, outputPath: Option<string>, outputIsDir: bool)
    ensures GetOutputPath(inputPath, outputPath, outputIsDir) ==
            GetOutputPath(inputPath, outputPath, outputIsDir, "_enhanced")
    ensures var (base, ext) := SplitExt(Basename(inputPath));
            outputPath.None? || outputIsDir ==>
              Basename(GetOutputPath(inputPath, outputPath, outputIsDir)) == base + "_enhanced" + ext
  {
    var (base, ext) := SplitExt(Basename(inputPath));
    var name := base + "_enhanced" + ext;
    assert name[|base|] == '_';
    if outputPath.None? || outputIsDir {
      OutputNameHasSuffix(inputPath, outputPath, outputIsDir, "_enhanced");
    }
  }
}
