/** Parameter persistence as JSON objects, the list of supported image formats,
    and the geometry and parameter text of the side-by-side comparison image. */
module Utils {
  import opened Common
  import opened Enhancer

  // ---------------------------------------------------------------------------
  // Saving and loading parameters
  // ---------------------------------------------------------------------------

  /** The JSON files present: each path holds one decoded JSON object. */
  type JsonFiles = map<string, map<string, Value>>

  /** `save_params_to_json(params, path)`: the file at `path` now holds the
      record's dictionary; every other file is as it was. */
  function SaveParams(files: JsonFiles, p: Params, path: string): (r: JsonFiles)
    ensures r.Keys == files.Keys + {path}
    ensures r[path] == ToDict(p)
    ensures forall q :: q in files && q != path ==> r[q] == files[q]
  {
    files[path := ToDict(p)]
  }

  /** `load_params_from_json(path)`: a missing file is an error; otherwise the
      object is handed to `from_dict`. */
  function LoadParams(files: JsonFiles, path: string): (r: Result<Params>)
    ensures path !in files ==> r == Err(FileNotFound(path))
    ensures path in files ==> r == FromDict(files[path])
  {
    if path in files then FromDict(files[path]) else Err(FileNotFound(path))
  }

  /** Loading a saved record gives it back. */
  lemma SaveThenLoad(files: JsonFiles, p: Params, path: string)
    ensures LoadParams(SaveParams(files, p, path), path) == Ok(p)
  {
    FromDictToDict(p);
  }

  /** Saving to one path does not change what loading another path gives. */
  lemma SaveKeepsOthers(files: JsonFiles, p: Params, path: string, other: string)
    requires other != path
    ensures LoadParams(SaveParams(files, p, path), other) == LoadParams(files, other)
  {
  }

  /** A file holding only some of the fields, each of a fitting type, loads
      with those fields set and every other field at its default. */
  lemma LoadFillsDefaults(files: JsonFiles, path: string)
    requires path in files
    requires files[path].Keys <= FieldNames
    requires forall k :: k in files[path] ==> KeyFits(k, files[path][k])
    ensures LoadParams(files, path).Ok?
    ensures ToDict(LoadParams(files, path).value) == ToDict(Default()) + Assigned(files[path])
  {
    FromDictPartial(files[path]);
  }

  // ---------------------------------------------------------------------------
  // Supported formats
  // ---------------------------------------------------------------------------

  /** `get_supported_formats()`: seven distinct extensions, each a dot followed
      by lower-case letters. */
  function SupportedFormats(): (r: seq<string>)
    ensures |r| == 7
    ensures forall i :: 0 <= i < |r| ==> |r[i]| >= 2 && r[i][0] == '.'
    ensures forall i :: 0 <= i < |r| ==> forall j :: 1 <= j < |r[i]| ==> 'a' <= r[i][j] <= 'z'
    ensures NoDuplicates(r)
  {
    var r := [".jpg", ".jpeg", ".png", ".bmp", ".tiff", ".tif", ".webp"];
    assert forall i, j :: 0 <= i < j < |r| ==> r[i] != r[j] by {
      forall i, j | 0 <= i < j < |r| ensures r[i] != r[j] {
        assert |r[i]| != |r[j]| || r[i][1] != r[j][1] || r[i][2] != r[j][2];
      }
    }
    r
  }

  /** A supported extension is its own lower-case form. */
  lemma SupportedFormatsLower(e: string)
    requires e in SupportedFormats()
    ensures Lower(e) == e
  {
    var i :| 0 <= i < 7 && SupportedFormats()[i] == e;
    forall j | 0 <= j < |e| ensures Lower(e)[j] == e[j] {
      if j > 0 {
        assert 'a' <= e[j] <= 'z';
      }
    }
  }

  // ---------------------------------------------------------------------------
  // Comparison image
  // ---------------------------------------------------------------------------

  const Margin: nat := 20
  const TitleHeight: nat := 40
  /** The vertical distance between two parameter lines. */
  const LineHeight: nat := 20

  /** One line of the parameter text; the number formatting is not modelled. */
  datatype ParamLine =
    | BrightnessLine(brightness: real)
    | ContrastLine(contrast: real)
    | SharpnessLine(sharpness: real)
    | ColorLine(color: real)
    | DenoiseLine(denoise: bool)
    | BinarizeLine(binarize: bool)
    | ThresholdLine(threshold: int)
    | DeskewLine
    | ResizeLine(factor: real)

  /** The number of parameter lines for a record. */
  function LineCount(p: Params): nat {
    6 + (if p.binarize then 1 else 0) + (if p.deskew then 1 else 0) + (if p.resizeFactor.Some? then 1 else 0)
  }

  /** The parameter text of a record: the six base lines in order, then the
      threshold line iff binarizing, the deskew line iff deskewing and, last,
      the resize line iff a factor is set. */
  predicate IsParamText(p: Params, lines: seq<ParamLine>) {
    && |lines| == LineCount(p)
    && lines[..6] == [BrightnessLine(p.brightness), ContrastLine(p.contrast), SharpnessLine(p.sharpness),
                      ColorLine(p.color), DenoiseLine(p.denoise), BinarizeLine(p.binarize)]
    && (ThresholdLine(p.binarizeThreshold) in lines <==> p.binarize)
    && (DeskewLine in lines <==> p.deskew)
    && (forall i :: 0 <= i < |lines| && lines[i].ResizeLine? ==>
          i == |lines| - 1 && p.resizeFactor == Some(lines[i].factor))
    && (p.resizeFactor.Some? ==> lines[|lines| - 1] == ResizeLine(p.resizeFactor.value))
    && (p.binarize ==> lines[6] == ThresholdLine(p.binarizeThreshold))
  }

  /** `param_text` in `create_comparison_image`, built by conditional appends. */
  method ParamText(p: Params) returns (lines: seq<ParamLine>)
    ensures IsParamText(p, lines)
  {
    lines := [BrightnessLine(p.brightness), ContrastLine(p.contrast), SharpnessLine(p.sharpness),
              ColorLine(p.color), DenoiseLine(p.denoise), BinarizeLine(p.binarize)];
    if p.binarize {
      lines := lines + [ThresholdLine(p.binarizeThreshold)];
    }
    if p.deskew {
      lines := lines + [DeskewLine];
    }
    assert forall i :: 0 <= i < |lines| ==> !lines[i].ResizeLine?;
    if p.resizeFactor.Some? {
      lines := lines + [ResizeLine(p.resizeFactor.value)];
    }
  }

  /** The size both images are shown at: unchanged when the sizes agree, the
      smaller width and the smaller height otherwise. */
  function CommonSize(ow: nat, oh: nat, ew: nat, eh: nat): (r: (nat, nat))
    ensures r.0 <= ow && r.0 <= ew && (r.0 == ow || r.0 == ew)
    ensures r.1 <= oh && r.1 <= eh && (r.1 == oh || r.1 == eh)
    ensures (ow, oh) == (ew, eh) ==> r == (ow, oh)
  {
    if (ow, oh) != (ew, eh) then (Min(ow, ew), Min(oh, eh)) else (ow, oh)
  }

  /** The height reserved for parameter text, as written: 120 whenever a record
      is given, whatever the number of lines. */
  function ParamsHeightAsWritten(hasParams: bool): nat {
    if hasParams then 120 else 0
  }

  /** The height the parameter text needs: one line height per line, which is
      the 120 written in the source for the six base lines. */
  function ParamsHeight(lineCount: nat): (r: nat)
    ensures lineCount == 6 ==> r == ParamsHeightAsWritten(true)
    ensures lineCount == 0 ==> r == ParamsHeightAsWritten(false)
  {
    LineHeight * lineCount
  }

  /** The canvas size for a shared image size and parameter-area height. */
  function CanvasSize(w: nat, h: nat, paramsHeight: nat): (nat, nat) {
    (w * 2 + Margin * 3, h + Margin * 2 + TitleHeight + paramsHeight)
  }

  /** The top of parameter line `i`. */
  function LineTop(h: nat, i: nat): nat {
    Margin + TitleHeight + h + 10 + i * LineHeight
  }

  /** As written, the canvas for a record with binarization, deskew and a
      resize factor has nine parameter lines, and the last two start below the
      bottom of the canvas. */
  lemma ParamLinesOverflowAsWritten(h: nat, p: Params)
    requires p.binarize && p.deskew && p.resizeFactor.Some?
    ensures LineCount(p) == 9
    ensures LineTop(h, 7) >= CanvasSize(0, h, ParamsHeightAsWritten(true)).1
    ensures LineTop(h, 8) >= CanvasSize(0, h, ParamsHeightAsWritten(true)).1
  {
  }

  /** With the height the lines need, every line lies inside the canvas. */
  lemma ParamLinesFit(w: nat, h: nat, n: nat, i: nat)
    requires i < n
    ensures LineTop(h, i) + LineHeight <= CanvasSize(w, h, ParamsHeight(n)).1
  {
  }

  /** Where things go on the comparison canvas. */
  datatype Layout = Layout(
    width: nat, height: nat,          // the size both images are shown at
    canvasWidth: nat, canvasHeight: nat,
    originalAt: (nat, nat), enhancedAt: (nat, nat),
    lines: seq<ParamLine>,
    lineTops: seq<nat>)

  /** The geometry of `create_comparison_image(original, enhanced, params)` for
      images of the given sizes. Both images are shown at the common size, side
      by side under the title, apart and inside the canvas, which is wider
      than twice the image. A record reserves a fixed 120 pixels for its lines,
      room for the six base lines only: a seventh line runs past the bottom of
      the canvas. */
  method ComparisonLayout(ow: nat, oh: nat, ew: nat, eh: nat, params: Option<Params>) returns (l: Layout)
    ensures (l.width, l.height) == CommonSize(ow, oh, ew, eh)
    ensures l.canvasWidth == 2 * l.width + 60
    ensures l.canvasHeight == l.height + 80 + (if params.Some? then 120 else 0)
    ensures params.None? ==> l.lines == []
    ensures params.Some? ==> IsParamText(params.value, l.lines)
    ensures l.originalAt == (Margin, Margin + TitleHeight)
    ensures l.enhancedAt == (l.width + 2 * Margin, Margin + TitleHeight)
    ensures l.originalAt.0 + l.width < l.enhancedAt.0
    ensures l.enhancedAt.0 + l.width <= l.canvasWidth && l.originalAt.1 + l.height <= l.canvasHeight
    ensures |l.lineTops| == |l.lines|
    ensures forall i :: 0 <= i < |l.lineTops| ==>
              l.originalAt.1 + l.height < l.lineTops[i] && l.lineTops[i] == l.originalAt.1 + l.height + 10 + 20 * i
    ensures forall i :: 0 <= i < |l.lineTops| ==> (l.lineTops[i] + LineHeight <= l.canvasHeight <==> i < 6)
    ensures forall i, j :: 0 <= i < j < |l.lineTops| ==> l.lineTops[i] + LineHeight <= l.lineTops[j]
  {
    var size := CommonSize(ow, oh, ew, eh);
    var w, h := size.0, size.1;
    var lines: seq<ParamLine> := [];
    if params.Some? {
      lines := ParamText(params.value);
    }
    var canvas := CanvasSize(w, h, ParamsHeightAsWritten(params.Some?));
    var tops: seq<nat> := [];
    var i := 0;
    while i < |lines|
      invariant 0 <= i <= |lines|
      invariant |tops| == i
      invariant forall k :: 0 <= k < i ==> tops[k] == LineTop(h, k)
    {
      tops := tops + [LineTop(h, i)];
      i := i + 1;
    }
    l := Layout(w, h, canvas.0, canvas.1, (Margin, Margin + TitleHeight), (w + 2 * Margin, Margin + TitleHeight),
                lines, tops);
  }
}
