/** The enhancement parameter record, its dictionary form, and the enhancer
    that applies the parameters to an image in a fixed order of steps. */
module Enhancer {
  import opened Common
  import opened Imaging

  // ---------------------------------------------------------------------------
  // EnhancementParams
  // ---------------------------------------------------------------------------

  /** The nine tunable fields. `resizeFactor` is `None` when no resize is asked for. */
  datatype Params = Params(
    brightness: real,
    contrast: real,
    sharpness: real,
    color: real,
    denoise: bool,
    binarize: bool,
    binarizeThreshold: int,
    deskew: bool,
    resizeFactor: Option<real>)

  /** The defaults: every multiplier 1.0, every flag off, threshold 128, no resize. */
  function Default(): (p: Params)
    ensures p.brightness == p.contrast == p.sharpness == p.color == 1.0
    ensures !p.denoise && !p.binarize && !p.deskew
    ensures p.binarizeThreshold == 128 && p.resizeFactor == None
  {
    Params(1.0, 1.0, 1.0, 1.0, false, false, 128, false, None)
  }

  /** A value of a JSON object (or of a keyword argument). */
  datatype Value = VNum(num: real) | VInt(i: int) | VBool(b: bool) | VNull

  /** The fields of the record, named in the dictionary form by `KeyName`. */
  datatype Field =
    | BrightnessKey | ContrastKey | SharpnessKey | ColorKey
    | DenoiseKey | BinarizeKey | ThresholdKey | DeskewKey | ResizeKey

  function KeyName(f: Field): string {
    match f
    case BrightnessKey => "brightness"
    case ContrastKey => "contrast"
    case SharpnessKey => "sharpness"
    case ColorKey => "color"
    case DenoiseKey => "denoise"
    case BinarizeKey => "binarize"
    case ThresholdKey => "binarize_threshold"
    case DeskewKey => "deskew"
    case ResizeKey => "resize_factor"
  }

  /** The dictionary keys, which are the field names. */
  const FieldNames: set<string> :=
    {"brightness", "contrast", "sharpness", "color", "denoise", "binarize",
     "binarize_threshold", "deskew", "resize_factor"}

  /** The field a key names, if any (`hasattr` on the record's data fields). */
  function FieldOf(key: string): (r: Option<Field>)
    ensures r.Some? <==> key in FieldNames
    ensures r.Some? ==> KeyName(r.value) == key
  {
    if key == "brightness" then Some(BrightnessKey)
    else if key == "contrast" then Some(ContrastKey)
    else if key == "sharpness" then Some(SharpnessKey)
    else if key == "color" then Some(ColorKey)
    else if key == "denoise" then Some(DenoiseKey)
    else if key == "binarize" then Some(BinarizeKey)
    else if key == "binarize_threshold" then Some(ThresholdKey)
    else if key == "deskew" then Some(DeskewKey)
    else if key == "resize_factor" then Some(ResizeKey)
    else None
  }

  lemma FieldOfKeyName(f: Field)
    ensures KeyName(f) in FieldNames
    ensures FieldOf(KeyName(f)) == Some(f)
  {
    var r := FieldOf(KeyName(f));
    assert r.Some? && KeyName(r.value) == KeyName(f);
    match f
    case BrightnessKey =>
    case ContrastKey => assert KeyName(f)[0] == 'c';
    case SharpnessKey =>
    case ColorKey => assert KeyName(f)[2] == 'l';
    case DenoiseKey => assert KeyName(f)[2] == 'n';
    case BinarizeKey => assert |KeyName(f)| == 8;
    case ThresholdKey =>
    case DeskewKey => assert KeyName(f)[2] == 's';
    case ResizeKey =>
  }

  /** Whether `v` is a value of the kind field `f` holds (an integer is accepted
      where a float is expected, as Python's arithmetic does). */
  predicate Fits(f: Field, v: Value) {
    match f
    case BrightnessKey | ContrastKey | SharpnessKey | ColorKey => v.VNum? || v.VInt?
    case DenoiseKey | BinarizeKey | DeskewKey => v.VBool?
    case ThresholdKey => v.VInt?
    case ResizeKey => v.VNull? || v.VNum? || v.VInt?
  }

  predicate KeyFits(key: string, v: Value) {
    FieldOf(key).Some? && Fits(FieldOf(key).value, v)
  }

  function AsReal(v: Value): real {
    match v
    case VInt(i) => i as real
    case VNum(r) => r
    case _ => 0.0
  }

  /** A value as the record stores it: integers given for float fields become floats. */
  function Stored(f: Field, v: Value): Value {
    if v.VInt? && f != ThresholdKey then VNum(v.i as real) else v
  }

  /** The value of field `f`, as `to_dict` reports it. */
  function Get(p: Params, f: Field): (v: Value)
    ensures Fits(f, v) && Stored(f, v) == v
  {
    match f
    case BrightnessKey => VNum(p.brightness)
    case ContrastKey => VNum(p.contrast)
    case SharpnessKey => VNum(p.sharpness)
    case ColorKey => VNum(p.color)
    case DenoiseKey => VBool(p.denoise)
    case BinarizeKey => VBool(p.binarize)
    case ThresholdKey => VInt(p.binarizeThreshold)
    case DeskewKey => VBool(p.deskew)
    case ResizeKey => if p.resizeFactor.None? then VNull else VNum(p.resizeFactor.value)
  }

  /** `setattr(p, name, v)` for the field `f`; a value that does not fit is ignored. */
  function SetField(p: Params, f: Field, v: Value): (r: Params)
    ensures Get(r, f) == if Fits(f, v) then Stored(f, v) else Get(p, f)
    ensures forall g :: g != f ==> Get(r, g) == Get(p, g)
  {
    if !Fits(f, v) then p
    else match f
      case BrightnessKey => p.(brightness := AsReal(v))
      case ContrastKey => p.(contrast := AsReal(v))
      case SharpnessKey => p.(sharpness := AsReal(v))
      case ColorKey => p.(color := AsReal(v))
      case DenoiseKey => p.(denoise := v.b)
      case BinarizeKey => p.(binarize := v.b)
      case ThresholdKey => p.(binarizeThreshold := v.i)
      case DeskewKey => p.(deskew := v.b)
      case ResizeKey => p.(resizeFactor := if v.VNull? then None else Some(AsReal(v)))
  }

  /** Records are determined by their field values. */
  lemma ParamsByFields(p: Params, q: Params)
    requires forall f :: Get(p, f) == Get(q, f)
    ensures p == q
  {
    assert Get(p, BrightnessKey) == Get(q, BrightnessKey);
    assert Get(p, ContrastKey) == Get(q, ContrastKey);
    assert Get(p, SharpnessKey) == Get(q, SharpnessKey);
    assert Get(p, ColorKey) == Get(q, ColorKey);
    assert Get(p, DenoiseKey) == Get(q, DenoiseKey);
    assert Get(p, BinarizeKey) == Get(q, BinarizeKey);
    assert Get(p, ThresholdKey) == Get(q, ThresholdKey);
    assert Get(p, DeskewKey) == Get(q, DeskewKey);
    assert Get(p, ResizeKey) == Get(q, ResizeKey);
  }

  /** `to_dict`: the record as a dictionary keyed by field name. */
  function ToDict(p: Params): (d: map<string, Value>)
    ensures d.Keys == FieldNames
    ensures forall f :: KeyName(f) in d && d[KeyName(f)] == Get(p, f)
  {
    var d := map k | k in FieldNames :: Get(p, FieldOf(k).value);
    assert forall f :: KeyName(f) in d && d[KeyName(f)] == Get(p, f) by {
      forall f ensures KeyName(f) in d && d[KeyName(f)] == Get(p, f) { FieldOfKeyName(f); }
    }
    d
  }

  /** The new value of field `f` once the entries of `kw` are assigned to `p`. */
  function NewValue(p: Params, kw: map<string, Value>, f: Field): Value {
    if KeyName(f) in kw && Fits(f, kw[KeyName(f)]) then Stored(f, kw[KeyName(f)]) else Get(p, f)
  }

  /** The record `p` with every fitting entry of `kw` that names a field assigned. */
  function Updated(p: Params, kw: map<string, Value>): Params {
    Params(
      AsReal(NewValue(p, kw, BrightnessKey)),
      AsReal(NewValue(p, kw, ContrastKey)),
      AsReal(NewValue(p, kw, SharpnessKey)),
      AsReal(NewValue(p, kw, ColorKey)),
      NewValue(p, kw, DenoiseKey).b,
      NewValue(p, kw, BinarizeKey).b,
      NewValue(p, kw, ThresholdKey).i,
      NewValue(p, kw, DeskewKey).b,
      if NewValue(p, kw, ResizeKey).VNull? then None else Some(AsReal(NewValue(p, kw, ResizeKey))))
  }

  lemma GetUpdated(p: Params, kw: map<string, Value>, f: Field)
    ensures Get(Updated(p, kw), f) == NewValue(p, kw, f)
  {
  }

  /** `from_dict`, i.e. `EnhancementParams(**d)`: a key that is not a field name is a
      TypeError; missing fields take their defaults. */
  function FromDict(d: map<string, Value>): (r: Result<Params>)
    ensures r.Ok? <==> d.Keys <= FieldNames && forall k :: k in d ==> KeyFits(k, d[k])
    ensures !(d.Keys <= FieldNames) ==> r == Err(UnexpectedKeyword(d.Keys - FieldNames))
  {
    if !(d.Keys <= FieldNames) then Err(UnexpectedKeyword(d.Keys - FieldNames))
    else if exists k :: k in d && !KeyFits(k, d[k]) then
      Err(WrongType(set k | k in d && !KeyFits(k, d[k])))
    else Ok(Updated(Default(), d))
  }

  /** The entries of `kw` that `update_params` / `from_dict` assign, as stored. */
  function Assigned(kw: map<string, Value>): map<string, Value> {
    map k | k in kw && KeyFits(k, kw[k]) :: Stored(FieldOf(k).value, kw[k])
  }

  /** Updating a record sets exactly the fitting field entries of `kw`; unknown keys are
      ignored and every other field keeps its value. */
  lemma UpdatedFrame(p: Params, kw: map<string, Value>)
    ensures ToDict(Updated(p, kw)) == ToDict(p) + Assigned(kw)
  {
    var lhs, rhs := ToDict(Updated(p, kw)), ToDict(p) + Assigned(kw);
    assert lhs.Keys == rhs.Keys;
    forall k | k in lhs ensures lhs[k] == rhs[k] {
      var f := FieldOf(k).value;
      GetUpdated(p, kw, f);
    }
  }

  /** `from_dict(to_dict(p)) == p`. */
  lemma FromDictToDict(p: Params)
    ensures FromDict(ToDict(p)) == Ok(p)
  {
    var d := ToDict(p);
    forall k | k in d ensures KeyFits(k, d[k]) {
      assert d[KeyName(FieldOf(k).value)] == Get(p, FieldOf(k).value);
    }
    var q := Updated(Default(), d);
    forall f ensures Get(q, f) == Get(p, f) {
      GetUpdated(Default(), d, f);
    }
    ParamsByFields(q, p);
  }

  /** A dictionary of fitting field entries yields a record whose fields are those
      entries, every field it omits keeping its default. */
  lemma FromDictPartial(d: map<string, Value>)
    requires d.Keys <= FieldNames
    requires forall k :: k in d ==> KeyFits(k, d[k])
    ensures FromDict(d).Ok?
    ensures ToDict(FromDict(d).value) == ToDict(Default()) + Assigned(d)
  {
    UpdatedFrame(Default(), d);
  }

  /** A dictionary whose every key names a field with a value of that field's
      kind is a valid record. */
  lemma FromDictByFields(d: map<string, Value>)
    requires forall k :: k in d ==> exists f :: KeyName(f) == k && Fits(f, d[k])
    ensures FromDict(d).Ok?
  {
    forall k | k in d ensures k in FieldNames && KeyFits(k, d[k]) {
      var f :| KeyName(f) == k && Fits(f, d[k]);
      FieldOfKeyName(f);
    }
  }

  /** Two records with the same dictionary are the same record. */
  lemma ToDictInjective(p: Params, q: Params)
    requires ToDict(p) == ToDict(q)
    ensures p == q
  {
    FromDictToDict(p);
    FromDictToDict(q);
  }

  lemma KeyNameInjective(f: Field, g: Field)
    requires f != g
    ensures KeyName(f) != KeyName(g)
  {
    FieldOfKeyName(f);
    FieldOfKeyName(g);
  }

  /** Assigning an entry that names field `f` changes `f` and nothing else. */
  lemma {:induction false} NewValueOther(p: Params, kw: map<string, Value>, f: Field, v: Value, g: Field)
    requires KeyName(f) !in kw && g != f
    ensures NewValue(p, kw[KeyName(f) := v], g) == NewValue(p, kw, g)
  {
    KeyNameInjective(f, g);
  }

  /** One `setattr` step of `update_params` extends the set of applied entries. */
  lemma SetFieldUpdated(p: Params, kw: map<string, Value>, f: Field, v: Value)
    requires KeyName(f) !in kw
    ensures SetField(Updated(p, kw), f, v) == Updated(p, kw[KeyName(f) := v])
  {
    var kw' := kw[KeyName(f) := v];
    var a, b := SetField(Updated(p, kw), f, v), Updated(p, kw');
    forall g ensures Get(a, g) == Get(b, g) {
      GetUpdated(p, kw, g);
      GetUpdated(p, kw', g);
      if g != f {
        NewValueOther(p, kw, f, v, g);
      }
    }
    ParamsByFields(a, b);
  }

  /** A keyword that names no field leaves the record as it is. */
  lemma UnknownKeyIgnored(p: Params, kw: map<string, Value>, key: string, v: Value)
    requires key !in FieldNames
    ensures Updated(p, kw) == Updated(p, kw[key := v])
  {
    var kw' := kw[key := v];
    forall g ensures Get(Updated(p, kw), g) == Get(Updated(p, kw'), g) {
      GetUpdated(p, kw, g);
      GetUpdated(p, kw', g);
      FieldOfKeyName(g);
    }
    ParamsByFields(Updated(p, kw), Updated(p, kw'));
  }

  /** One iteration of `update_params`' loop: `setattr` when the key names a
      field, nothing otherwise, is updating with one more keyword. */
  lemma UpdateStep(p: Params, done: map<string, Value>, key: string, v: Value)
    requires key !in done
    ensures FieldOf(key).Some? ==> SetField(Updated(p, done), FieldOf(key).value, v) == Updated(p, done[key := v])
    ensures FieldOf(key).None? ==> Updated(p, done) == Updated(p, done[key := v])
  {
    if FieldOf(key).Some? {
      SetFieldUpdated(p, done, FieldOf(key).value, v);
    } else {
      UnknownKeyIgnored(p, done, key, v);
    }
  }

  // ---------------------------------------------------------------------------
  // The enhancement pipeline
  // ---------------------------------------------------------------------------

  /** One library call of `_apply_enhancements`. */
  datatype Step =
    | Resize(width: nat, height: nat)
    | Brightness(factor: real)
    | Contrast(factor: real)
    | Color(factor: real)
    | Sharpness(factor: real)
    | Denoise
    | Deskew
    | Binarize(threshold: int)

  /** The position of a step kind in the fixed order. */
  function Rank(s: Step): nat {
    match s
    case Resize(_, _) => 0
    case Brightness(_) => 1
    case Contrast(_) => 2
    case Color(_) => 3
    case Sharpness(_) => 4
    case Denoise => 5
    case Deskew => 6
    case Binarize(_) => 7
  }

  /** `int(size * factor)` for a positive factor. */
  function Scaled(size: nat, factor: real): nat
    requires factor > 0.0
  {
    var x := size as real * factor;
    assert x >= 0.0;
    x.Floor
  }

  predicate ResizeWanted(p: Params) {
    p.resizeFactor.Some? && p.resizeFactor.value > 0.0
  }

  /** The eight steps in their fixed order, each with its parameter. */
  function Candidates(p: Params, width: nat, height: nat): (c: seq<Step>)
    ensures |c| == 8
    ensures forall i :: 0 <= i < 8 ==> Rank(c[i]) == i
  {
    [ if ResizeWanted(p)
      then Resize(Scaled(width, p.resizeFactor.value), Scaled(height, p.resizeFactor.value))
      else Resize(width, height),
      Brightness(p.brightness), Contrast(p.contrast), Color(p.color), Sharpness(p.sharpness),
      Denoise, Deskew, Binarize(p.binarizeThreshold) ]
  }

  /** Whether `_apply_enhancements` performs a step: only away from its neutral value. */
  predicate Active(p: Params, s: Step) {
    match s
    case Resize(_, _) => ResizeWanted(p)
    case Brightness(_) => p.brightness != 1.0
    case Contrast(_) => p.contrast != 1.0
    case Color(_) => p.color != 1.0
    case Sharpness(_) => p.sharpness != 1.0
    case Denoise => p.denoise
    case Deskew => p.deskew
    case Binarize(_) => p.binarize
  }

  /** The active steps of `steps`, in their order. */
  function Performed(p: Params, steps: seq<Step>): seq<Step> {
    if steps == [] then []
    else Performed(p, steps[..|steps| - 1])
         + (if Active(p, steps[|steps| - 1]) then [steps[|steps| - 1]] else [])
  }

  /** The steps `_apply_enhancements` performs for an image of the given size. */
  function Plan(p: Params, width: nat, height: nat): seq<Step> {
    Performed(p, Candidates(p, width, height))
  }

  /** `_deskew_image`: returns its argument. */
  function DeskewImage(img: Image): (r: Image)
    ensures r == img
  {
    img
  }

  /** `_binarize_image`: grayscale conversion, then the threshold map. */
  function BinarizeImage(lib: Library, img: Image, threshold: int): Image {
    Threshold(lib.toGray(img), threshold)
  }

  function ApplyStep(lib: Library, img: Image, s: Step): Image {
    match s
    case Resize(w, h) => lib.resize(img, w, h)
    case Brightness(f) => lib.brightness(img, f)
    case Contrast(f) => lib.contrast(img, f)
    case Color(f) => lib.color(img, f)
    case Sharpness(f) => lib.sharpness(img, f)
    case Denoise => lib.median3(img)
    case Deskew => DeskewImage(img)
    case Binarize(t) => BinarizeImage(lib, img, t)
  }

  /** The image after performing `steps` in order. */
  function Run(lib: Library, img: Image, steps: seq<Step>): Image {
    if steps == [] then img else ApplyStep(lib, Run(lib, img, steps[..|steps| - 1]), steps[|steps| - 1])
  }

  /** What enhancing `img` with `p` produces. */
  function Enhanced(lib: Library, img: Image, p: Params): Image {
    Run(lib, img, Plan(p, img.width, img.height))
  }

  /** Filtering keeps exactly the active steps. */
  lemma {:induction false} PerformedFilters(p: Params, steps: seq<Step>)
    ensures forall s :: s in Performed(p, steps) <==> s in steps && Active(p, s)
    ensures |Performed(p, steps)| <= |steps|
  {
    if steps != [] {
      var front, last := steps[..|steps| - 1], steps[|steps| - 1];
      PerformedFilters(p, front);
      assert steps == front + [last];
    }
  }

  /** Filtering keeps the steps in their order. */
  lemma {:induction false} PerformedOrdered(p: Params, steps: seq<Step>)
    requires forall i, j :: 0 <= i < j < |steps| ==> Rank(steps[i]) < Rank(steps[j])
    ensures forall a, b :: 0 <= a < b < |Performed(p, steps)| ==>
              Rank(Performed(p, steps)[a]) < Rank(Performed(p, steps)[b])
  {
    if steps != [] {
      var front, last := steps[..|steps| - 1], steps[|steps| - 1];
      PerformedOrdered(p, front);
      if Active(p, last) {
        var pf := Performed(p, front);
        PerformedFilters(p, front);
        forall a | 0 <= a < |pf| ensures Rank(pf[a]) < Rank(last) {
          assert pf[a] in front;
          var i :| 0 <= i < |front| && front[i] == pf[a];
          assert steps[i] == front[i];
        }
      }
    }
  }

  /** The steps occur in the fixed order resize, brightness, contrast, color,
      sharpness, denoise, deskew, binarize, each at most once. */
  lemma PlanIsOrdered(p: Params, width: nat, height: nat)
    ensures forall i, j :: 0 <= i < j < |Plan(p, width, height)| ==>
              Rank(Plan(p, width, height)[i]) < Rank(Plan(p, width, height)[j])
  {
    PerformedOrdered(p, Candidates(p, width, height));
  }

  /** A step is performed exactly when its parameter is not at its neutral value,
      and then with that parameter; binarization, when performed, is the last step. */
  lemma PlanContents(p: Params, width: nat, height: nat)
    ensures forall s :: s in Plan(p, width, height) && s.Resize? ==>
              ResizeWanted(p) && s == Resize(Scaled(width, p.resizeFactor.value), Scaled(height, p.resizeFactor.value))
    ensures (exists s :: s in Plan(p, width, height) && s.Resize?) <==> ResizeWanted(p)
    ensures Brightness(p.brightness) in Plan(p, width, height) <==> p.brightness != 1.0
    ensures Contrast(p.contrast) in Plan(p, width, height) <==> p.contrast != 1.0
    ensures Color(p.color) in Plan(p, width, height) <==> p.color != 1.0
    ensures Sharpness(p.sharpness) in Plan(p, width, height) <==> p.sharpness != 1.0
    ensures Denoise in Plan(p, width, height) <==> p.denoise
    ensures Deskew in Plan(p, width, height) <==> p.deskew
    ensures Binarize(p.binarizeThreshold) in Plan(p, width, height) <==> p.binarize
    ensures forall s :: s in Plan(p, width, height) ==> s in Candidates(p, width, height)
    ensures p.binarize ==> Plan(p, width, height)[|Plan(p, width, height)| - 1] == Binarize(p.binarizeThreshold)
  {
    var c := Candidates(p, width, height);
    PerformedFilters(p, c);
    if ResizeWanted(p) {
      assert c[0] in Plan(p, width, height);
    }
    if p.binarize {
      var plan := Plan(p, width, height);
      var last := plan[|plan| - 1];
      assert c[7] in plan;
      assert last in c;
    }
  }

  /** Filtering steps none of which is active leaves nothing. */
  lemma {:induction false} PerformedNone(p: Params, steps: seq<Step>)
    requires forall s :: s in steps ==> !Active(p, s)
    ensures Performed(p, steps) == []
  {
    if steps != [] {
      var front := steps[..|steps| - 1];
      assert forall s :: s in front ==> s in steps;
      PerformedNone(p, front);
      assert steps[|steps| - 1] in steps;
    }
  }

  /** Default parameters perform no step, so the image comes back unchanged. */
  lemma DefaultChangesNothing(lib: Library, img: Image)
    ensures Plan(Default(), img.width, img.height) == []
    ensures Enhanced(lib, img, Default()) == img
  {
    var c := Candidates(Default(), img.width, img.height);
    forall s | s in c ensures !Active(Default(), s) {
      var i :| 0 <= i < |c| && c[i] == s;
    }
    PerformedNone(Default(), c);
  }

  /** Running two step lists one after the other is running their concatenation. */
  lemma {:induction false} RunConcat(lib: Library, img: Image, a: seq<Step>, b: seq<Step>)
    ensures Run(lib, img, a + b) == Run(lib, Run(lib, img, a), b)
    decreases |b|
  {
    if b == [] {
      assert a + b == a;
    } else {
      var b' := b[..|b| - 1];
      assert (a + b)[..|a + b| - 1] == a + b';
      RunConcat(lib, img, a, b');
    }
  }

  /** Performing one more step applies it to the image so far. */
  lemma RunSnoc(lib: Library, img: Image, steps: seq<Step>, s: Step)
    ensures Run(lib, img, steps + [s]) == ApplyStep(lib, Run(lib, img, steps), s)
  {
    assert (steps + [s])[..|steps + [s]| - 1] == steps;
  }

  /** Filtering one more candidate appends it exactly when it is active. */
  lemma PerformedSnoc(p: Params, c: seq<Step>, k: nat)
    requires k < |c|
    ensures Performed(p, c[..k + 1]) == Performed(p, c[..k]) + (if Active(p, c[k]) then [c[k]] else [])
  {
    assert c[..k + 1][..k] == c[..k];
  }

  /** A step other than resize keeps the size; one other than resize and binarize
      also keeps the mode. */
  lemma StepShape(lib: Library, img: Image, s: Step)
    requires WellBehaved(lib) && img.Valid() && !s.Resize?
    ensures ApplyStep(lib, img, s).Valid()
    ensures ApplyStep(lib, img, s).width == img.width && ApplyStep(lib, img, s).height == img.height
    ensures !s.Binarize? ==> ApplyStep(lib, img, s).mode == img.mode
  {
    match s
    case Brightness(f) =>
      assert SameShape(lib.brightness(img, f), img);
    case Contrast(f) =>
      assert SameShape(lib.contrast(img, f), img);
    case Color(f) =>
      assert SameShape(lib.color(img, f), img);
    case Sharpness(f) =>
      assert SameShape(lib.sharpness(img, f), img);
    case Denoise =>
      assert SameShape(lib.median3(img), img);
    case Deskew =>
    case Binarize(t) =>
      assert IsGray(lib.toGray(img));
  }

  /** Steps other than resize keep the size; steps other than resize and binarize
      also keep the mode. */
  lemma {:induction false} RunShape(lib: Library, img: Image, steps: seq<Step>)
    requires WellBehaved(lib) && img.Valid()
    requires forall s :: s in steps ==> !s.Resize?
    ensures Run(lib, img, steps).Valid()
    ensures Run(lib, img, steps).width == img.width && Run(lib, img, steps).height == img.height
    ensures (forall s :: s in steps ==> !s.Binarize?) ==> Run(lib, img, steps).mode == img.mode
    decreases |steps|
  {
    if steps != [] {
      var front, last := steps[..|steps| - 1], steps[|steps| - 1];
      assert steps == front + [last];
      RunShape(lib, img, front);
      RunSnoc(lib, img, front, last);
      StepShape(lib, Run(lib, img, front), last);
    }
  }

  /** The enhanced image has the scaled size when a positive resize factor is given
      and the original size otherwise; its mode is '1' when binarizing and the
      original mode otherwise; and when binarizing it holds only the values 0 and 255. */
  lemma EnhancedShape(lib: Library, img: Image, p: Params)
    requires WellBehaved(lib) && img.Valid()
    ensures Enhanced(lib, img, p).Valid()
    ensures ResizeWanted(p) ==>
              Enhanced(lib, img, p).width == Scaled(img.width, p.resizeFactor.value) &&
              Enhanced(lib, img, p).height == Scaled(img.height, p.resizeFactor.value)
    ensures !ResizeWanted(p) ==>
              Enhanced(lib, img, p).width == img.width && Enhanced(lib, img, p).height == img.height
    ensures Enhanced(lib, img, p).mode == if p.binarize then Bilevel else img.mode
    ensures p.binarize ==> Values(Enhanced(lib, img, p)) <= {0, 255}
  {
    PipelineIsEnhanced(lib, img, p);
    AdjustedShape(lib, img, p);
    FinishedShape(lib, Adjusted(lib, img, p), p);
  }

  lemma AdjustedShape(lib: Library, img: Image, p: Params)
    requires WellBehaved(lib) && img.Valid()
    ensures Adjusted(lib, img, p).Valid() && Adjusted(lib, img, p).mode == img.mode
    ensures ResizeWanted(p) ==>
              Adjusted(lib, img, p).width == Scaled(img.width, p.resizeFactor.value) &&
              Adjusted(lib, img, p).height == Scaled(img.height, p.resizeFactor.value)
    ensures !ResizeWanted(p) ==>
              Adjusted(lib, img, p).width == img.width && Adjusted(lib, img, p).height == img.height
  {
    var r0 := if ResizeWanted(p) then lib.resize(img, Scaled(img.width, p.resizeFactor.value), Scaled(img.height, p.resizeFactor.value)) else img;
    var r1 := if p.brightness != 1.0 then lib.brightness(r0, p.brightness) else r0;
    var r2 := if p.contrast != 1.0 then lib.contrast(r1, p.contrast) else r1;
    assert r0.Valid() && r0.mode == img.mode;
    StepShape(lib, r0, Brightness(p.brightness));
    StepShape(lib, r1, Contrast(p.contrast));
    StepShape(lib, r2, Color(p.color));
  }

  lemma FinishedShape(lib: Library, adjusted: Image, p: Params)
    requires WellBehaved(lib) && adjusted.Valid()
    ensures Finished(lib, adjusted, p).Valid()
    ensures Finished(lib, adjusted, p).width == adjusted.width && Finished(lib, adjusted, p).height == adjusted.height
    ensures Finished(lib, adjusted, p).mode == if p.binarize then Bilevel else adjusted.mode
    ensures p.binarize ==> Values(Finished(lib, adjusted, p)) <= {0, 255}
  {
    var r4 := if p.sharpness != 1.0 then lib.sharpness(adjusted, p.sharpness) else adjusted;
    var r5 := if p.denoise then lib.median3(r4) else r4;
    var r6 := if p.deskew then DeskewImage(r5) else r5;
    StepShape(lib, adjusted, Sharpness(p.sharpness));
    StepShape(lib, r4, Denoise);
    assert r6 == r5;
    if p.binarize {
      var gray := lib.toGray(r6);
      assert IsGray(gray);
      assert Finished(lib, adjusted, p) == Threshold(gray, p.binarizeThreshold);
      ThresholdIsTwoValued(gray, p.binarizeThreshold);
    } else {
      assert Finished(lib, adjusted, p) == r6;
    }
  }

  /** `result` is what performing the active steps among the first `k` candidates
      makes of `img`. */
  ghost predicate Progress(lib: Library, img: Image, p: Params, k: nat, result: Image)
    requires k <= 8
  {
    result == Run(lib, img, Performed(p, Candidates(p, img.width, img.height)[..k]))
  }

  /** Handling candidate `k` (performing it when active) extends the progress by one. */
  lemma Advance(lib: Library, img: Image, p: Params, k: nat, prev: Image, next: Image)
    requires k < 8 && Progress(lib, img, p, k, prev)
    requires next == if Active(p, Candidates(p, img.width, img.height)[k])
                     then ApplyStep(lib, prev, Candidates(p, img.width, img.height)[k]) else prev
    ensures Progress(lib, img, p, k + 1, next)
  {
    var c := Candidates(p, img.width, img.height);
    PerformedSnoc(p, c, k);
    if Active(p, c[k]) {
      RunSnoc(lib, img, Performed(p, c[..k]), c[k]);
    } else {
      assert Performed(p, c[..k + 1]) == Performed(p, c[..k]);
    }
  }

  /** The image after the first four of `_apply_enhancements`' conditional steps:
      resize, brightness, contrast, color. */
  function Adjusted(lib: Library, img: Image, p: Params): Image {
    var r0 := if ResizeWanted(p) then lib.resize(img, Scaled(img.width, p.resizeFactor.value), Scaled(img.height, p.resizeFactor.value)) else img;
    var r1 := if p.brightness != 1.0 then lib.brightness(r0, p.brightness) else r0;
    var r2 := if p.contrast != 1.0 then lib.contrast(r1, p.contrast) else r1;
    if p.color != 1.0 then lib.color(r2, p.color) else r2
  }

  /** The remaining four, applied to `adjusted`: sharpness, denoise, deskew, binarize. */
  function Finished(lib: Library, adjusted: Image, p: Params): Image {
    var r4 := if p.sharpness != 1.0 then lib.sharpness(adjusted, p.sharpness) else adjusted;
    var r5 := if p.denoise then lib.median3(r4) else r4;
    var r6 := if p.deskew then DeskewImage(r5) else r5;
    if p.binarize then BinarizeImage(lib, r6, p.binarizeThreshold) else r6
  }

  lemma AdjustedProgress(lib: Library, img: Image, p: Params)
    ensures Progress(lib, img, p, 4, Adjusted(lib, img, p))
  {
    var r0 := if ResizeWanted(p) then lib.resize(img, Scaled(img.width, p.resizeFactor.value), Scaled(img.height, p.resizeFactor.value)) else img;
    var r1 := if p.brightness != 1.0 then lib.brightness(r0, p.brightness) else r0;
    var r2 := if p.contrast != 1.0 then lib.contrast(r1, p.contrast) else r1;
    var r3 := if p.color != 1.0 then lib.color(r2, p.color) else r2;
    assert Progress(lib, img, p, 0, img);
    Advance(lib, img, p, 0, img, r0);
    Advance(lib, img, p, 1, r0, r1);
    Advance(lib, img, p, 2, r1, r2);
    Advance(lib, img, p, 3, r2, r3);
  }

  lemma FinishedProgress(lib: Library, img: Image, p: Params, adjusted: Image)
    requires Progress(lib, img, p, 4, adjusted)
    ensures Progress(lib, img, p, 8, Finished(lib, adjusted, p))
  {
    var r4 := if p.sharpness != 1.0 then lib.sharpness(adjusted, p.sharpness) else adjusted;
    var r5 := if p.denoise then lib.median3(r4) else r4;
    var r6 := if p.deskew then DeskewImage(r5) else r5;
    var r7 := if p.binarize then BinarizeImage(lib, r6, p.binarizeThreshold) else r6;
    Advance(lib, img, p, 4, adjusted, r4);
    Advance(lib, img, p, 5, r4, r5);
    Advance(lib, img, p, 6, r5, r6);
    Advance(lib, img, p, 7, r6, r7);
  }

  /** Performing the eight conditional steps one after another is running the plan. */
  lemma PipelineIsEnhanced(lib: Library, img: Image, p: Params)
    ensures Finished(lib, Adjusted(lib, img, p), p) == Enhanced(lib, img, p)
  {
    AdjustedProgress(lib, img, p);
    FinishedProgress(lib, img, p, Adjusted(lib, img, p));
    var c := Candidates(p, img.width, img.height);
    assert c[..8] == c;
  }

  /** What `enhance` is given: a path to an image file, or an image. */
  datatype Source = Path(path: string) | Picture(image: Image)

  /** The image `enhance` works on: a path must name an existing file of `disk`
      (the image files present), which is opened and converted to RGB. */
  function Load(lib: Library, disk: map<string, Image>, src: Source): (r: Result<Image>)
    ensures src.Path? ==> (r == Err(FileNotFound(src.path)) <==> src.path !in disk)
    ensures src.Path? && src.path in disk ==> r == Ok(lib.toRgb(disk[src.path]))
    ensures src.Picture? ==> r == Ok(src.image)
  {
    match src
    case Path(p) => if p in disk then Ok(lib.toRgb(disk[p])) else Err(FileNotFound(p))
    case Picture(img) => Ok(img)
  }

  /** `ImageEnhancer(params).enhance(src)`. */
  function EnhanceSource(lib: Library, disk: map<string, Image>, src: Source, p: Params): Result<Image> {
    match Load(lib, disk, src)
    case Ok(img) => Ok(Enhanced(lib, img, p))
    case Err(e) => Err(e)
  }

  class ImageEnhancer {
    var params: Params

    /** `ImageEnhancer(params)`: the given parameters, or the defaults. */
    constructor(p: Option<Params>)
      ensures params == if p.Some? then p.value else Default()
    {
      params := if p.Some? then p.value else Default();
    }

    method SetParams(p: Params)
      modifies this
      ensures params == p
    {
      params := p;
    }

    /** Assigns each keyword that names a field, in whatever order the keywords come. */
    method UpdateParams(kwargs: map<string, Value>)
      modifies this
      ensures params == Updated(old(params), kwargs)
      ensures ToDict(params) == ToDict(old(params)) + Assigned(kwargs)
    {
      var pending := kwargs.Keys;
      ghost var done: map<string, Value> := map[];
      while pending != {}
        invariant pending !! done.Keys && pending + done.Keys == kwargs.Keys
        invariant forall k :: k in done ==> done[k] == kwargs[k]
        invariant params == Updated(old(params), done)
        decreases pending
      {
        var key :| key in pending;
        var field := FieldOf(key);
        UpdateStep(old(params), done, key, kwargs[key]);
        if field.Some? {
          params := SetField(params, field.value, kwargs[key]);
        }
        done := done[key := kwargs[key]];
        pending := pending - {key};
      }
      assert done == kwargs;
      UpdatedFrame(old(params), kwargs);
    }

    /** `_apply_enhancements`: rebinds the result once per performed step. */
    method ApplyEnhancements(lib: Library, img: Image) returns (result: Image)
      ensures result == Enhanced(lib, img, params)
    {
      var p := params;
      result := img;
      if ResizeWanted(p) {
        var f := p.resizeFactor.value;
        result := lib.resize(result, Scaled(result.width, f), Scaled(result.height, f));
      }
      if p.brightness != 1.0 {
        result := lib.brightness(result, p.brightness);
      }
      if p.contrast != 1.0 {
        result := lib.contrast(result, p.contrast);
      }
      if p.color != 1.0 {
        result := lib.color(result, p.color);
      }
      if p.sharpness != 1.0 {
        result := lib.sharpness(result, p.sharpness);
      }
      if p.denoise {
        result := lib.median3(result);
      }
      if p.deskew {
        result := DeskewImage(result);
      }
      if p.binarize {
        result := BinarizeImage(lib, result, p.binarizeThreshold);
      }
      PipelineIsEnhanced(lib, img, p);
    }

    /** `enhance`: a missing file is a not-found error; otherwise the loaded image
        goes through the pipeline. */
    method Enhance(lib: Library, disk: map<string, Image>, src: Source) returns (r: Result<Image>)
      ensures src.Path? && src.path !in disk ==> r == Err(FileNotFound(src.path))
      ensures src.Path? && src.path in disk ==> r == Ok(Enhanced(lib, lib.toRgb(disk[src.path]), params))
      ensures src.Picture? ==> r == Ok(Enhanced(lib, src.image, params))
      ensures r == EnhanceSource(lib, disk, src, params)
    {
      var img: Image;
      match src {
        case Path(p) =>
          if p !in disk {
            return Err(FileNotFound(p));
          }
          img := lib.toRgb(disk[p]);
        case Picture(i) =>
          img := i;
      }
      var enhanced := ApplyEnhancements(lib, img);
      r := Ok(enhanced);
    }

    /** `compare_original_enhanced`: the loaded original and its enhancement. */
    method CompareOriginalEnhanced(lib: Library, disk: map<string, Image>, src: Source)
      returns (r: Result<(Image, Image)>)
      ensures Load(lib, disk, src).Err? ==> r == Err(Load(lib, disk, src).error)
      ensures Load(lib, disk, src).Ok? ==>
                r == Ok((Load(lib, disk, src).value, Enhanced(lib, Load(lib, disk, src).value, params)))
    {
      var original: Image;
      match src {
        case Path(p) =>
          if p !in disk {
            return Err(FileNotFound(p));
          }
          original := lib.toRgb(disk[p]);
        case Picture(i) =>
          original := i;
      }
      var enhanced := Enhance(lib, disk, Picture(original));
      r := Ok((original, enhanced.value));
    }
  }
}
