/** The four fixed enhancement presets for text and how a preset is chosen by
    its number. */
module TextPresets {
  import opened Common
  import opened Imaging
  import opened Enhancer

  /** The presets, numbered 0 to 3 in this order. */
  datatype Preset = MixedContent | TextDocument | TextOnly | Receipt

  /** The parameters each preset hands to the enhancer. Every preset removes
      noise, never binarizes, deskews or resizes, and keeps colour at or below
      its neutral value. */
  function PresetParams(pr: Preset): (p: Params)
    ensures p.denoise && !p.binarize && !p.deskew
    ensures p.resizeFactor == None && p.binarizeThreshold == 128
    ensures 1.0 <= p.brightness <= 1.1 && 1.15 <= p.contrast <= 1.4 && 1.2 <= p.sharpness <= 1.3
    ensures pr == Receipt <==> p.color == 0.0
    ensures pr != Receipt ==> 0.7 <= p.color <= 0.9
  {
    match pr
    case MixedContent => Params(1.05, 1.2, 1.3, 0.9, true, false, 128, false, None)
    case TextDocument => Params(1.05, 1.15, 1.2, 0.8, true, false, 128, false, None)
    case TextOnly => Params(1.0, 1.3, 1.2, 0.7, true, false, 128, false, None)
    case Receipt => Params(1.1, 1.4, 1.2, 0.0, true, false, 128, false, None)
  }

  /** The number of a preset. */
  function Id(pr: Preset): nat {
    match pr
    case MixedContent => 0
    case TextDocument => 1
    case TextOnly => 2
    case Receipt => 3
  }

  /** The preset with a given number, if there is one. */
  function PresetOf(id: int): (r: Option<Preset>)
    ensures r.Some? <==> 0 <= id <= 3
    ensures r.Some? ==> Id(r.value) == id
  {
    if id == 0 then Some(MixedContent)
    else if id == 1 then Some(TextDocument)
    else if id == 2 then Some(TextOnly)
    else if id == 3 then Some(Receipt)
    else None
  }

  /** The display name of a preset. */
  function Name(pr: Preset): string {
    match pr
    case MixedContent => "Mixed Content with Text Enhancement"
    case TextDocument => "Document Text Enhancement"
    case TextOnly => "Pure Text Enhancement"
    case Receipt => "Receipt Text Enhancement"
  }

  /** `get_preset_name(preset_id)`: the name of the numbered preset, or
      "Unknown Preset" for any other number. */
  function PresetName(id: int): (r: string)
    ensures 0 <= id <= 3 ==> exists pr :: Id(pr) == id && r == Name(pr)
    ensures !(0 <= id <= 3) ==> r == "Unknown Preset"
  {
    match PresetOf(id)
    case Some(pr) => Name(pr)
    case None => "Unknown Preset"
  }

  /** A preset's number leads back to it. */
  lemma PresetOfId(pr: Preset)
    ensures PresetOf(Id(pr)) == Some(pr)
  {
  }

  /** Different presets have different names, and none is called "Unknown Preset". */
  lemma NamesDistinct(a: Preset, b: Preset)
    requires a != b
    ensures Name(a) != Name(b) && Name(a) != "Unknown Preset"
  {
    assert Name(a)[0] != Name(b)[0];
    assert Name(a)[0] != 'U';
  }

  /** So the name tells which preset, if any, a number selects. */
  lemma PresetNamesDistinct(i: int, j: int)
    requires i != j
    requires 0 <= i <= 3
    ensures PresetName(i) != PresetName(j)
  {
    var a := PresetOf(i).value;
    if 0 <= j <= 3 {
      NamesDistinct(a, PresetOf(j).value);
    } else {
      NamesDistinct(a, if a == MixedContent then Receipt else MixedContent);
    }
  }

  /** `mixed_content_text_enhance`, `text_document_enhance`, `text_only_enhance`
      and `receipt_enhance`: enhance an image or an image file with the
      preset's parameters. */
  function PresetEnhance(lib: Library, disk: map<string, Image>, src: Source, pr: Preset): (r: Result<Image>)
    ensures Load(lib, disk, src).Err? ==> r == Err(Load(lib, disk, src).error)
    ensures Load(lib, disk, src).Ok? ==> r == Ok(Enhanced(lib, Load(lib, disk, src).value, PresetParams(pr)))
  {
    EnhanceSource(lib, disk, src, PresetParams(pr))
  }

  /** The preset `enhance_with_preset` uses: the numbered one, falling back to
      mixed content for an unknown number. */
  function Selected(id: int): (pr: Preset)
    ensures 0 <= id <= 3 ==> Id(pr) == id
    ensures !(0 <= id <= 3) ==> pr == MixedContent
  {
    match PresetOf(id)
    case Some(pr) => pr
    case None => MixedContent
  }

  /** `enhance_with_preset(image, preset_id)`. */
  function EnhanceWithPreset(lib: Library, disk: map<string, Image>, src: Source, id: int): (r: Result<Image>)
    ensures 0 <= id <= 3 ==> r == PresetEnhance(lib, disk, src, PresetOf(id).value)
    ensures !(0 <= id <= 3) ==> r == PresetEnhance(lib, disk, src, MixedContent)
  {
    PresetEnhance(lib, disk, src, Selected(id))
  }

  /** A preset's plan: only the multipliers that differ from 1.0, and denoising;
      never a resize, deskew or binarization. */
  lemma PresetPlan(pr: Preset, width: nat, height: nat)
    ensures Denoise in Plan(PresetParams(pr), width, height)
    ensures Deskew !in Plan(PresetParams(pr), width, height)
    ensures Binarize(128) !in Plan(PresetParams(pr), width, height)
    ensures forall s :: s in Plan(PresetParams(pr), width, height) ==> !s.Resize? && !s.Binarize? && !s.Deskew?
    ensures Color(PresetParams(pr).color) in Plan(PresetParams(pr), width, height)
    ensures Contrast(PresetParams(pr).contrast) in Plan(PresetParams(pr), width, height)
    ensures Sharpness(PresetParams(pr).sharpness) in Plan(PresetParams(pr), width, height)
    ensures Brightness(PresetParams(pr).brightness) in Plan(PresetParams(pr), width, height) <==> pr != TextOnly
  {
    var p := PresetParams(pr);
    PlanContents(p, width, height);
    forall s | s in Plan(p, width, height) ensures !s.Resize? && !s.Binarize? && !s.Deskew? {
      assert s in Candidates(p, width, height);
    }
  }

  /** A preset keeps the size of the image it is given and, since it never
      binarizes, its mode. */
  lemma PresetKeepsShape(lib: Library, disk: map<string, Image>, src: Source, id: int)
    requires WellBehaved(lib)
    requires Load(lib, disk, src).Ok? && Load(lib, disk, src).value.Valid()
    ensures EnhanceWithPreset(lib, disk, src, id).Ok?
    ensures var img := Load(lib, disk, src).value;
            var out := EnhanceWithPreset(lib, disk, src, id).value;
            out.Valid() && out.width == img.width && out.height == img.height && out.mode == img.mode
  {
    var img := Load(lib, disk, src).value;
    EnhancedShape(lib, img, PresetParams(Selected(id)));
  }
}
