/** The OCR engine front end: which engine call an output format asks for. The
    engine itself is not modelled; a call is described by the request it makes. */
module OcrEngine {
  import opened Common
  import opened Imaging

  /** A request to the OCR engine: which entry point, on which image, with
      which language, extension and configuration string. */
  datatype EngineCall =
    | ImageToString(image: Image, lang: string, config: string)
    | ImageToPdfOrHocr(image: Image, lang: string, extension: string, config: string)
    | ImageToData(image: Image, lang: string, config: string)
    | ImageToAltoXml(image: Image, lang: string, config: string)

  /** The output formats the engine accepts, in lower case. */
  const Formats: seq<string> := ["text", "hocr", "pdf", "tsv", "alto", "page"]

  /** `_extract_text(image, lang, output_format, config)`: the lower-cased
      format picks the entry point; "page" is plain text with the page output
      format appended to the configuration; any other format is an error that
      names the format as given. */
  function ExtractText(image: Image, lang: string, outputFormat: string, config: string): (r: Result<EngineCall>)
    ensures r.Ok? <==> Lower(outputFormat) in Formats
    ensures r.Err? ==> r.error == UnsupportedFormat(outputFormat)
    ensures r.Ok? ==> r.value.image == image && r.value.lang == lang
    ensures r.Ok? && r.value.ImageToPdfOrHocr? ==> r.value.extension == Lower(outputFormat)
    ensures r.Ok? ==> (r.value.ImageToString? <==> Lower(outputFormat) == "text" || Lower(outputFormat) == "page")
    ensures r.Ok? ==> (r.value.ImageToPdfOrHocr? <==> Lower(outputFormat) == "hocr" || Lower(outputFormat) == "pdf")
    ensures r.Ok? ==> (r.value.ImageToData? <==> Lower(outputFormat) == "tsv")
    ensures r.Ok? ==> (r.value.ImageToAltoXml? <==> Lower(outputFormat) == "alto")
  {
    var f := Lower(outputFormat);
    if f == "text" then Ok(ImageToString(image, lang, config))
    else if f == "hocr" then Ok(ImageToPdfOrHocr(image, lang, "hocr", config))
    else if f == "pdf" then Ok(ImageToPdfOrHocr(image, lang, "pdf", config))
    else if f == "tsv" then Ok(ImageToData(image, lang, config))
    else if f == "alto" then Ok(ImageToAltoXml(image, lang, config))
    else if f == "page" then Ok(ImageToString(image, lang, config + " outputformat page"))
    else Err(UnsupportedFormat(outputFormat))
  }

  /** The format name is matched without regard to case: a format and its
      lower-case form ask for the same call. */
  lemma ExtractIgnoresCase(image: Image, lang: string, outputFormat: string, config: string)
    ensures ExtractText(image, lang, Lower(outputFormat), config).Ok? == ExtractText(image, lang, outputFormat, config).Ok?
    ensures ExtractText(image, lang, outputFormat, config).Ok? ==>
              ExtractText(image, lang, Lower(outputFormat), config) == ExtractText(image, lang, outputFormat, config)
  {
    LowerIdempotent(outputFormat);
  }

  /** Different formats ask for different calls, so the call made tells which
      format was requested. */
  lemma ExtractDistinguishesFormats(image: Image, lang: string, f: string, g: string, config: string)
    requires ExtractText(image, lang, f, config).Ok? && ExtractText(image, lang, g, config).Ok?
    requires Lower(f) != Lower(g)
    ensures ExtractText(image, lang, f, config).value != ExtractText(image, lang, g, config).value
  {
    var a := ExtractText(image, lang, f, config).value;
    var b := ExtractText(image, lang, g, config).value;
    if a.ImageToString? && b.ImageToString? {
      assert |a.config| != |b.config|;
    }
  }

  /** The text format passes the caller's configuration unchanged, and the
      page format extends it. */
  lemma ExtractConfig(image: Image, lang: string, outputFormat: string, config: string)
    requires ExtractText(image, lang, outputFormat, config).Ok?
    ensures var call := ExtractText(image, lang, outputFormat, config).value;
            (Lower(outputFormat) == "page") == (call.config != config)
    ensures StartsWith(ExtractText(image, lang, outputFormat, config).value.config, config)
    ensures var call := ExtractText(image, lang, outputFormat, config).value;
            (Lower(outputFormat) == "page" ==> call.config == config + " outputformat page") &&
            (Lower(outputFormat) != "page" ==> call.config == config)
  {
    var call := ExtractText(image, lang, outputFormat, config).value;
    assert call.config[..|config|] == config;
  }

  /** `process_image(image_path, lang, output_format, config)` over the image
      files present in `disk`: a missing file is an error before the format is
      looked at; otherwise the opened image goes to `_extract_text`. */
  function ProcessImage(disk: map<string, Image>, imagePath: string, lang: string := "eng",
                        outputFormat: string := "text", config: string := ""): (r: Result<EngineCall>)
    ensures imagePath !in disk ==> r == Err(FileNotFound(imagePath))
    ensures imagePath in disk ==> r == ExtractText(disk[imagePath], lang, outputFormat, config)
  {
    if imagePath !in disk then Err(FileNotFound(imagePath))
    else ExtractText(disk[imagePath], lang, outputFormat, config)
  }

  /** `process_pil_image(image, lang, output_format, config)`. */
  function ProcessPilImage(image: Image, lang: string := "eng", outputFormat: string := "text",
                           config: string := ""): (r: Result<EngineCall>)
    ensures r == ExtractText(image, lang, outputFormat, config)
  {
    ExtractText(image, lang, outputFormat, config)
  }

  /** With the defaults, an existing file is read as plain text in English
      with an empty configuration. */
  lemma ProcessImageDefaults(disk: map<string, Image>, imagePath: string)
    requires imagePath in disk
    ensures ProcessImage(disk, imagePath) == Ok(ImageToString(disk[imagePath], "eng", ""))
    ensures ProcessPilImage(disk[imagePath]) == ProcessImage(disk, imagePath)
  {
    assert Lower("text") == "text";
  }
}
