# PyOCR image-enhancement and file-handling core in Dafny

This project models the logic underneath PyOCR, a desktop front end for Tesseract OCR:

- the enhancement parameter record (`EnhancementParams`) and its dictionary form;
- the `ImageEnhancer` and its fixed-order pipeline: resize, brightness, contrast, color, sharpness, median denoise, deskew and binarize;
- the automatic-enhancement heuristic: the noise estimate, the metric-to-parameter rules and the preview-grid geometry;
- the four text presets;
- parameter persistence and the comparison-image layout;
- the command-line tool's input and output path handling;
- the OCR engine's output-format dispatch;
- the file-system handler: the recent-files list, file-type validation, and what the open, save and directory dialogs do with their answers.

Images are values: a mode, a width, a height and a grid of samples. The imaging library's filters (resize, the four enhancers, the median filter, and the grayscale and RGB conversions) are fields of a `Library` record. They are constrained only by `WellBehaved`, which says each filter keeps or sets the size and mode as documented. Files on disk, dialog answers and "is this a file or a directory" are parameters of the operations. Floating-point values are `real`, and Python's `int()` on non-negative values is `Floor`.

Modules, one per source file plus shared vocabulary:

- `Common` (common.dfy): `Option`, `Result`, the raised errors, and the ASCII `str.lower`, `endswith`, `split` and `replace` operations.
- `Paths` (paths.dfy): `os.path.join`, `dirname`, `basename` and `splitext`, and `Path.parent` and `Path.suffix`.
- `Imaging` (imaging.dfy): the image value, the library record, and the threshold map.
- `Enhancer` (enhancer.dfy): src/img_enhance/enhancer.py.
- `AutoEnhance` (auto_enhance.dfy): src/img_enhance/auto_enhance.py.
- `TextPresets` (text_presets.dfy): src/img_enhance/text_presets.py.
- `Utils` (utils.dfy): src/img_enhance/utils.py.
- `Cli` (cli.dfy): src/img_enhance/cli.py.
- `OcrEngine` (ocr_engine.dfy): src/ocrMod/ocr_engine.py.
- `FileHandler` (file_handler.dfy): src/filsys/file_handler.py.

## Model

| member | source | states |
|---|---|---|
| Enhancer.Default | src/img_enhance/enhancer.py:10-18 | The default record has every multiplier at 1.0, every flag off, threshold 128 and no resize factor. |
| Enhancer.FieldOf | src/img_enhance/enhancer.py:20-32 | A key names a field exactly when it is one of the nine field names, and the field found carries that name. |
| Enhancer.FieldOfKeyName | src/img_enhance/enhancer.py:20-32 | Every field's name is a key, and looking it up finds that field. |
| Enhancer.Get | src/img_enhance/enhancer.py:20-32 | A field read from a record always has the kind its field stores. |
| Enhancer.SetField | src/img_enhance/enhancer.py:51-55 | `setattr` of one field changes that field when the value fits and no other field. |
| Enhancer.ParamsByFields | src/img_enhance/enhancer.py:7-18 | Two records that agree on every field are equal. |
| Enhancer.ToDict | src/img_enhance/enhancer.py:20-32 | `to_dict` has exactly the nine field names as keys, and each maps to that field's value. |
| Enhancer.FromDict | src/img_enhance/enhancer.py:34-37 | `from_dict` succeeds exactly when every key is a field name holding a value of the field's kind. Unknown keys raise a TypeError; the model's error carries the set of unknown keys. |
| Enhancer.FromDictToDict | src/img_enhance/enhancer.py:20-37 | `from_dict(to_dict(p)) == p` for every record. |
| Enhancer.FromDictPartial | src/img_enhance/enhancer.py:34-37 | A dictionary holding some of the fields yields a record with those fields set and every other field at its default. |
| Enhancer.ToDictInjective | src/img_enhance/enhancer.py:20-32 | Distinct records have distinct dictionaries. |
| Enhancer.UpdatedFrame | src/img_enhance/enhancer.py:51-55 | Updating a record changes exactly the assigned field entries of the keywords. All other entries of its dictionary are unchanged. |
| Enhancer.GetUpdated | src/img_enhance/enhancer.py:51-55 | Each field of an updated record is the fitting keyword value if one is given, else the old value. |
| Enhancer.KeyNameInjective | src/img_enhance/enhancer.py:20-32 | Distinct fields have distinct names. |
| Enhancer.NewValueOther | src/img_enhance/enhancer.py:53-55 | Assigning one keyword leaves every other field's new value as it was. |
| Enhancer.SetFieldUpdated | src/img_enhance/enhancer.py:53-55 | One more iteration of the keyword loop on a field equals updating with one more keyword. |
| Enhancer.UpdateStep | src/img_enhance/enhancer.py:53-55 | One iteration of the keyword loop adds one keyword to the update. `setattr` applies when the key names a field, and otherwise nothing changes. |
| Enhancer.FromDictByFields | src/img_enhance/enhancer.py:34-37 | A dictionary whose keys all name fields holding values of their kind is accepted by `from_dict`. |
| Enhancer.UnknownKeyIgnored | src/img_enhance/enhancer.py:53-54 | A keyword that names none of the nine fields changes nothing. |
| Enhancer.Candidates | src/img_enhance/enhancer.py:83-116 | The eight steps come in the fixed order resize, brightness, contrast, color, sharpness, denoise, deskew, binarize. |
| Enhancer.PerformedFilters | src/img_enhance/enhancer.py:83-116 | Skipping inactive steps keeps exactly the active ones, and never adds a step. |
| Enhancer.PerformedOrdered | src/img_enhance/enhancer.py:83-116 | Skipping inactive steps keeps the remaining steps in their order. |
| Enhancer.PerformedNone | src/img_enhance/enhancer.py:83-116 | When no step is active, none is performed. |
| Enhancer.PlanIsOrdered | src/img_enhance/enhancer.py:83-116 | The steps performed come in strictly increasing pipeline order. |
| Enhancer.PlanContents | src/img_enhance/enhancer.py:86-114 | Resize is performed iff the factor is present and positive, to (floor(w·f), floor(h·f)). Each multiplier step is performed iff its value differs from 1.0. Denoise, deskew and binarize are performed iff their flag is set. Binarize comes last. |
| Enhancer.DefaultChangesNothing | src/img_enhance/enhancer.py:83-116 | With the default record no step runs and the image is returned as it is. |
| Enhancer.DeskewImage | src/img_enhance/enhancer.py:126-133 | Deskewing is the identity. |
| Enhancer.RunConcat | src/img_enhance/enhancer.py:83-116 | Running two step lists one after the other equals running their concatenation. |
| Enhancer.RunSnoc | src/img_enhance/enhancer.py:83-116 | Running one more step applies it to the previous result. |
| Enhancer.PerformedSnoc | src/img_enhance/enhancer.py:83-116 | Deciding one more candidate appends it exactly when it is active. |
| Enhancer.StepShape | src/img_enhance/enhancer.py:92-114 | Every step other than resize keeps the size. Every step other than binarize keeps the mode. |
| Enhancer.RunShape | src/img_enhance/enhancer.py:83-116 | A run without resize keeps the size, and also keeps the mode when it does not binarize. |
| Enhancer.AdjustedShape | src/img_enhance/enhancer.py:86-99 | After the first four steps, the size is the scaled size when resizing and the original size otherwise. The mode is kept. |
| Enhancer.FinishedShape | src/img_enhance/enhancer.py:101-124 | The last four steps keep the size. They produce a bilevel image whose samples are 0 or 255 exactly when binarizing. |
| Enhancer.EnhancedShape | src/img_enhance/enhancer.py:83-124 | The enhanced image is valid. Its size is the scaled size iff resizing and the input size otherwise. Its mode is bilevel iff binarizing, with samples in {0, 255}. |
| Enhancer.Advance | src/img_enhance/enhancer.py:83-116 | Each conditional rebinding of `result` performs exactly the next candidate step when it is active. |
| Enhancer.AdjustedProgress | src/img_enhance/enhancer.py:86-99 | The first four conditionals perform the first four active steps. |
| Enhancer.FinishedProgress | src/img_enhance/enhancer.py:101-114 | The last four conditionals perform the remaining active steps. |
| Enhancer.PipelineIsEnhanced | src/img_enhance/enhancer.py:83-116 | The two halves of the pipeline together give the enhanced image. |
| Enhancer.Load | src/img_enhance/enhancer.py:68-73 | A missing path is a not-found error. An existing file is opened and converted to RGB (`toRgb` of the file's image). A given image is used as it is. |
| Enhancer.ImageEnhancer.constructor | src/img_enhance/enhancer.py:43-45 | A new enhancer holds the given record, or the defaults. |
| Enhancer.ImageEnhancer.SetParams | src/img_enhance/enhancer.py:47-49 | The record is replaced. |
| Enhancer.ImageEnhancer.UpdateParams | src/img_enhance/enhancer.py:51-55 | The new record is the old one with exactly the fitting, known keywords assigned, whatever their order. |
| Enhancer.ImageEnhancer.ApplyEnhancements | src/img_enhance/enhancer.py:80-116 | The conditional steps compute the enhanced image of the specification. |
| Enhancer.ImageEnhancer.Enhance | src/img_enhance/enhancer.py:57-78 | A missing file is a not-found error. Otherwise the loaded RGB image, or the given image, is enhanced with the current record. |
| Enhancer.ImageEnhancer.CompareOriginalEnhanced | src/img_enhance/enhancer.py:170-190 | The result is the loaded original and its enhancement, or the loading error. |
| Imaging.ThresholdRow | src/img_enhance/enhancer.py:124 | Each sample becomes 0 iff below the threshold and 255 iff not. |
| Imaging.Threshold | src/img_enhance/enhancer.py:118-124 | Binarization gives a bilevel image of the same size, mapping each sample to 0 below the threshold and to 255 otherwise. |
| Imaging.ThresholdIsTwoValued | src/img_enhance/enhancer.py:118-124 | A binarized image holds at most two distinct values, 0 and 255. |
| AutoEnhance.SampleDiff | src/img_enhance/auto_enhance.py:86 | The exact difference is the absolute difference. The 8-bit difference is the true difference modulo 256. |
| AutoEnhance.MeanDiff | src/img_enhance/auto_enhance.py:84-86 | The mean diagonal difference over the cropped centre is non-negative. |
| AutoEnhance.EstimateNoise | src/img_enhance/auto_enhance.py:66-89 | The estimate lies in [0, 1], and is 0.1 for images with a side of at most 11 (corrected, see Findings). |
| AutoEnhance.EstimateNoiseAsWritten | src/img_enhance/auto_enhance.py:81-89 | As written, the estimate is 0.1 when a side is at most 10. It is NaN exactly when the guard passes with a side of 11. Otherwise it lies in [0, 1]. |
| AutoEnhance.Invert | src/img_enhance/auto_enhance.py:86 | The negative of an image keeps its size, mode and validity. |
| AutoEnhance.NoiseInvariantUnderInversion | src/img_enhance/auto_enhance.py:81-89 | The corrected noise estimate (see Findings) of an image and of its negative agree. |
| AutoEnhance.InversionChangesNoiseAsWritten | src/img_enhance/auto_enhance.py:86-87 | As written, the speck image reports noise 1.0 while its negative reports 5/255, so the estimate depends on inversion. |
| AutoEnhance.UniformImageHasNoNoise | src/img_enhance/auto_enhance.py:81-89 | A uniform image larger than 11 by 11 has noise 0. |
| AutoEnhance.SpeckNoise | src/img_enhance/auto_enhance.py:86-87 | On a 12 by 12 black image with one sample of level 1, the 8-bit subtraction reports noise 1.0, while the true estimate is 5/255. |
| AutoEnhance.ElevenSquareIsNaN | src/img_enhance/auto_enhance.py:82-86 | An 11 by 11 image passes the guard and its estimate is NaN as written. |
| AutoEnhance.AnalyzeImage | src/img_enhance/auto_enhance.py:7-64 | A missing file is a not-found error. A given picture that is not RGB is a ValueError, since its one channel mean is unpacked into three names. Otherwise the metrics are produced, with `might_be_skewed` false. The noise level is the as-written estimate of the grayscale conversion: NaN exactly when the image passes the size guard with a side of 11, and in [0, 1] otherwise. |
| AutoEnhance.BrightnessRule | src/img_enhance/auto_enhance.py:104-109 | Brightness below 0.3 gives a value in (1, 1.5]. Above 0.7 it gives a value in [0.7, 1). The value is 1.0 iff the brightness is in [0.3, 0.7]. |
| AutoEnhance.ContrastRule | src/img_enhance/auto_enhance.py:112-117 | Contrast below 0.15 gives a value in (1, 1.8]. From 0.15 to below 0.25 it gives 1.1. The value is 1.0 iff the contrast is at least 0.25. |
| AutoEnhance.SharpnessRule | src/img_enhance/auto_enhance.py:120-125 | The sharpness value is always in [1, 2], is in (1, 1.5] for a measure in [0.1, 0.2), and is 1.0 iff the measure is at least 0.2. |
| AutoEnhance.ColorRule | src/img_enhance/auto_enhance.py:128-129 | Saturation below 0.1 gives a value in (1, 1.5]. Otherwise the value is 1.0. |
| AutoEnhance.ThresholdRule | src/img_enhance/auto_enhance.py:148-152 | `int(120 + 50b)` for b in (0.4, 0.7) is its floor and lies in 140..154. |
| AutoEnhance.OptimalParamsBounds | src/img_enhance/auto_enhance.py:101-154 | The rules never resize. Denoise, deskew and binarize are chosen iff their conditions hold. The threshold is in 140..154 when binarizing and 128 otherwise. Every multiplier stays within its cap. |
| AutoEnhance.DetermineOptimalParams | src/img_enhance/auto_enhance.py:91-154 | The in-place rule updates give `OptimalParams`:<br>• denoise iff noise > 0.3 (never for NaN);<br>• deskew iff skewed;<br>• binarize iff the contrast, saturation, channel-balance and brightness conditions all hold, with a threshold in 140..154 (128 otherwise);<br>• no resize;<br>• every multiplier within its caps. |
| AutoEnhance.AutoEnhancedShape | src/img_enhance/auto_enhance.py:156-183 | Automatically chosen parameters keep the image size, and change the mode only by binarizing. |
| AutoEnhance.Columns | src/img_enhance/auto_enhance.py:252 | `min(3, n)` columns are between 1 and 3, never more than the images, and exactly 3 from three images on. |
| AutoEnhance.Rows | src/img_enhance/auto_enhance.py:253 | `(n + cols - 1) // cols` is the least row count whose cells hold all images. |
| AutoEnhance.CornersPlaced | src/img_enhance/auto_enhance.py:249-285 | Every variation's 300-pixel cell lies inside the canvas. No two variations share a corner, and none sits on the original's corner (0, 0). |
| AutoEnhance.CellInside | src/img_enhance/auto_enhance.py:281-282 | Cell k of a grid with enough rows lies inside the canvas. |
| AutoEnhance.CellsDistinct | src/img_enhance/auto_enhance.py:281-282 | Distinct cell numbers have distinct corners. |
| AutoEnhance.PreviewGrid | src/img_enhance/auto_enhance.py:217-287 | A load error is returned as is. The first variation that is not a valid record ends the call with its error. Otherwise the canvas is cols·300 by rows·300, and variation i sits at cell i + 1 with its decoded record. The built-in variations are used when none are given. |
| AutoEnhance.DefaultVariationsDecode | src/img_enhance/auto_enhance.py:238-253 | The six built-in variations are valid records, and with them the grid is 3 by 3. |
| TextPresets.PresetParams | src/img_enhance/text_presets.py:16-99 | Every preset denoises, and none binarizes, deskews or resizes. Receipt color is 0.0 and the others' color is in [0.7, 0.9]. The multipliers are within the stated ranges. |
| TextPresets.PresetOf | src/img_enhance/text_presets.py:107-113 | Ids 0..3, and only those, name a preset, and the preset found carries that id. |
| TextPresets.PresetName | src/img_enhance/text_presets.py:105-113 | Ids 0..3 give the names of their presets. Every other id gives "Unknown Preset". |
| TextPresets.PresetOfId | src/img_enhance/text_presets.py:107-113 | Every preset's id finds it. |
| TextPresets.NamesDistinct | src/img_enhance/text_presets.py:107-113 | The four names are distinct and differ from "Unknown Preset". |
| TextPresets.PresetNamesDistinct | src/img_enhance/text_presets.py:105-113 | A known id's name differs from every other id's name, so the name tells the preset. |
| TextPresets.PresetEnhance | src/img_enhance/text_presets.py:5-103 | Each preset function enhances the loaded image with its preset, or returns the loading error. |
| TextPresets.Selected | src/img_enhance/text_presets.py:126-137 | Ids 0..3 select their preset. Every other id selects mixed content. |
| TextPresets.EnhanceWithPreset | src/img_enhance/text_presets.py:115-137 | `enhance_with_preset` uses preset k for k in 0..3 and the mixed-content preset for any other id. |
| TextPresets.PresetPlan | src/img_enhance/text_presets.py:16-99 | A preset performs denoise, color, contrast and sharpness, and brightness unless it is the pure-text preset. It never performs resize, deskew or binarize. |
| TextPresets.PresetKeepsShape | src/img_enhance/text_presets.py:115-137 | A preset's output keeps the size and mode of its input. |
| Utils.SaveParams | src/img_enhance/utils.py:9-25 | Saving writes the record's dictionary to its path and leaves every other file as it was. |
| Utils.LoadParams | src/img_enhance/utils.py:27-42 | A missing file is a not-found error. Otherwise the stored object goes through `from_dict`. |
| Utils.SaveThenLoad | src/img_enhance/utils.py:9-42 | Loading a saved record reproduces every field. |
| Utils.SaveKeepsOthers | src/img_enhance/utils.py:9-42 | Saving to one path does not change what another path loads. |
| Utils.LoadFillsDefaults | src/img_enhance/utils.py:38-42 | Loading an object with missing keys gives the defaults for them. |
| Utils.SupportedFormats | src/img_enhance/utils.py:240-247 | There are seven distinct extensions, each a dot followed by lower-case letters. |
| Utils.SupportedFormatsLower | src/img_enhance/utils.py:240-247 | A supported extension is its own lower-case form. |
| Utils.ParamText | src/img_enhance/utils.py:109-125 | The conditional appends give the record's parameter text (`IsParamText`): six base lines in order, the threshold line (at index 6) iff binarizing, the deskew line iff deskewing, and the resize line (last) iff a factor is set. The count is 6 plus one per such line. |
| Utils.CommonSize | src/img_enhance/utils.py:60-66 | Differing sizes are both cut to the smaller width and the smaller height. Equal sizes are kept. |
| Utils.ParamsHeight | src/img_enhance/utils.py:71 | The corrected parameter area is one 20-pixel line per line, which equals the written 120 for the six base lines (see Findings). |
| Utils.ParamLinesOverflowAsWritten | src/img_enhance/utils.py:71-129 | As written, a record with binarize, deskew and a resize factor has nine lines, and the last two start below the canvas. |
| Utils.ParamLinesFit | src/img_enhance/utils.py:107-129 | With the corrected height, every parameter line lies inside the canvas. |
| Utils.ComparisonLayout | src/img_enhance/utils.py:44-131 | The layout has the following properties:<br>• both images are shown at the common size, side by side, apart, and inside a canvas of width 2w + 60;<br>• the height is h + 80, plus 120 when a record is given, whatever its number of lines;<br>• with a record, the lines are its parameter text, as `ParamText` gives it; without one there are none;<br>• the parameter lines are stacked below the images, 20 pixels apart;<br>• a line lies inside the canvas iff it is one of the first six. |
| Cli.Names | src/img_enhance/cli.py:109 | `os.listdir` lists every entry's name, in order. |
| Cli.FileNames | src/img_enhance/cli.py:102-103 | A walked directory's files are exactly its file entries. |
| Cli.Walk | src/img_enhance/cli.py:102 | `os.walk` starts with the root and its files. |
| Cli.WalkSubdirsVisits | src/img_enhance/cli.py:102 | Walking a directory's entries visits each subdirectory at its joined path, with its file names. |
| Cli.WalkVisits | src/img_enhance/cli.py:102 | `os.walk` visits every subdirectory of the root at the root joined with its name, listing that subdirectory's files. |
| Cli.ImageNameIgnoresCase | src/img_enhance/cli.py:91-92 | The extension test ignores case. |
| Cli.ImagesInMembers | src/img_enhance/cli.py:109-112 | A path is listed iff it joins the directory to an entry name with a supported extension. The list is never longer than the listing. |
| Cli.ImagesInWalkMembers | src/img_enhance/cli.py:102-106 | A path is listed recursively iff it joins a walked directory to one of its image files. |
| Cli.ImagesInWalkAppend | src/img_enhance/cli.py:102-106 | Listing a walk distributes over concatenation. |
| Cli.RecursiveStartsWithTopLevel | src/img_enhance/cli.py:100-106 | A recursive listing starts with the images among the input directory's own files. |
| Cli.GetImagePaths | src/img_enhance/cli.py:76-116 | The result depends on what the path names:<br>• a file gives `[path]` iff its lower-cased extension is supported, else `[]`;<br>• a directory gives its image entries (non-recursive) or the image files of every walked directory (recursive);<br>• anything else is a not-found error. |
| Cli.ImagesInListing | src/img_enhance/cli.py:109-112 | The loop over one directory's names collects exactly the image names, joined to the directory, in order. The same loop runs over each walked directory's files. |
| Cli.ImagesInTree | src/img_enhance/cli.py:100-106 | The walk loops collect exactly the image files of every walked directory, in walk order. |
| Cli.SuffixedName | src/img_enhance/cli.py:134-135 | The new file name keeps the input's extension. |
| Cli.GetOutputPath | src/img_enhance/cli.py:118-143 | A plain output file path is returned unchanged. Otherwise the result starts with the input's directory or the output directory, and ends with the suffixed name. |
| Cli.JoinStartsWith | src/img_enhance/cli.py:135-140 | Joining keeps the directory in front unless the name is absolute. |
| Cli.BasenameJoin | src/img_enhance/cli.py:135-140 | The last component of a join is the joined single-component name. |
| Cli.OutputNameHasSuffix | src/img_enhance/cli.py:130-140 | The output file name is the input's base, then the suffix, then the input's extension. Taking the suffix out gives the input's name back. |
| Cli.DefaultSuffix | src/img_enhance/cli.py:118 | The suffix defaults to "_enhanced". |
| OcrEngine.ExtractText | src/ocrMod/ocr_engine.py:78-110 | Dispatch succeeds iff the lower-cased format is one of text, hocr, pdf, tsv, alto or page, and otherwise raises an unsupported-format error naming the format. A successful call uses the given image and language. text and page call the plain-string entry point, hocr and pdf the pdf-or-hocr one (with their own name as the extension), tsv the data one and alto the ALTO one. |
| OcrEngine.ExtractIgnoresCase | src/ocrMod/ocr_engine.py:95-105 | Format matching is case-insensitive. |
| OcrEngine.ExtractDistinguishesFormats | src/ocrMod/ocr_engine.py:95-108 | Different formats request different engine calls. |
| OcrEngine.ExtractConfig | src/ocrMod/ocr_engine.py:95-108 | Every call keeps the caller's configuration as a prefix. "page" passes the configuration followed by " outputformat page", and every other format passes it unchanged. |
| OcrEngine.ProcessImage | src/ocrMod/ocr_engine.py:27-54 | A missing path is a not-found error before any image is opened or any format checked. Otherwise the opened image is dispatched. |
| OcrEngine.ProcessPilImage | src/ocrMod/ocr_engine.py:56-76 | An image is dispatched directly. |
| OcrEngine.ProcessImageDefaults | src/ocrMod/ocr_engine.py:27-31 | With the defaults, an existing file is read as plain text in English with an empty configuration. |
| FileHandler.FormatOf | src/filsys/file_handler.py:28-47 | A name is a key of both format tables iff it is one of the seven format names, and the format found carries that name. |
| FileHandler.FormatOfDisplayName | src/filsys/file_handler.py:28-47 | Every format's name finds that format. |
| FileHandler.ImagePatternsExtensions | src/filsys/file_handler.py:21-25 | The extensions the image patterns list are exactly .png, .jpg, .jpeg, .tif and .tiff. |
| FileHandler.IndexOf | src/filsys/file_handler.py:192-193 | The first occurrence of a present entry. |
| FileHandler.RemoveFirst | src/filsys/file_handler.py:192-193 | `list.remove` leaves a list without the entry unchanged. Otherwise it drops exactly the first occurrence and keeps the entries before and after it in order, so the multiset loses one copy of the entry. |
| FileHandler.MoveToFrontFront | src/filsys/file_handler.py:184-200 | After adding a path, it comes first and occurs only there. No entry is duplicated, and the length never exceeds the maximum. |
| FileHandler.MoveToFrontOrder | src/filsys/file_handler.py:192-200 | The other entries keep their relative order, and on overflow the oldest tail entries are dropped. |
| FileHandler.MoveToFrontLength | src/filsys/file_handler.py:192-200 | Re-adding a present path keeps the length. A new path adds one, up to the maximum. |
| FileHandler.Take | src/filsys/file_handler.py:199-200 | Truncation keeps the first `min(n, len)` entries. |
| FileHandler.FirstOpen | src/filsys/file_handler.py:129 | The position of the first `" ("`, if any. |
| FileHandler.LastOpen | src/filsys/file_handler.py:129 | The position of the last `" ("`, if any. |
| FileHandler.FormatNameAsWritten | src/filsys/file_handler.py:129 | As written, the format name is the text before the first `" ("`. |
| FileHandler.FormatName | src/filsys/file_handler.py:129 | The corrected format name is the text before the last `" ("` (see Findings). |
| FileHandler.FormatNameOfFilter | src/filsys/file_handler.py:110-111 | A filter `name (pattern)` whose pattern has no parenthesis gives back `name`. |
| FileHandler.FormatNameRoundTrip | src/filsys/file_handler.py:110-136 | Every output format's filter text gives back its name, which finds the format. |
| FileHandler.FormatNameAsWrittenOf | src/filsys/file_handler.py:129 | As written, a name that holds no `" ("` is recovered from its filter. |
| FileHandler.HocrFilterAsWritten | src/filsys/file_handler.py:129-136 | As written, the hOCR filter gives the name "HTML", which is no key of the tables, so saving as hOCR raises a KeyError. |
| FileHandler.FirstExtensionOf | src/filsys/file_handler.py:132 | The pattern `*` + e adds extension e. |
| FileHandler.ExtensionOfFormat | src/filsys/file_handler.py:28-36 | Every format's extension is a dot and at least one more character, and is its pattern without the star. |
| FileHandler.WithExtension | src/filsys/file_handler.py:133-134 | The path ends with the extension, ignoring case. It is the path itself if it already did, and the path with the extension appended otherwise. |
| FileHandler.FileSystemHandler.constructor | src/filsys/file_handler.py:49-60 | A new handler has no recent files, a maximum of 10, and the home directory as last directory. |
| FileHandler.FileSystemHandler.AddToRecentFiles | src/filsys/file_handler.py:184-200 | The list becomes the move-to-front of the old list, and stays free of duplicates. |
| FileHandler.FileSystemHandler.GetRecentFiles | src/filsys/file_handler.py:202-209 | The recent list is returned. |
| FileHandler.StarWords | src/filsys/file_handler.py:177-179 | Removing the '*' from words of the form `*` + e gives the extensions e. |
| FileHandler.MatchesPattern | src/filsys/file_handler.py:176-182 | The nested loops find a match exactly when the suffix is one of the extensions the patterns name. |
| FileHandler.FileSystemHandler.ValidateFileType | src/filsys/file_handler.py:160-182 | True iff the path is non-empty, names a file, and its lower-cased suffix is one the image patterns list. |
| FileHandler.FileSystemHandler.SelectImageFile | src/filsys/file_handler.py:62-96 | Cancelling returns None and changes nothing. Otherwise the chosen file's parent becomes the last directory, and the file moves to the front of the recent list. |
| FileHandler.FileSystemHandler.SelectOutputFile | src/filsys/file_handler.py:98-138 | The outcome depends on the formats and the dialog answer:<br>• an unknown default format is a KeyError before the dialog;<br>• cancelling returns None and changes nothing;<br>• otherwise the last directory becomes the file's parent, and the name before the filter's first `" ("` is looked up;<br>• for a known name, the path, with the format's extension added unless present (ignoring case), is returned with the format's code;<br>• an unknown name is a KeyError, which the hOCR filter always gives ("HTML"), while every other format's filter resolves to its format. |
| FileHandler.FileSystemHandler.SelectDirectory | src/filsys/file_handler.py:140-158 | Cancelling returns None and changes nothing. A chosen directory becomes the last directory. |
| FileHandler.OutputFilterResolves | src/filsys/file_handler.py:98-138 | With the corrected name extraction (see Findings), choosing any format's filter resolves to that format. The returned path ends with its extension. |
| FileHandler.OtherFiltersAsWritten | src/filsys/file_handler.py:129 | As written, every filter other than hOCR gives back its format's name and so resolves to its format. |
| Paths.Basename | src/img_enhance/cli.py:133 | `os.path.basename` is the final component, with no '/'. |
| Paths.Dirname | src/img_enhance/cli.py:132 | `os.path.dirname` is a prefix of the path. It is empty iff the path has no '/'. Only slashes lie between it and the basename. |
| Paths.Join | src/img_enhance/cli.py:135 | `os.path.join` ends with the joined name, and an absolute name replaces the directory. |
| Paths.SplitExt | src/img_enhance/cli.py:134 | `os.path.splitext` splits a path into a base and an extension that start with a dot and contain no further dot or '/'. |
| Paths.Parent | src/filsys/file_handler.py:92 | `Path.parent` is never empty, and is "." for a single component. Otherwise it is the path up to its last '/': "/" for a root-level name, and followed by "/" and the basename it gives the path back. |
| Paths.Suffix | src/filsys/file_handler.py:173 | `Path.suffix` ends the basename. It is non-empty iff the basename's last dot is neither its first nor its last character, and then it is a dot followed by at least one more character and no dot. |
| Common.Lower | src/filsys/file_handler.py:173 | `str.lower` lower-cases each ASCII letter and keeps every other character. |
| Common.LowerIdempotent | src/ocrMod/ocr_engine.py:95 | Lower-casing twice is lower-casing once. |
| Common.SplitWords | src/filsys/file_handler.py:177 | `str.split()` gives non-empty words without spaces, whose concatenation is the string with its spaces removed. |

## Left out

- The imaging library's filters (resize, brightness, contrast, color, sharpness, median filter, grayscale and RGB conversion, thumbnails, edge detection, `ImageStat`) are uninterpreted fields of `Imaging.Library`. Only their effect on size and mode is stated.
- AutoEnhance.AnalyzeImage: the means, standard deviations and edge statistics come from a `measure` parameter. Only the not-found error, the ValueError for a non-RGB picture, the fixed `might_be_skewed = False` and the noise estimate are modelled.
- AutoEnhance.NoiseInvariantUnderInversion: holds of the corrected estimate only. As written, the wrapped 8-bit differences make the estimate change under inversion (AutoEnhance.InversionChangesNoiseAsWritten).
- The OCR engine itself (pytesseract and the `tesseract_cmd` assignment in `OCREngine.__init__`) is a foreign program. A call is modelled by the request it makes (`OcrEngine.EngineCall`).
- File-system effects are parameters or maps: existence, is-file and is-directory tests, `os.walk`/`os.listdir` (a `Cli.Dir` tree), `os.makedirs`, image saving, and JSON encoding (a file is a map from keys to values). Symbolic links in `os.walk` are not modelled.
- The Qt dialogs and widgets (`FileSelectionDialog`, `SaveFileDialog`), src/mainui.py and src/filsys/demo.py are GUI code. A dialog's answer is a parameter of the `Select…` methods. The filter strings shown to the user are modelled only as far as the save dialog reads them back.
- `plot_enhancement_metrics` (matplotlib) and the fonts, drawing and `:.2f` formatting of `create_comparison_image`: parameter lines are values of `Utils.ParamLine`, not text.
- The command-line drivers (`auto_mode`, `manual_mode`, `batch_mode`, `preview_mode`, `main`, argparse), src/img_enhance/presets_cli.py, src/ocrMod/example.py, `batch_auto_enhance`, `save_enhanced_image` and `get_preview` are plumbing around the modelled functions. Of `auto_enhance_image`, only the non-preview path is modelled (AutoEnhance.AutoEnhancedShape).
- Floating point: the heuristics are stated over `real`, so IEEE rounding at the rule boundaries is not modelled.
- FileHandler.ImagePatterns: the `IMAGE_TYPES` patterns are stored already split into words (`[["*.png"], ["*.jpg", "*.jpeg"], ["*.tif", "*.tiff"]]`). The dialog's display names of the image filters are not modelled.
- Enhancer.Load, OcrEngine.ProcessImage and AutoEnhance.AnalyzeImage: `disk` holds only files that open as images. A path that exists but is a directory, or a file that is not an image, passes `os.path.exists`. The imaging library then raises `IsADirectoryError` or `UnidentifiedImageError` when opening it, and the model has no such error: it reports such a path as not found.
- Paths.Parent and Paths.Suffix cover normalised paths only (no repeated or trailing '/'), as the dialogs return them.
- Common.Lower covers ASCII only; Unicode case mapping is not modelled.
- Enhancer.ImageEnhancer: aliasing of a record shared between the caller and the enhancer is not modelled, because records are values. Likewise FileHandler.FileSystemHandler.GetRecentFiles returns the list as a value: in the source it is the handler's own list, so a caller that mutates it changes the recent files.
- Enhancer.ImageEnhancer.UpdateParams: `hasattr` is also true of the record's methods and special attributes (`to_dict`, `from_dict`, `__class__`, …). Python assigns such a keyword as an instance attribute, which can shadow a method; the model knows only the nine fields and ignores every other keyword. Enhancer.UnknownKeyIgnored and Enhancer.UpdateStep share this limit.
- Enhancer.EnhancedShape: `WellBehaved` lets the library resize to any size, including a side of 0. For a small positive factor, `int(width * factor)` can be 0, and the imaging library then refuses the resize with a ValueError, which the model does not raise.
- Enhancer.FromDict: Python's TypeError names only the first unexpected keyword, while the model's `UnexpectedKeyword` error carries all of them. A value of the wrong JSON kind for its field is a `WrongType` error. Python's dataclass would store it unchecked. Enhancer.ImageEnhancer.UpdateParams likewise skips such values.
- Cli.GetImagePaths: the image test is passed to the listing loops as a function (`IsImageName`), so the loops' contracts hold for any test.

## Findings

| source | as written | input that shows it | evidently intended | confidence | as-written member | corrected member |
|---|---|---|---|---|---|---|
| src/img_enhance/auto_enhance.py:86 | `center[1:, 1:] - center[:-1, :-1]` subtracts `uint8` arrays, which wraps modulo 256, and `np.abs` of an unsigned array changes nothing | a 12×12 black image with one sample of level 1: the difference 0 − 1 becomes 255, so the estimate is capped at 1.0 | the absolute difference of the samples (estimate 5/255) | medium, not executed | AutoEnhance.SpeckNoise | AutoEnhance.EstimateNoise |
| src/img_enhance/auto_enhance.py:82-86 | the guard `h > 10 and w > 10` admits a side of 11, whose cropped centre `[5:-5, 5:-5]` has one row or column, so the difference slice is empty and its mean is NaN; `min(nan, 1.0)` returns NaN | an 11×11 image | treat it as too small (0.1), like every image whose difference slice would be empty | high, not executed | AutoEnhance.ElevenSquareIsNaN | AutoEnhance.EstimateNoise |
| src/filsys/file_handler.py:129 | `selected_format.split(" (")[0]` cuts at the first `" ("`, but the name "HTML (hOCR)" contains one | saving with the filter "HTML (hOCR) (*.html)": the name becomes "HTML" and `OUTPUT_TYPES["HTML"]` raises a KeyError | the name before the filter's pattern, i.e. before the last `" ("` | high, not executed | FileHandler.HocrFilterAsWritten | FileHandler.FormatNameRoundTrip |
| src/img_enhance/utils.py:71-129 | the parameter area is 120 pixels high whatever the number of parameter lines, which are drawn 20 pixels apart | a record with binarize, deskew and a resize factor: nine lines, the 8th and 9th start at or below the canvas bottom | an area of 20 pixels per line (120 for the six base lines) | medium, not executed | Utils.ParamLinesOverflowAsWritten | Utils.ParamLinesFit |
