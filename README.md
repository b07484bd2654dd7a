# MPC-Plus data manipulation, modelled in Dafny

MPC-Plus collects the daily Machine Performance Check (MPC) results of a Varian
linear accelerator. Each MPC run leaves a folder with `Results.csv` or `Results.xml`
and, for a geometry check, a `SetBeam*.xml` file. The data-manipulation layer does
three things:

- it picks a beam model class for the folder from its name;
- it has an extractor fill that record from the folder's files;
- it uploads the record as one row of a database table.

The model classes are `EBeamModel`, `XBeamModel`, `Geo6xfffModel`, `ImageModel`
and their base `AbstractBeamModel`.

This project models that layer:

- **The five record classes.** Each is a Dafny `class` whose setters are methods
  with `modifies` clauses. Three are built on top of them:
  - a reference type `Beams.Beam`, which can hold a record of any of the five classes;
  - `Beams.Apply`, which says what a setter call does to a record, or that its class
    has no such method and the call raises AttributeError;
  - `Getters.Query`, the same for getter calls.
- **Every extractor.** These are:
  - the CSV extractors of `ETL/Extractor.py` and `ETL/data_extractor.py`;
  - the XML extractor of `ETL/xml_data_extractor.py`;
  - the stand-alone readers of `ETL/ebeam_extractor.py` and `ETL/xbeam_extractor.py`;
  - the old `scripts/Extractor.py`.
- **The dispatcher** `ETL/DataProcessor.py`.
- **The uploader** `ETL/Uploader.py`.

### How the model is built

**Extractors as plans.** An extractor is described by the *plan* of setter calls it
executes: a sequence of `Beams.Op`, each a call, a call inside its own `try`, a skip,
or an exception. The plan is computed from the file contents. Each extraction method
has a loop over the rows or elements, as the source does, and executes the plan
through `Beams.Execute`. Each is proved to leave the record exactly as
`Beams.Run(plan)` does. Lemmas about `Run` then give what the source promises:

- last write wins;
- a field no statement writes keeps its value;
- type, path and date are never touched;
- the scan never raises on the classes that have the setters.

**Python library semantics, written out.** The parts of Python's library the core
relies on are defined in the project:

- `Decimal(text)` and `str(Decimal)`, with the round trip `Decimal(str(d)) == d` proved;
- `re.search` for the path's timestamp and serial number;
- `str.strip`, `str.split`, `in`, `str.lower`, `os.path.basename`;
- the parts of `xml.etree.ElementTree` the extractor uses, over an already-parsed tree.

**Modules, one file each.**

| module | file | models |
|---|---|---|
| `Wrappers` | `wrappers.dfy` | `Option`, `Result`, and the Python exceptions the code raises or catches |
| `Text` | `text.dfy` | string operations |
| `PyDecimal` | `decimal.dfy` | `decimal.Decimal` |
| `PathMetadata` | `path_metadata.dfy` | `datetime`, and the two path parsers of `AbstractBeamModel` |
| `XmlTree` | `xml_tree.dfy` | `ElementTree`, plus `_find_elements_by_type` and `_find_in_default_ns` |
| `AbstractBeam` | `abstract_beam_model.dfy` | `models/AbstractBeamModel.py` |
| `EBeam` | `ebeam_model.dfy` | `models/EBeamModel.py` |
| `XBeam` | `xbeam_model.dfy` | `models/XBeamModel.py` |
| `Image` | `image_model.dfy` | `models/ImageModel.py` |
| `Geo6xfff` | `geo6xfff_model.dfy` | `models/Geo6xfffModel.py` |
| `Beams` | `beams.dfy` | setter calls by name (duck typing), plans and `Run` |
| `Getters` | `getters.dfy` | getter calls by name |
| `CsvExtraction` | `csv_extractor.dfy` | `ETL/Extractor.py` |
| `DataExtractor` | `data_extractor.dfy` | `ETL/data_extractor.py` |
| `XmlExtraction` | `xml_data_extractor.dfy` | `ETL/xml_data_extractor.py` |
| `BeamValues` | `beam_values.dfy` | `ETL/ebeam_extractor.py` and `ETL/xbeam_extractor.py` |
| `Processing` | `data_processor.dfy` | `ETL/DataProcessor.py` |
| `LegacyExtraction` | `legacy_extractor.dfy` | `scripts/Extractor.py` |
| `Uploading` | `uploader.dfy` | `ETL/Uploader.py` |

**Inputs as parameters.** The file system, the folder listing, `datetime.now()` and
the database client do not exist in Dafny. They become parameters, or are left out:

- `files`: each readable path mapped to the rows `csv.DictReader` yields.
- `xml`: each path mapped to the parsed tree, or to a parse error.
- `listing`: each folder mapped to what `os.listdir` returns.
- `dirs` and `alt`: the existing folders, and the fallback folder the readers derive
  from their own location.
- `now`: the upload timestamp text.
- The client's `insert` appends the table and row to the uploader's `inserted` list.

### Where the code and its documentation disagree

- `Geo6xfffModel` overrides `set_relative_uniformity`, `set_relative_output` and
  `set_center_shift` without the `Decimal(str(...))` coercion. Since
  `Decimal(str(d)) == d` is proved, the stored value is the same either way.
- `DataProcessor.Run` documents a 6xfff record typed by its token, but the code calls
  `set_type("15x")`. The model follows the code.
- The electron branch calls `set_path` first, and `EBeamModel` does not define it, so
  every electron path stops there with AttributeError. The model follows the code.
- `Extractor.testGeoModelExtraction` prints inside a `try` that catches everything;
  `data_extractor.testeModelExtraction` prints outside its `try`. The model keeps the
  difference: only the latter reports the getter's exception.

## Model

| member | source | states |
|---|---|---|
| AbstractBeam.AbstractBeamModel.constructor | src/data_manipulation/models/AbstractBeamModel.py:7-11 | a fresh record has empty type and path and no date or serial number |
| AbstractBeam.AbstractBeamModel.SetType | src/data_manipulation/models/AbstractBeamModel.py:27-28 | the type is replaced, every other field is kept, and `get_type` returns the new value |
| AbstractBeam.AbstractBeamModel.SetPath | src/data_manipulation/models/AbstractBeamModel.py:30-31 | the path is replaced, every other field is kept, and `get_path` returns it |
| AbstractBeam.AbstractBeamModel.SetDate | src/data_manipulation/models/AbstractBeamModel.py:33-34 | the date is replaced, every other field is kept, and `get_date` returns it |
| AbstractBeam.AbstractBeamModel.SetMachineSN | src/data_manipulation/models/AbstractBeamModel.py:36-37 | the serial number is replaced, every other field is kept, and `get_machine_SN` returns it |
| EBeam.DateFromPathName | src/data_manipulation/models/EBeamModel.py:38-41 | the electron class's date parser is a placeholder that yields None for every path |
| EBeam.EBeamModel.constructor | src/data_manipulation/models/EBeamModel.py:6-10 | a fresh electron record has an empty type, no date, and zero uniformity and output |
| EBeam.EBeamModel.SetType | src/data_manipulation/models/EBeamModel.py:26-27 | only the type changes, and `get_type` returns it |
| EBeam.EBeamModel.SetDate | src/data_manipulation/models/EBeamModel.py:29-30 | only the date changes, and `get_date` returns it |
| EBeam.EBeamModel.SetRelativeUniformity | src/data_manipulation/models/EBeamModel.py:32-33 | the uniformity stored through `Decimal(str(v))` is `v` itself; nothing else changes |
| EBeam.EBeamModel.SetRelativeOut | src/data_manipulation/models/EBeamModel.py:35-36 | the output stored through `Decimal(str(v))` is `v` itself; nothing else changes |
| XBeam.DateFromPathName | src/data_manipulation/models/XBeamModel.py:38-40 | the photon class's date parser yields None for every path |
| XBeam.XBeamModel.constructor | src/data_manipulation/models/XBeamModel.py:7-15 | a fresh photon record has empty type and path, no date, and zero measurements |
| XBeam.XBeamModel.SetType | src/data_manipulation/models/XBeamModel.py:43-44 | only the type changes, and its getter returns it |
| XBeam.XBeamModel.SetPath | src/data_manipulation/models/XBeamModel.py:46-47 | only the path changes, and its getter returns it |
| XBeam.XBeamModel.SetDate | src/data_manipulation/models/XBeamModel.py:49-50 | only the date changes, and its getter returns it |
| XBeam.XBeamModel.SetRelativeUniformity | src/data_manipulation/models/XBeamModel.py:52-53 | only the uniformity changes, to the value given |
| XBeam.XBeamModel.SetRelativeOutput | src/data_manipulation/models/XBeamModel.py:55-56 | only the output changes, to the value given |
| XBeam.XBeamModel.SetCenterShift | src/data_manipulation/models/XBeamModel.py:58-59 | only the centre shift changes, to the value given |
| Image.ImageModel.constructor | src/data_manipulation/models/ImageModel.py:6-10 | a fresh image record has empty type and path, no date and no image |
| Image.ImageModel.SetType | src/data_manipulation/models/ImageModel.py:26-27 | only the type changes, and its getter returns it |
| Image.ImageModel.SetPath | src/data_manipulation/models/ImageModel.py:29-30 | only the path changes, and its getter returns it |
| Image.ImageModel.SetDate | src/data_manipulation/models/ImageModel.py:32-33 | only the date changes, and its getter returns it |
| Image.ImageModel.SetImage | src/data_manipulation/models/ImageModel.py:35-36 | only the image changes, and its getter returns it |
| Geo6xfff.LeafGet | src/data_manipulation/models/Geo6xfffModel.py:121-145 | a leaf getter returns the entry under `Leaf<i>` when that key exists, and raises KeyError exactly when it does not |
| Geo6xfff.WithLeaf | src/data_manipulation/models/Geo6xfffModel.py:122 | a leaf setter stores the value under `Leaf<i>` in its own dictionary and changes no other dictionary and no scalar |
| Geo6xfff.WithScalar | src/data_manipulation/models/Geo6xfffModel.py:68-118 | a scalar setter leaves exactly that field holding the value given, whether or not it coerces through `str` |
| Geo6xfff.Geo6xfffModel.constructor | src/data_manipulation/models/Geo6xfffModel.py:7-65 | a fresh geometry record is the all-zero state with the 40 leaf keys in each dictionary, and it is well formed |
| Geo6xfff.Geo6xfffModel.SetScalar | src/data_manipulation/models/Geo6xfffModel.py:196-203 | the record becomes `WithScalar` of its old state; a well-formed record stays well formed, and the getter returns the value |
| Geo6xfff.Geo6xfffModel.SetLeaf | src/data_manipulation/models/Geo6xfffModel.py:141-145 | the record becomes `WithLeaf` of its old state; the leaf getter then returns the value, and well-formedness is kept |
| Geo6xfff.Geo6xfffModel.SetType | src/data_manipulation/models/AbstractBeamModel.py:27-28 | only the type changes |
| Geo6xfff.Geo6xfffModel.SetPath | src/data_manipulation/models/AbstractBeamModel.py:30-31 | only the path changes |
| Geo6xfff.Geo6xfffModel.SetDate | src/data_manipulation/models/AbstractBeamModel.py:33-34 | only the date changes |
| Geo6xfff.Geo6xfffModel.SetMachineSN | src/data_manipulation/models/AbstractBeamModel.py:36-37 | only the serial number changes |
| Geo6xfff.LeafKeyInitial | src/data_manipulation/models/Geo6xfffModel.py:38-39 | `Leaf<i>` is an initial key exactly when 11 <= i <= 50 |
| Geo6xfff.LeafKeyInjective | src/data_manipulation/models/Geo6xfffModel.py:121-122 | distinct leaf indices have distinct keys, so two leaves never share an entry |
| Geo6xfff.LeafKeysCount | src/data_manipulation/models/Geo6xfffModel.py:38 | each dictionary starts with exactly 40 keys |
| Geo6xfff.FreshGood | src/data_manipulation/models/Geo6xfffModel.py:7-65 | a fresh record is well formed: its four dictionaries hold exactly the keys `Leaf11` .. `Leaf50`, all zero, and every scalar is zero |
| Geo6xfff.FreshLeafGet | src/data_manipulation/models/Geo6xfffModel.py:38-48 | on a fresh record a leaf getter returns zero for 11 .. 50 and raises KeyError for any other index |
| Geo6xfff.LeafSetGet | src/data_manipulation/models/Geo6xfffModel.py:121-145 | after a leaf setter the getter returns the value, and every other leaf of every dictionary reads as before |
| Geo6xfff.SetThenGet | src/data_manipulation/models/Geo6xfffModel.py:121-122 | after a leaf setter the leaf getter returns the value |
| Geo6xfff.OtherKeyUnchanged | src/data_manipulation/models/Geo6xfffModel.py:121-122 | a leaf setter leaves every other leaf of the same dictionary as it was |
| Geo6xfff.OtherMapUnchanged | src/data_manipulation/models/Geo6xfffModel.py:121-145 | a leaf setter leaves the other three dictionaries as they were |
| Geo6xfff.LeafSetGrows | src/data_manipulation/models/Geo6xfffModel.py:122 | setting a leaf outside 11 .. 50 is not rejected: the dictionary gains one key |
| Geo6xfff.SettersKeepGood | src/data_manipulation/models/Geo6xfffModel.py:68-203 | scalar and leaf setters keep every scalar present and every initial leaf key |
| PyDecimal.StrRoundTrip | src/data_manipulation/models/Geo6xfffModel.py:69 | `Decimal(str(d))` gives back `d`: the same sign, coefficient and exponent |
| PyDecimal.ViaStr | src/data_manipulation/models/EBeamModel.py:32-36 | the setters' coercion `Decimal(str(v))` is the identity |
| PyDecimal.ParseOrSentinel | src/data_manipulation/ETL/data_extractor.py:163-166 | a value that parses is kept, and one that raises becomes `Decimal(-1)` |
| PyDecimal.LeadingDigits | src/data_manipulation/ETL/data_extractor.py:163 | the integer part of a decimal literal is the longest run of digits at its front |
| PyDecimal.Magnitude | src/data_manipulation/ETL/xml_data_extractor.py:410 | `abs(d)` is never negative |
| PyDecimal.ToReal | src/data_manipulation/ETL/ebeam_extractor.py:52 | a decimal's real value is its magnitude with its sign |
| PyDecimal.SmallRoundTrip | src/data_manipulation/models/Geo6xfffModel.py:69 | the round trip for values printed as `0.000ddd` |
| PyDecimal.WholeRoundTrip | src/data_manipulation/models/Geo6xfffModel.py:69 | the round trip for values printed as a digit string, with or without an exponent |
| PyDecimal.SplitRoundTrip | src/data_manipulation/models/Geo6xfffModel.py:69 | the round trip for values printed as `ddd.ddd`, with or without an exponent |
| PathMetadata.DateFromPath | src/data_manipulation/models/AbstractBeamModel.py:40-54 | the date found in a path is a real date and time; a path without one raises ValueError |
| PathMetadata.FindStamp | src/data_manipulation/models/AbstractBeamModel.py:49 | the search finds the leftmost `YYYY-MM-DD-HH-MM-SS` in the path, and reports none only when there is none |
| PathMetadata.StampOf | src/data_manipulation/models/AbstractBeamModel.py:53-54 | a timestamp written in folder-name form has the pattern's shape and reads back as the same value |
| PathMetadata.DateFromPathOfStamp | src/data_manipulation/models/AbstractBeamModel.py:40-54 | a timestamp written into a folder name is parsed back, when the text before it holds no earlier match |
| PathMetadata.FirstStamp | src/data_manipulation/models/AbstractBeamModel.py:49 | a match with none before it is the one the search returns |
| PathMetadata.SerialFromPath | src/data_manipulation/models/AbstractBeamModel.py:56-68 | the serial number found is four digits; a path without `SN` and four digits raises ValueError |
| PathMetadata.SerialFromPathOf | src/data_manipulation/models/AbstractBeamModel.py:65 | `SN` and four digits written into a folder name are read back, when no earlier serial number precedes them |
| PathMetadata.FirstSerial | src/data_manipulation/models/AbstractBeamModel.py:65 | the leftmost `SN` followed by four digits decides the serial number |
| PathMetadata.IsoFormat | src/data_manipulation/ETL/Uploader.py:58 | the ISO text of a timestamp is `YYYY-MM-DDTHH:MM:SS`: 19 characters, the year's four digits first and the seconds' two last, with `-`, `T` and `:` between the fields |
| PathMetadata.Pad | src/data_manipulation/ETL/Uploader.py:58 | each zero-padded field has its width, is all digits, and reads back as its number |
| Text.IndexOf | src/data_manipulation/ETL/DataProcessor.py:35 | the leftmost occurrence of a substring, or none exactly when it occurs nowhere |
| Text.ContainsIff | src/data_manipulation/ETL/DataProcessor.py:35 | Python's `t in s` holds exactly when `t` occurs at some index of `s` |
| Text.ContainsTransitive | src/data_manipulation/ETL/ebeam_extractor.py:13 | a string holding `t` holds every substring of `t` |
| Text.Strip | src/data_manipulation/ETL/data_extractor.py:157-160 | the stripped text is a slice of the original with whitespace, and only whitespace, cut from both ends |
| Text.StripSlice | src/data_manipulation/ETL/data_extractor.py:157-160 | the stripped text is bounded by non-space characters, and all that was cut is whitespace |
| Text.StripIdempotent | src/data_manipulation/ETL/data_extractor.py:157-160 | stripping twice is stripping once |
| Text.Tokens | src/data_manipulation/ETL/xml_data_extractor.py:498 | `split()` yields non-empty words without whitespace; their concatenation is the subject of `TokensFlatten` |
| TextSplit.TokensFlatten | src/data_manipulation/ETL/xml_data_extractor.py:498 | the words of `split()`, concatenated in order, are the text with its whitespace removed |
| TextSplit.TokensCons | src/data_manipulation/ETL/Extractor.py:230 | whitespace, a word, then whitespace or the end: `split()` yields that word first and then the words of the rest |
| TextSplit.TokensBlank | src/data_manipulation/ETL/xml_data_extractor.py:498 | `split()` of whitespace alone is empty |
| Text.SecondPiece | src/data_manipulation/ETL/Extractor.py:230 | `split(sep)[1]` follows the first separator, holds no separator, and raises IndexError exactly when the separator is absent |
| TextSplit.SecondPieceEnd | src/data_manipulation/ETL/Extractor.py:230 | the piece ends at the end of the text or where the second separator starts |
| TextSplit.SecondPieceOf | src/data_manipulation/ETL/Extractor.py:230 | after a first separator with none earlier, a text holding no separator is the whole piece |
| Text.LowerChar | src/data_manipulation/ETL/xml_data_extractor.py:55 | `lower()` maps each capital A-Z to the small letter 32 code points above it and leaves every other character as it is |
| Text.Basename | src/data_manipulation/ETL/ebeam_extractor.py:12 | the base name ends the path, holds no '/', and is the whole path or starts right after a '/' |
| Text.BasenameAfter | src/data_manipulation/ETL/ebeam_extractor.py:12 | the base name is what follows the last '/' |
| Text.LastIndexOfAt | src/data_manipulation/ETL/ebeam_extractor.py:12 | the rightmost occurrence is the one with none after it |
| Text.NatToStringValue | src/data_manipulation/models/Geo6xfffModel.py:38 | reading back the digits `str(n)` prints gives `n` |
| Text.IntToStringInjective | src/data_manipulation/models/Geo6xfffModel.py:38 | `str` on ints is injective, so distinct indices give distinct leaf keys |
| Text.ParseIntOfString | src/data_manipulation/ETL/data_extractor.py:213 | `int(str(i)) == i` |
| XmlTree.Iter | src/data_manipulation/ETL/xml_data_extractor.py:136 | `iter()` yields the element itself first |
| XmlTree.ChildrenInIter | src/data_manipulation/ETL/xml_data_extractor.py:155 | every child of an element is among what `iter()` yields |
| XmlTree.LocalName | src/data_manipulation/ETL/xml_data_extractor.py:204 | a tag without '}' is its own local name |
| XmlTree.LocalNameShape | src/data_manipulation/ETL/xml_data_extractor.py:204 | the local name ends the tag, holds no '}', and is the whole tag or starts right after a '}' |
| XmlTree.FindChild | src/data_manipulation/ETL/xml_data_extractor.py:425 | `find(tag)` returns the child at some position with that exact tag such that no earlier child has it, and none exactly when no child has it |
| XmlTree.FirstTaggedAt | src/data_manipulation/ETL/xml_data_extractor.py:425 | the first direct child with the tag: it has the tag and no earlier child does |
| XmlTree.FindAllChildren | src/data_manipulation/ETL/xml_data_extractor.py:429 | `findall(tag)` returns exactly the direct children with that tag |
| XmlTree.FindAllChildrenOrder | src/data_manipulation/ETL/xml_data_extractor.py:429 | `findall(tag)` keeps document order: cut the children anywhere and the matches before the cut come first |
| XmlTree.TaggedAppend | src/data_manipulation/ETL/xml_data_extractor.py:429 | filtering a concatenation filters each part, in order |
| XmlTree.TaggedSingle | src/data_manipulation/ETL/xml_data_extractor.py:429 | one element is kept exactly when it has the tag |
| XmlTree.Attr | src/data_manipulation/ETL/xml_data_extractor.py:138 | `get(attr)` is the attribute's value, and None exactly when the element lacks it |
| XmlTree.OfTypeMembers | src/data_manipulation/ETL/xml_data_extractor.py:128-142 | the elements kept are exactly those of the input carrying the type |
| XmlTree.FindElementsByType | src/data_manipulation/ETL/xml_data_extractor.py:128-142 | returns, in document order, each element whose `xsi:type` or `type` is the name, once even when both match |
| XmlTree.FirstLocal | src/data_manipulation/ETL/xml_data_extractor.py:380-384 | the element at some position whose local name matches such that no earlier element's does, and none exactly when no element's does |
| XmlTree.FirstLocalFrom | src/data_manipulation/ETL/xml_data_extractor.py:380-384 | the position found has the local name and none between the start and it has |
| XmlTree.FirstEndingWith | src/data_manipulation/ETL/xml_data_extractor.py:155-158 | the element at some position whose tag ends with the name such that no earlier tag does, and none exactly when no tag does |
| XmlTree.FirstEndingFrom | src/data_manipulation/ETL/xml_data_extractor.py:155-158 | the position found has a tag ending with the name and none between the start and it has |
| XmlTree.FindInDefaultNs | src/data_manipulation/ETL/xml_data_extractor.py:144-160 | a direct child tagged `{http:/www.varian.com/MPC}name` wins, the first such; without one, the first element of `iter()` (parent included) whose tag ends with the name; none only when no tag does |
| Beams.TakesDefines | src/data_manipulation/models/Geo6xfffModel.py:196-203 | a record accepts a setter exactly when its class defines that setter |
| Beams.Apply | src/data_manipulation/models/Geo6xfffModel.py:68-203 | a setter call takes effect exactly when the record's class defines it (otherwise AttributeError), and it never changes the class |
| Beams.Invoke | src/data_manipulation/ETL/data_extractor.py:46-57 | calling a setter by name on any record changes it as `Apply` says, or leaves it alone and reports the missing method |
| Beams.InvokeE | src/data_manipulation/models/EBeamModel.py:26-36 | an electron record changes through its own setters as `Apply` says |
| Beams.InvokeX | src/data_manipulation/models/XBeamModel.py:43-59 | a photon record changes through its own setters as `Apply` says |
| Beams.InvokeGeo | src/data_manipulation/models/Geo6xfffModel.py:68-203 | a geometry record changes through its own setters as `Apply` says |
| Beams.InvokeImage | src/data_manipulation/models/ImageModel.py:26-36 | an image record changes through its own setters as `Apply` says |
| Beams.InvokeBase | src/data_manipulation/models/AbstractBeamModel.py:27-37 | a base record changes through its own setters as `Apply` says |
| Beams.Step | src/data_manipulation/ETL/data_extractor.py:59-64 | one statement never changes the record's class |
| Beams.ApplyKeepsGood | src/data_manipulation/models/Geo6xfffModel.py:68-203 | every setter keeps a well-formed record well formed |
| Beams.StepKeepsGood | src/data_manipulation/ETL/data_extractor.py:169-274 | every statement keeps a well-formed record well formed |
| Beams.Run | src/data_manipulation/ETL/data_extractor.py:29-64 | running statements in order never changes the record's class |
| Beams.RunKeepsGood | src/data_manipulation/ETL/data_extractor.py:143-281 | a plan keeps a well-formed record well formed, whether or not it raises |
| Beams.Perform | src/data_manipulation/ETL/data_extractor.py:46-57 | one statement on the record has the effect and the exception `Step` gives |
| Beams.Execute | src/data_manipulation/ETL/data_extractor.py:41-64 | a plan executed statement by statement, stopping at the first exception, leaves the record and the exception `Run` gives |
| Beams.RunAppend | src/data_manipulation/ETL/xml_data_extractor.py:350-414 | two plans in a row: the second starts where the first stopped, unless the first raised |
| Beams.RunSnoc | src/data_manipulation/ETL/data_extractor.py:41-57 | one more statement runs on the state so far, unless an earlier one raised |
| Beams.RunPrefix | src/data_manipulation/ETL/data_extractor.py:41-57 | one more turn of an extractor's loop, and once a statement raises, the whole plan stops there |
| Beams.RunStops | src/data_manipulation/ETL/data_extractor.py:59-64 | once a prefix of a plan raises, the exception ends the whole plan |
| Beams.RunNoError | src/data_manipulation/ETL/data_extractor.py:59-64 | a plan with no raising statement, whose every call names a setter of the record's class, raises nothing |
| Beams.RunNoWrite | src/data_manipulation/ETL/data_extractor.py:169-274 | statements that do not set a scalar leave it as it was, whatever they raise |
| Beams.StepNoWrite | src/data_manipulation/ETL/data_extractor.py:169-274 | one statement that does not set a scalar leaves it as it was |
| Beams.ApplyKeepsHeader | src/data_manipulation/models/Geo6xfffModel.py:68-203 | measurement setters never change type, date or path |
| Beams.RunKeepsHeader | src/data_manipulation/ETL/data_extractor.py:29-64 | a plan of measurement setters keeps type, date and path, whether or not it raises |
| Beams.ApplyNoWrite | src/data_manipulation/models/Geo6xfffModel.py:68-203 | a call that is not the setter of a scalar leaves that scalar as it was |
| Beams.MetadataNoScalarWrite | src/data_manipulation/models/AbstractBeamModel.py:27-34 | type, path and date setters change no measurement |
| Beams.OtherScalarNoWrite | src/data_manipulation/models/Geo6xfffModel.py:68-183 | the setter of one scalar leaves every other scalar alone |
| Beams.LeafNoScalarWrite | src/data_manipulation/models/Geo6xfffModel.py:121-145 | a leaf setter leaves every scalar alone |
| Beams.LastWriteWins | src/data_manipulation/ETL/data_extractor.py:169-274 | when a plan runs to its end, a scalar holds the value of the last statement that set it |
| Beams.ApplyWrites | src/data_manipulation/models/Geo6xfffModel.py:68-203 | a scalar setter the class defines stores its value |
| Beams.LeafOf | src/data_manipulation/models/Geo6xfffModel.py:121-145 | a leaf getter reads the geometry dictionary, and raises AttributeError on any record without one |
| Beams.ApplyNoLeafWrite | src/data_manipulation/models/Geo6xfffModel.py:121-145 | a call that is not the setter of a leaf leaves that leaf as it was |
| Beams.StepNoLeafWrite | src/data_manipulation/ETL/xml_data_extractor.py:494-516 | one statement that does not set a leaf leaves it as it was |
| Beams.RunNoLeafWrite | src/data_manipulation/ETL/xml_data_extractor.py:494-516 | statements that do not set a leaf leave it as it was, whatever they raise |
| Beams.LastLeafWriteWins | src/data_manipulation/ETL/xml_data_extractor.py:494-516 | when a plan runs to its end, a leaf holds the value of the last statement that set it, a `Do` or a `Try` on a geometry record |
| Beams.ApplyLeafWrites | src/data_manipulation/models/Geo6xfffModel.py:121-145 | a leaf setter the class defines stores its value |
| Beams.GeoLeafWrites | src/data_manipulation/models/Geo6xfffModel.py:121-122 | on a geometry record the leaf just set reads back as its value |
| Getters.HasOffers | src/data_manipulation/models/Geo6xfffModel.py:68-193 | a record answers a getter exactly when its class defines it |
| Getters.Query | src/data_manipulation/models/Geo6xfffModel.py:68-193 | a missing getter raises AttributeError; the others return, except a geometry scalar or leaf whose field or key is absent, which raises KeyError for a leaf |
| Getters.Ask | src/data_manipulation/ETL/data_extractor.py:76-78 | calling a getter by name on a record returns what `Query` says |
| Getters.SetterHasGetter | src/data_manipulation/models/XBeamModel.py:18-59 | each class defines a setter exactly when it defines the matching getter |
| Getters.GetAfterSet | src/data_manipulation/models/XBeamModel.py:18-59 | a getter returns what its setter just stored |
| Getters.GeoGetAfterSet | src/data_manipulation/models/Geo6xfffModel.py:68-203 | on a geometry record a getter returns what its setter just stored |
| Getters.ScalarAfterSet | src/data_manipulation/models/Geo6xfffModel.py:68-118 | a scalar getter returns the value just set |
| Getters.QueryScalar | src/data_manipulation/models/Geo6xfffModel.py:186-193 | `get_X` returns the field `X` |
| Getters.QueryOnGood | src/data_manipulation/models/Geo6xfffModel.py:68-193 | on a well-formed record every getter its class defines returns, the leaf getters aside |
| Getters.LeafAfterSet | src/data_manipulation/models/Geo6xfffModel.py:121-145 | a leaf getter returns the value just set |
| Getters.QueryLeaf | src/data_manipulation/models/Geo6xfffModel.py:121-145 | a leaf getter returns the dictionary entry |
| Getters.SetKeepsOtherGets | src/data_manipulation/models/XBeamModel.py:18-59 | a setter changes what no other getter returns |
| Getters.GeoSetKeepsOtherGets | src/data_manipulation/models/Geo6xfffModel.py:68-203 | on a geometry record a setter changes what no other getter returns |
| Getters.Printed | src/data_manipulation/ETL/data_extractor.py:76-78 | getters called outside a `try` raise nothing exactly when each returns, and the exception raised is that of a failing getter |
| Getters.PrintedFirst | src/data_manipulation/ETL/data_extractor.py:137-140 | the first getter that raises decides the exception |
| Getters.PrintedCons | src/data_manipulation/ETL/data_extractor.py:137-140 | getters that all return raise nothing |
| CsvExtraction.CellDecimal | src/data_manipulation/ETL/Extractor.py:49-52 | a cell that parses gives its decimal; a malformed or missing cell gives -1 |
| CsvExtraction.BlankIsNotDecimal | src/data_manipulation/ETL/Extractor.py:175-177 | a blank cell is not a number |
| CsvExtraction.BeamRowField | src/data_manipulation/ETL/Extractor.py:128-147 | a row goes to the output when its name holds `BeamOutputChange`, else to the uniformity when it holds `BeamUniformityChange`, else (x-beams only) to the centre shift, each exactly under that condition |
| CsvExtraction.ScanBeamRows | src/data_manipulation/ETL/Extractor.py:35-66 | the row loop leaves the record as `BeamExtraction` says |
| CsvExtraction.EModelExtraction | src/data_manipulation/ETL/Extractor.py:31-66 | the e-beam scan leaves the record as `BeamExtraction` without the centre-shift branch says |
| CsvExtraction.TestEModelExtraction | src/data_manipulation/ETL/Extractor.py:68-107 | the test scan has the same effect on the record; its prints are inside the same `try` |
| CsvExtraction.XModelExtraction | src/data_manipulation/ETL/Extractor.py:110-154 | the x-beam scan leaves the record as `BeamExtraction` with the centre-shift branch says |
| CsvExtraction.BeamExtractionKeepsHeader | src/data_manipulation/ETL/Extractor.py:31-154 | the scan never changes type, date or path |
| CsvExtraction.EBeamUntouched | src/data_manipulation/ETL/Extractor.py:37 | an `EBeamModel` has no `get_path`, so both scans leave it as it was |
| CsvExtraction.BeamWrites | src/data_manipulation/ETL/Extractor.py:124-147 | a row's statement sets a field exactly when the row has a name routed to that field |
| CsvExtraction.BeamPlanNoError | src/data_manipulation/ETL/Extractor.py:35-66 | on a record with the three setters, a file whose rows all have a name never stops the scan |
| CsvExtraction.BeamLastRowWins | src/data_manipulation/ETL/Extractor.py:123-147 | each field ends with the decimal of the last row routed to it, or -1 when that row's value is missing or malformed |
| CsvExtraction.BeamUnroutedKept | src/data_manipulation/ETL/Extractor.py:123-147 | a field no row is routed to keeps its value, whatever the rows raise |
| CsvExtraction.FirstHitLeftmost | src/data_manipulation/ETL/Extractor.py:186-291 | the `if/elif` chain picks the first branch whose pattern occurs, and picks nothing exactly when none occurs |
| CsvExtraction.LeafIndex | src/data_manipulation/ETL/Extractor.py:229-239 | a leaf index is parsed only from a name that holds its separator |
| CsvExtraction.LeafIndexOf | src/data_manipulation/ETL/Extractor.py:228-263 | a name with the separator (none earlier), then `str(k)`, then whitespace or nothing and no further separator, yields index `k` |
| CsvExtraction.NumberHoldsNoSep | src/data_manipulation/ETL/Extractor.py:230 | a separator starting with a letter can follow `str(k)` only inside what comes after it |
| CsvExtraction.IntToStringChars | src/data_manipulation/ETL/Extractor.py:230 | `str(k)` is digits after an optional '-' |
| CsvExtraction.GeoRowOp | src/data_manipulation/ETL/Extractor.py:174-177 | a geometry row raises AttributeError exactly when its name or value cell is missing |
| CsvExtraction.GeoCellsOp | src/data_manipulation/ETL/Extractor.py:174-291 | a blank name or value skips the row; any setter is given the parsed value, -1 when it does not parse; leaf setters run inside their own `try` |
| CsvExtraction.GeoCellsRouted | src/data_manipulation/ETL/Extractor.py:186-291 | a row calls the setter of the first matching branch of the chain, and a leaf row writes the index parsed after its separator |
| CsvExtraction.GeoCellsUnrouted | src/data_manipulation/ETL/Extractor.py:186-291 | a row whose name matches no branch changes nothing |
| CsvExtraction.GeoModelExtraction | src/data_manipulation/ETL/Extractor.py:159-298 | the geometry scan leaves the record as `GeoExtraction` says |
| CsvExtraction.TestGeoModelExtraction | src/data_manipulation/ETL/Extractor.py:300-371 | the test has the same effect on the record; its getters only print |
| CsvExtraction.GeoPlanNoError | src/data_manipulation/ETL/Extractor.py:159-298 | on a geometry record whose rows all have both cells the scan never stops, and it keeps the record well formed |
| CsvExtraction.GeoLastRowWins | src/data_manipulation/ETL/Extractor.py:186-291 | each scalar ends with the parsed stripped value of the last row that sets it |
| CsvExtraction.GeoLastLeafRowWins | src/data_manipulation/ETL/Extractor.py:228-263 | each leaf ends with the parsed stripped value of the last row that writes it, despite the per-row `try` |
| CsvExtraction.GeoExtractionKeepsHeader | src/data_manipulation/ETL/Extractor.py:159-298 | the geometry scan never changes type, date or path |
| DataExtractor.EModelExtraction | src/data_manipulation/ETL/data_extractor.py:29-64 | the e-beam scan leaves the record as the CSV `BeamExtraction` without the centre-shift branch says |
| DataExtractor.XModelExtraction | src/data_manipulation/ETL/data_extractor.py:82-125 | the x-beam scan leaves the record as `BeamExtraction` with the centre-shift branch says |
| DataExtractor.GeoModelExtraction | src/data_manipulation/ETL/data_extractor.py:143-281 | the geometry scan leaves the record as `GeoExtraction` says |
| DataExtractor.EPrintGetters | src/data_manipulation/ETL/data_extractor.py:76-78 | the three printed getters raise what the first failing one raises, or nothing |
| DataExtractor.TestEModelExtraction | src/data_manipulation/ETL/data_extractor.py:66-78 | the extraction's effect, then the exception of the first failing getter printed outside the `try` |
| DataExtractor.XPrintGetters | src/data_manipulation/ETL/data_extractor.py:137-140 | the four printed getters raise what the first failing one raises, or nothing |
| DataExtractor.TestXModelExtraction | src/data_manipulation/ETL/data_extractor.py:127-140 | the extraction's effect, then the exception of the first failing getter printed outside the `try` |
| DataExtractor.TestGeoModelExtraction | src/data_manipulation/ETL/data_extractor.py:283-356 | the extraction's effect; its getters sit inside a `try` that catches everything |
| DataExtractor.ETestOutcome | src/data_manipulation/ETL/data_extractor.py:76-78 | on a well-formed record the e-test's getters pass exactly on photon and geometry records, and raise AttributeError on the others |
| DataExtractor.XTestOutcome | src/data_manipulation/ETL/data_extractor.py:137-140 | the x-test's getters likewise pass exactly on photon and geometry records |
| DataExtractor.ETestOnEBeam | src/data_manipulation/ETL/data_extractor.py:66-78 | on an `EBeamModel` the e-test leaves the record as it was and raises AttributeError |
| XmlExtraction.Join | src/data_manipulation/ETL/xml_data_extractor.py:173 | an absolute name stands alone; otherwise the folder, one '/' unless the folder ends with one, then the name |
| XmlExtraction.JoinBasename | src/data_manipulation/ETL/xml_data_extractor.py:173 | the base name of a joined path is the name joined, when it holds no '/' |
| XmlExtraction.ParseXmlValue | src/data_manipulation/ETL/xml_data_extractor.py:87-98 | a missing element, a missing text, or text that is not a decimal gives -1; otherwise the stripped text's decimal |
| XmlExtraction.ProfileOp | src/data_manipulation/ETL/xml_data_extractor.py:275-292 | a profile child calls a setter exactly when its local name is a field the extraction reads; the centre shift only with `withShift` |
| XmlExtraction.ScanProfiles | src/data_manipulation/ETL/xml_data_extractor.py:163-222 | the profile loops leave the record as `BeamXmlExtraction` says |
| XmlExtraction.EModelExtraction | src/data_manipulation/ETL/xml_data_extractor.py:163-222 | the e-beam extraction leaves the record as `BeamXmlExtraction` without the centre shift says |
| XmlExtraction.XModelExtraction | src/data_manipulation/ETL/xml_data_extractor.py:234-299 | the x-beam extraction leaves the record as `BeamXmlExtraction` with the centre shift says |
| XmlExtraction.ProfileNoError | src/data_manipulation/ETL/xml_data_extractor.py:275-292 | the profile statements never raise on a photon or geometry record |
| XmlExtraction.ProfileLastWins | src/data_manipulation/ETL/xml_data_extractor.py:270-292 | across all profile checks, the last child naming a field decides it |
| XmlExtraction.EProfileKeepsShift | src/data_manipulation/ETL/xml_data_extractor.py:203-215 | the e-beam extraction never sets the centre shift |
| XmlExtraction.CouchOp | src/data_manipulation/ETL/xml_data_extractor.py:387-413 | a couch child sets its field; a rotation below 360 in magnitude is the fine one, any other the large one |
| XmlExtraction.CouchOps | src/data_manipulation/ETL/xml_data_extractor.py:386-413 | one statement per child of the couch reference |
| XmlExtraction.CouchPlan | src/data_manipulation/ETL/xml_data_extractor.py:379-386 | nothing is set when no element is a `CouchReference` |
| XmlExtraction.CouchFromFirstReference | src/data_manipulation/ETL/xml_data_extractor.py:379-413 | when element `k` of `iter()` is the first `CouchReference`, the statements are those of its children, in order |
| XmlExtraction.SetBeamFiles | src/data_manipulation/ETL/xml_data_extractor.py:327 | the SetBeam files are exactly the entries starting with `SetBeam` and ending with `.xml` |
| XmlExtraction.SetBeamFilesAppend | src/data_manipulation/ETL/xml_data_extractor.py:327 | the files keep listing order: those of a first part of the listing come before those of the rest |
| XmlExtraction.SetBeamFilesFirst | src/data_manipulation/ETL/xml_data_extractor.py:327-419 | `setbeam_files[0]` is the first SetBeam entry of the listing |
| XmlExtraction.FirstLinac | src/data_manipulation/ETL/xml_data_extractor.py:429-431 | the control point read is a Linac one at some position with none before it, and none is read exactly when there is none |
| XmlExtraction.LinacIndex | src/data_manipulation/ETL/xml_data_extractor.py:429-431 | the position found is a Linac control point, and none is found exactly when there is none |
| XmlExtraction.LinacIndexFirst | src/data_manipulation/ETL/xml_data_extractor.py:429-431 | no control point before the position found is a Linac one |
| XmlExtraction.FirstLinacAt | src/data_manipulation/ETL/xml_data_extractor.py:429-431 | when control point `k` is the first Linac one, it is the one read |
| XmlExtraction.ChildScalar | src/data_manipulation/ETL/xml_data_extractor.py:436-483 | a field is set, with the child's value, exactly when its child is present |
| XmlExtraction.BankSize | src/data_manipulation/ETL/xml_data_extractor.py:499 | at most 60 tokens are read, and fewer only when there are fewer |
| XmlExtraction.BankTokens | src/data_manipulation/ETL/xml_data_extractor.py:489-498 | no `Mlc` element, or no bank under it, gives no tokens |
| XmlExtraction.TokenOps | src/data_manipulation/ETL/xml_data_extractor.py:499-504 | a bank has one statement for each of its first 60 tokens |
| XmlExtraction.TokenOpsAt | src/data_manipulation/ETL/xml_data_extractor.py:499-504 | token `k` of the first 60 handles leaf `k + 1`, as `enumerate(..., start=1)` numbers them |
| XmlExtraction.TokenOp | src/data_manipulation/ETL/xml_data_extractor.py:500-504 | a token sets its leaf exactly when it parses, and is skipped exactly when it does not |
| XmlExtraction.ControlPoint | src/data_manipulation/ETL/xml_data_extractor.py:425-431 | the control point read is a Linac one, and none is read without `ControlPoints` |
| XmlExtraction.LinacPoint | src/data_manipulation/ETL/xml_data_extractor.py:417-431 | the control point comes from the first SetBeam file: the first Linac `Cp` of its root when it parses, none when it is missing or malformed or there is no SetBeam file |
| XmlExtraction.GeoXmlExtraction | src/data_manipulation/ETL/xml_data_extractor.py:321-331 | a record without `get_path`, an unlistable folder, or a missing or malformed Results.xml leaves the record as it was |
| XmlExtraction.GeoModelExtraction | src/data_manipulation/ETL/xml_data_extractor.py:312-534 | the geometry extraction leaves the record as `GeoXmlExtraction` says |
| XmlExtraction.SetBeamFailureKeepsResults | src/data_manipulation/ETL/xml_data_extractor.py:419-523 | a SetBeam file that does not parse leaves what Results.xml set |
| XmlExtraction.PlainRuns | src/data_manipulation/ETL/xml_data_extractor.py:350-516 | on a geometry record every geometry XML statement takes effect |
| XmlExtraction.GeoPlanNoError | src/data_manipulation/ETL/xml_data_extractor.py:321-534 | on a geometry record no statement of the extraction raises |
| XmlExtraction.GeoRunNoError | src/data_manipulation/ETL/xml_data_extractor.py:321-534 | on a geometry record whose Results.xml is read, the extraction runs to its end |
| XmlExtraction.WriteThenNone | src/data_manipulation/ETL/xml_data_extractor.py:436-483 | a write followed by statements that do not write the field decides it |
| XmlExtraction.FieldWins | src/data_manipulation/ETL/xml_data_extractor.py:436-483 | within a completed run, a field statement whose child is present decides the field |
| XmlExtraction.LinacPlanShape | src/data_manipulation/ETL/xml_data_extractor.py:350-518 | with a Linac control point, the statements are the profile, couch, field and leaf statements in that order |
| XmlExtraction.LinacFieldWins | src/data_manipulation/ETL/xml_data_extractor.py:436-483 | gantry, collimator and jaw fields end with the values of the Linac control point's children, when present |
| XmlExtraction.MlcNoWrite | src/data_manipulation/ETL/xml_data_extractor.py:489-516 | the leaf statements set no scalar |
| XmlExtraction.ResultsNoWrite | src/data_manipulation/ETL/xml_data_extractor.py:354-413 | profile statements set only the beam fields, couch statements only the couch fields |
| XmlExtraction.SetBeamNoWrite | src/data_manipulation/ETL/xml_data_extractor.py:417-523 | the SetBeam statements set a gantry, collimator or jaw field only from a present child of the Linac control point |
| XmlExtraction.LinacFieldKept | src/data_manipulation/ETL/xml_data_extractor.py:436-483 | a gantry, collimator or jaw field whose child is missing, or that no control point supplies, keeps its value |
| XmlExtraction.LeafWriteThenNone | src/data_manipulation/ETL/xml_data_extractor.py:499-516 | a leaf write followed by statements that do not write the leaf decides it |
| XmlExtraction.TokenOpsNoLeafWrite | src/data_manipulation/ETL/xml_data_extractor.py:499-516 | a bank writes no leaf of the other dictionary, and of its own only the leaves its parsing tokens name |
| XmlExtraction.TokenWins | src/data_manipulation/ETL/xml_data_extractor.py:499-504 | within a completed run, a token that parses decides its leaf |
| XmlExtraction.LinacLeafWins | src/data_manipulation/ETL/xml_data_extractor.py:489-516 | leaf `i` of a geometry record ends with token `i` of its bank, for `i` from 1 to 60, when that token parses |
| XmlExtraction.BankAWins | src/data_manipulation/ETL/xml_data_extractor.py:494-504 | bank A's parsing token decides its leaf, as bank B's statements come after it and write other leaves |
| XmlExtraction.BankBWins | src/data_manipulation/ETL/xml_data_extractor.py:506-516 | bank B's parsing token decides its leaf |
| XmlExtraction.SetBeamNoLeafWrite | src/data_manipulation/ETL/xml_data_extractor.py:417-523 | the SetBeam statements write a leaf only from a parsing token of its bank |
| XmlExtraction.LinacLeafKept | src/data_manipulation/ETL/xml_data_extractor.py:489-516 | a leaf no token sets, because the token is missing, beyond the sixtieth or malformed, keeps its value |
| XmlExtraction.KindOfClasses | src/data_manipulation/ETL/xml_data_extractor.py:55-64 | each record class gets its own extraction by the lower-cased class name; image and base records get none |
| XmlExtraction.Extract | src/data_manipulation/ETL/xml_data_extractor.py:45-64 | an unsupported class raises TypeError and is left alone; the others are extracted as `Extraction` says |
| XmlExtraction.ScalarGets | src/data_manipulation/ETL/xml_data_extractor.py:541-551 | the printed getters are those of the fields, in order |
| XmlExtraction.PrintGetters | src/data_manipulation/ETL/xml_data_extractor.py:229-231 | the getters printed in order raise what the first failing one raises, or nothing |
| XmlExtraction.TestEModelExtraction | src/data_manipulation/ETL/xml_data_extractor.py:224-231 | the extraction's effect, and the exception of the first failing getter |
| XmlExtraction.TestXModelExtraction | src/data_manipulation/ETL/xml_data_extractor.py:301-309 | the extraction's effect, and the exception of the first failing getter |
| XmlExtraction.TestGeoModelExtraction | src/data_manipulation/ETL/xml_data_extractor.py:536-551 | the extraction's effect, and the exception of the first failing getter |
| XmlExtraction.ETestOutcome | src/data_manipulation/ETL/xml_data_extractor.py:229-231 | the e-test's getters pass exactly on photon and geometry records, so the e-test always fails on an `EBeamModel` |
| XmlExtraction.XTestOutcome | src/data_manipulation/ETL/xml_data_extractor.py:306-309 | the x-test's getters pass exactly on photon and geometry records |
| XmlExtraction.GeoTestOutcome | src/data_manipulation/ETL/xml_data_extractor.py:541-551 | the geometry test's getters pass exactly on geometry records |
| XmlExtraction.ExtractTest | src/data_manipulation/ETL/xml_data_extractor.py:66-85 | an unsupported class raises TypeError and is left alone; the others are tested as `Extraction` says |
| BeamValues.EBeamFolderIff | src/data_manipulation/ETL/ebeam_extractor.py:10-13 | the `16e` test adds nothing: a name is an e-beam one exactly when it holds `6e` or `BeamCheckTemplate` |
| BeamValues.Resolve | src/data_manipulation/ETL/ebeam_extractor.py:19-28 | the folder used is the path when it exists, else the fallback when that exists, else none |
| BeamValues.FloatOf | src/data_manipulation/ETL/ebeam_extractor.py:52 | `float(text.strip())` succeeds exactly when the stripped text is a number, with its value; otherwise ValueError |
| BeamValues.FirstXsiTyped | src/data_manipulation/ETL/ebeam_extractor.py:47-48 | the first element carrying the `xsi:type`, and none exactly when none carries it |
| BeamValues.FindFirstCheck | src/data_manipulation/ETL/ebeam_extractor.py:47-55 | the loop with its `break` finds the first check in document order |
| BeamValues.ProfileStep | src/data_manipulation/ETL/ebeam_extractor.py:49-54 | one child replaces the output or the uniformity only by its own tag, and only when it has text |
| BeamValues.ProfileOf | src/data_manipulation/ETL/ebeam_extractor.py:49-54 | the child loop's only exception is ValueError |
| BeamValues.ReadProfile | src/data_manipulation/ETL/ebeam_extractor.py:49-54 | the child loop computes `ProfileOf` of the check's children |
| BeamValues.PrefixError | src/data_manipulation/ETL/ebeam_extractor.py:49-54 | once a child raises, the loop raises the same |
| BeamValues.LastStep | src/data_manipulation/ETL/ebeam_extractor.py:49-54 | a completed loop ends with its last child's step |
| BeamValues.LastOutputWins | src/data_manipulation/ETL/ebeam_extractor.py:51-52 | the last non-empty `RelativeOutput` child decides the output |
| BeamValues.LastUniformityWins | src/data_manipulation/ETL/ebeam_extractor.py:53-54 | the last non-empty `RelativeUniformity` child decides the uniformity |
| BeamValues.NoOutputChild | src/data_manipulation/ETL/ebeam_extractor.py:43-54 | without a non-empty `RelativeOutput` child the output stays absent |
| BeamValues.OutputPercent | src/data_manipulation/ETL/ebeam_extractor.py:61 | the output percentage is zero exactly at relative output 1, and positive exactly above it |
| BeamValues.UniformityPercent | src/data_manipulation/ETL/ebeam_extractor.py:62 | the uniformity percentage has the sign of the relative uniformity |
| BeamValues.EFromRoot | src/data_manipulation/ETL/ebeam_extractor.py:43-64 | the two values are found together or not at all; the only exception is ValueError |
| BeamValues.EBeamValues | src/data_manipulation/ETL/ebeam_extractor.py:16-64 | the two values are found together or not at all; the only exceptions are ParseError and ValueError |
| BeamValues.ExtractEBeamValues | src/data_manipulation/ETL/ebeam_extractor.py:16-64 | the reader returns `EBeamValues` |
| BeamValues.EMissingResults | src/data_manipulation/ETL/ebeam_extractor.py:19-34 | a missing folder or Results.xml gives `(None, None)` without parsing anything |
| BeamValues.ENotEBeamFolder | src/data_manipulation/ETL/ebeam_extractor.py:36-38 | a non-e-beam folder gives `(None, None)` without reading its Results.xml |
| BeamValues.EParsed | src/data_manipulation/ETL/ebeam_extractor.py:40-64 | an e-beam folder whose Results.xml parses is read from that file alone |
| BeamValues.EMalformed | src/data_manipulation/ETL/ebeam_extractor.py:40 | a malformed Results.xml in an e-beam folder raises ParseError |
| BeamValues.EFromFirstCheck | src/data_manipulation/ETL/ebeam_extractor.py:47-64 | only the first profile check counts, and when it lacks either value the result is `(None, None)` |
| BeamValues.FirstCheckAt | src/data_manipulation/ETL/ebeam_extractor.py:47-55 | the first element carrying the type is the one the search returns |
| BeamValues.CoordStep | src/data_manipulation/ETL/xbeam_extractor.py:69-74 | a coordinate child replaces `X` or `Y` only by its own tag, and only when it has text |
| BeamValues.IsoStep | src/data_manipulation/ETL/xbeam_extractor.py:66-81 | `IsoCenter` updates only the isocentre pair and `BaselineIsoCenter` only the baseline pair; other children change nothing |
| BeamValues.ReadCoords | src/data_manipulation/ETL/xbeam_extractor.py:69-74 | the coordinate loop computes `CoordsOf` |
| BeamValues.CoordsPrefixError | src/data_manipulation/ETL/xbeam_extractor.py:69-74 | once a coordinate raises, the loop raises the same |
| BeamValues.ReadIso | src/data_manipulation/ETL/xbeam_extractor.py:64-82 | the jaw-edge loop, with its inner loops, computes `IsoOf` |
| BeamValues.IsoNext | src/data_manipulation/ETL/xbeam_extractor.py:66-81 | one more child of the jaw-edge loop |
| BeamValues.ReadIsoNext | src/data_manipulation/ETL/xbeam_extractor.py:66-81 | the loop's step reads the next child on top of the values so far |
| BeamValues.ReadIsoChild | src/data_manipulation/ETL/xbeam_extractor.py:67-81 | one jaw-edge child with its inner coordinate loop |
| BeamValues.IsoPrefixError | src/data_manipulation/ETL/xbeam_extractor.py:64-82 | once a child raises, the jaw-edge loop raises the same |
| BeamValues.ShiftSquaredZero | src/data_manipulation/ETL/xbeam_extractor.py:85-88 | the centre shift is never negative, and zero exactly when the isocentre is on its baseline |
| BeamValues.SqSign | src/data_manipulation/ETL/xbeam_extractor.py:88 | a square is never negative, and zero only for zero |
| BeamValues.ShiftOf | src/data_manipulation/ETL/xbeam_extractor.py:85-88 | the shift is computed exactly when all four coordinates were found, and is never negative |
| BeamValues.XFromRoot | src/data_manipulation/ETL/xbeam_extractor.py:43-97 | output and uniformity are found together or not at all; no shift without them; a shift is never negative; the only exception is ValueError |
| BeamValues.XBeamValues | src/data_manipulation/ETL/xbeam_extractor.py:16-97 | the same, with ParseError added for a malformed Results.xml |
| BeamValues.ExtractXBeamValues | src/data_manipulation/ETL/xbeam_extractor.py:16-97 | the reader returns `XBeamValues` |
| BeamValues.XNoResultsOrNotXBeam | src/data_manipulation/ETL/xbeam_extractor.py:19-38 | a missing Results.xml or a non-x-beam folder gives `(None, None, None)` without parsing anything |
| BeamValues.XParsed | src/data_manipulation/ETL/xbeam_extractor.py:40-97 | an x-beam folder whose Results.xml parses is read from that file alone |
| BeamValues.XMissingProfileValue | src/data_manipulation/ETL/xbeam_extractor.py:90-91 | a missing output or uniformity makes every value absent, even a shift that was found |
| BeamValues.XFound | src/data_manipulation/ETL/xbeam_extractor.py:85-97 | with both profile values, the result is their percentages and the first jaw-edge check's shift, present exactly when all four coordinates were found |
| BeamValues.XProfileRaises | src/data_manipulation/ETL/xbeam_extractor.py:48-56 | a profile value `float` rejects raises ValueError, even when the jaw-edge check is fine |
| Processing.FirstToken | src/data_manipulation/ETL/DataProcessor.py:35-98 | the branch taken is that of the first token found in the path, none exactly when no token occurs |
| Processing.FirstTokenWins | src/data_manipulation/ETL/DataProcessor.py:35-98 | a path takes the branch of token `k` exactly when it holds that token and none tested before it |
| Processing.SixteenEUnreachable | src/data_manipulation/ETL/DataProcessor.py:62-69 | every path holding `16e` holds `6e`, which is tested first, so the 16e branch is never taken |
| Processing.NoTokenUnknown | src/data_manipulation/ETL/DataProcessor.py:101-104 | a path with none of the tokens takes the unknown branch |
| Processing.RunElectron | src/data_manipulation/ETL/DataProcessor.py:35-41 | an electron branch builds a fresh `EBeamModel` and stops at `set_path` |
| Processing.RunPhoton | src/data_manipulation/ETL/DataProcessor.py:72-87 | a photon branch sets path, type and the stub date, then extracts |
| Processing.RunGeometry | src/data_manipulation/ETL/DataProcessor.py:91-97 | the geometry branch sets path, type "15x" and the parsed date, then runs the geometry test |
| Processing.DataProcessor.constructor | src/data_manipulation/ETL/DataProcessor.py:16-23 | the stored path is the folder with `\Results.csv` appended |
| Processing.DataProcessor.Run | src/data_manipulation/ETL/DataProcessor.py:26-104 | `Run` builds and fills the record of the branch its path takes |
| Processing.RunBranch | src/data_manipulation/ETL/DataProcessor.py:35-104 | the branch of the chain `Run` takes |
| Processing.ElectronRaises | src/data_manipulation/ETL/DataProcessor.py:35-69 | electron paths build an `EBeamModel` and stop with AttributeError before its type or date is set |
| Processing.PhotonTyped | src/data_manipulation/ETL/DataProcessor.py:72-87 | 10x and 15x paths build an `XBeamModel` typed by the token found, with the stored path and no date, and raise nothing |
| Processing.PhotonRunTyped | src/data_manipulation/ETL/DataProcessor.py:72-87 | a photon branch raises nothing and types the record by its token |
| Processing.GeometryDated | src/data_manipulation/ETL/DataProcessor.py:91-97 | a 6x path with a timestamp builds a `Geo6xfffModel` typed "15x", dated by the timestamp, and raises nothing |
| Processing.GeometryDatedRun | src/data_manipulation/ETL/DataProcessor.py:91-97 | the geometry branch on a dated path raises nothing and dates the record |
| Processing.GeometryUndated | src/data_manipulation/ETL/DataProcessor.py:94-96 | without a timestamp the date parser's ValueError stops `Run` after the path and the type "15x" are set |
| Processing.UnknownBuildsNothing | src/data_manipulation/ETL/DataProcessor.py:101-104 | a path with no token builds nothing and raises nothing |
| LegacyExtraction.LastTextAt | src/data_manipulation/scripts/Extractor.py:22-26 | the last element with the exact tag decides the value |
| LegacyExtraction.LastTextAbsent | src/data_manipulation/scripts/Extractor.py:22-26 | without an element carrying exactly the tag the value stays None |
| LegacyExtraction.NamespacedNeverMatch | src/data_manipulation/scripts/Extractor.py:23-26 | tags are compared exactly, so namespaced tags are never found |
| LegacyExtraction.ScanTags | src/data_manipulation/scripts/Extractor.py:18-26 | the loop leaves each variable with the text of the last element carrying its tag |
| LegacyExtraction.TextOp | src/data_manipulation/scripts/Extractor.py:29-33 | a setter call on raw text sets the parsed value, or raises InvalidOperation for text that is not a number |
| LegacyExtraction.TailPlan | src/data_manipulation/scripts/Extractor.py:29-33 | the uniformity setter runs first when a uniformity text was found, then the output setter when an output text was found |
| LegacyExtraction.TailOnEBeam | src/data_manipulation/scripts/Extractor.py:29-33 | on an `EBeamModel`, two numeric texts end up converted in the two fields |
| LegacyExtraction.TwoSetters | src/data_manipulation/scripts/Extractor.py:29-33 | the two setters on an `EBeamModel` set the two fields |
| LegacyExtraction.TailBadUniformity | src/data_manipulation/scripts/Extractor.py:29-30 | a uniformity text that is not a number stops the tail before any setter runs |
| LegacyExtraction.TailNothingFound | src/data_manipulation/scripts/Extractor.py:29-33 | nothing found, nothing set |
| LegacyExtraction.EModelExtraction | src/data_manipulation/scripts/Extractor.py:5-40 | `getPath()` exists on no record class, so the record is left as it was |
| LegacyExtraction.TestEModelExtraction | src/data_manipulation/scripts/Extractor.py:42-74 | the test stops at the same call and never sets anything |
| LegacyExtraction.XModelExtraction | src/data_manipulation/scripts/Extractor.py:77-82 | the x-beam extraction changes nothing |
| LegacyExtraction.GeoModelExtraction | src/data_manipulation/scripts/Extractor.py:84-89 | the geometry extraction changes nothing |
| Uploading.IsoText | src/data_manipulation/ETL/Uploader.py:58 | a valid date's text is its ISO form, 19 characters long |
| Uploading.ConvertValue | src/data_manipulation/ETL/Uploader.py:45-59 | a decimal becomes a float of the same value, a date its ISO text, and anything else passes through |
| Uploading.NamesMember | src/data_manipulation/ETL/Uploader.py:91-98 | a column is in the literal's keys exactly when some entry carries it |
| Uploading.Evaluate | src/data_manipulation/ETL/Uploader.py:91-98 | each entry of the literal is paired with what its getter returns on the record |
| Uploading.EvaluateNames | src/data_manipulation/ETL/Uploader.py:91-98 | evaluating the getters keeps the columns |
| Uploading.Literal | src/data_manipulation/ETL/Uploader.py:91-98 | a built dictionary has exactly the literal's columns |
| Uploading.LiteralOk | src/data_manipulation/ETL/Uploader.py:91-98 | a literal whose getters all return builds its dictionary |
| Uploading.LiteralFirstError | src/data_manipulation/ETL/Uploader.py:91-98 | the exception of a failing literal is that of its first failing getter |
| Uploading.LiteralValue | src/data_manipulation/ETL/Uploader.py:91-98 | each column holds the converted value of its own getter |
| Uploading.ScalarEntries | src/data_manipulation/ETL/Uploader.py:193-273 | each measurement column is paired with its own getter |
| Uploading.ScalarEntriesOnGeo | src/data_manipulation/ETL/Uploader.py:193-273 | a group of measurements never raises on a geometry record with all its scalars |
| Uploading.ScalarEntriesColumns | src/data_manipulation/ETL/Uploader.py:193-273 | a group of measurements fills measurement columns only |
| Uploading.InvalidTypeRejected | src/data_manipulation/ETL/Uploader.py:83-85 | a type outside the valid list raises ValueError before any getter is called |
| Uploading.EColumnsOfGets | src/data_manipulation/ETL/Uploader.py:91-98 | the electron getters fill date, path, uniformity and output |
| Uploading.XColumnsOfGets | src/data_manipulation/ETL/Uploader.py:144-152 | the photon getters fill date, path, uniformity, output and centre shift |
| Uploading.BeamUploadShape | src/data_manipulation/ETL/Uploader.py:80-98 | an accepted row goes to `beam_<type>` and holds `beam_type`, the getters' columns and `uploaded_at` |
| Uploading.EUploadShape | src/data_manipulation/ETL/Uploader.py:78-102 | an accepted electron row goes to `beam_<type>` with exactly its six columns, its type and its upload stamp |
| Uploading.XUploadShape | src/data_manipulation/ETL/Uploader.py:131-166 | an accepted photon row goes to `beam_<type>` with the six columns and `center_shift` |
| Uploading.EUploadOnEBeam | src/data_manipulation/ETL/Uploader.py:94 | `EBeamUploader` cannot upload an `EBeamModel`: with a valid type, `get_path` raises AttributeError |
| Uploading.XEntries | src/data_manipulation/ETL/Uploader.py:144-152 | the photon getters return an `XBeamModel`'s own fields |
| Uploading.XLiteral | src/data_manipulation/ETL/Uploader.py:144-152 | the photon literal builds the row of the record's date, path and three measurements as floats |
| Uploading.XUploadOnXBeam | src/data_manipulation/ETL/Uploader.py:131-166 | an `XBeamModel` with a valid type uploads `beam_type`, its fields and `uploaded_at` to `beam_<type>` |
| Uploading.LeafNameInjective | src/data_manipulation/ETL/Uploader.py:233 | distinct leaves have distinct keys |
| Uploading.LeafNamesCount | src/data_manipulation/ETL/Uploader.py:231-235 | the keys of `lo` .. `hi - 1` number `hi - lo` |
| Uploading.UploadLeafKeysExact | src/data_manipulation/ETL/Uploader.py:231-235 | each uploaded dictionary has 40 distinct keys, and a leaf outside 11 .. 50 is never among them |
| Uploading.LeafPair | src/data_manipulation/ETL/Uploader.py:233-235 | one turn reads both dictionaries' leaf, converted, raising the first getter's exception |
| Uploading.LeafDictsErrorStays | src/data_manipulation/ETL/Uploader.py:231-235 | once a getter has raised, the loop's outcome is that exception |
| Uploading.LeafDictsKeys | src/data_manipulation/ETL/Uploader.py:231-235 | the dictionaries hold exactly the leaves read so far |
| Uploading.LeafDictsValues | src/data_manipulation/ETL/Uploader.py:231-235 | each leaf holds the converted value its getter returns |
| Uploading.LeafDictsStep | src/data_manipulation/ETL/Uploader.py:231-235 | one turn of the loop adds leaf `i` to both dictionaries, or ends the loop with the getter's exception |
| Uploading.LeafDictsOk | src/data_manipulation/ETL/Uploader.py:231-235 | getters that all return fill both dictionaries |
| Uploading.LeafReaderOnGood | src/data_manipulation/ETL/Uploader.py:233-235 | on a well-formed geometry record no leaf getter of 11 .. 50 raises |
| Uploading.LeafDictsOnGood | src/data_manipulation/ETL/Uploader.py:231-250 | so on such a record both loops run to their end |
| Uploading.LeafPart | src/data_manipulation/ETL/Uploader.py:238-257 | a leaf loop fills exactly its two columns |
| Uploading.GeoRowOk | src/data_manipulation/ETL/Uploader.py:193-315 | a geometry record with all its scalars, whose leaf getters all return, builds its row |
| Uploading.GeoRowLeafColumns | src/data_manipulation/ETL/Uploader.py:231-315 | a built row holds, in each leaf column, what its leaf loop produced |
| Uploading.MergeLeafColumns | src/data_manipulation/ETL/Uploader.py:276-315 | joining the parts of the row keeps the leaf columns of the two loops |
| Uploading.GoodGeo | src/data_manipulation/models/Geo6xfffModel.py:7-65 | a well-formed geometry record has every scalar, and every leaf getter of 11 .. 50 returns |
| Uploading.MetaOnGeo | src/data_manipulation/ETL/Uploader.py:276-315 | `get_date` and `get_path` raise nothing on a geometry record and fill their two columns |
| Uploading.MetaColumns | src/data_manipulation/ETL/Uploader.py:276-315 | the final literal fills only the date and path columns |
| Uploading.GeoUploadOnGeo | src/data_manipulation/ETL/Uploader.py:185-323 | a well-formed geometry record always uploads, whatever its type, to `beam_6x`; each leaf column holds the dictionary its loop read |
| Uploading.GeoUploadOnReady | src/data_manipulation/ETL/Uploader.py:185-323 | the same for a geometry record with all its scalars whose leaf getters all return |
| Uploading.LeafPartValue | src/data_manipulation/ETL/Uploader.py:238-257 | the columns a leaf loop fills hold its two dictionaries |
| Uploading.GeoUploadRow | src/data_manipulation/ETL/Uploader.py:276-323 | a built row is uploaded to `beam_6x` between `beam_type` and `uploaded_at` |
| Uploading.FrameLeafColumns | src/data_manipulation/ETL/Uploader.py:276-315 | the type and the upload stamp around a row leave its leaf columns alone |
| Uploading.GeoLeavesOnGeo | src/data_manipulation/ETL/Uploader.py:231-250 | the uploaded dictionaries of a well-formed geometry record hold exactly leaves 11 .. 50 |
| Uploading.GeoUploadOnOther | src/data_manipulation/ETL/Uploader.py:193-197 | any other record raises AttributeError at the first getter, `get_IsoCenterSize` |
| Uploading.ReadLeafPair | src/data_manipulation/ETL/Uploader.py:233-235 | one turn of a leaf loop on the record returns `LeafPair` of its getters |
| Uploading.ExtendLeaves | src/data_manipulation/ETL/Uploader.py:231-235 | one turn extends the dictionaries to leaf `i`, or returns the loop's final exception |
| Uploading.CollectLeaves | src/data_manipulation/ETL/Uploader.py:231-235 | the `for i in range(11, 51)` loop on the record computes `LeafDicts` |
| Uploading.LeafColumns | src/data_manipulation/ETL/Uploader.py:231-257 | a leaf loop and the two columns it fills compute `LeafPart` |
| Uploading.BuildGeoRow | src/data_manipulation/ETL/Uploader.py:187-315 | the row built part by part in the source's order is `GeoRow` of the record |
| Uploading.Uploader.constructor | src/data_manipulation/ETL/Uploader.py:30-43 | a new uploader has inserted nothing |
| Uploading.Uploader.EBeamUploader | src/data_manipulation/ETL/Uploader.py:78-112 | the exception is the upload's, and one row is inserted exactly when the upload is accepted |
| Uploading.Uploader.XBeamUploader | src/data_manipulation/ETL/Uploader.py:131-166 | the exception is the upload's, and one row is inserted exactly when the upload is accepted |
| Uploading.Uploader.GeoBeamUploader | src/data_manipulation/ETL/Uploader.py:185-330 | the parts of the row in the source's order; the first exception ends the upload, and otherwise one row is inserted |

## Left out

- File reading, parsing, listing and existence checks are inputs. `csv.DictReader`'s rows, parsed XML trees, folder listings and the set of existing folders are parameters; XML text parsing itself is not modelled.
- `print`, `logger` and the "Error: ..." messages are left out: they have no effect on the records or return values.
- The database client is a list of `(table, row)` values; connecting and the response object are left out, and JSON text serialisation (`json.dumps`) of the leaf dictionaries is left as a map value.
- Uploading.GeoRow: the uploaded leaf dictionaries are keyed by leaf number rather than by the `leaf_<i>` text; `LeafNameInjective` shows this loses nothing.
- `datetime.now()` is the `now` parameter.
- Uploading.ConvertValue: `float(Decimal)` rounding to a binary float is not modelled; the float is the decimal's exact value.
- BeamValues.ShiftOf: `math.sqrt` is not modelled; the model returns the squared centre shift, and the lemmas about it state sign and zero only.
- BeamValues.FloatOf: `float` is modelled on the decimal-literal grammar `Decimal` accepts; `inf`, `nan` and digit underscores are not.
- NaN and the infinities of `Decimal` are not modelled: `Decimal` values are finite.
- `_find_element` and `_find_all_elements` of `ETL/xml_data_extractor.py` are never called and are not modelled; `ET.register_namespace` has no effect on the lookups and is left out.
- The fallback folder of the stand-alone readers, derived from `__file__`, is the `alt` parameter.
- `Processing.DataProcessor.Run`: the records it builds are local to the Python method; the model returns the last one as `built`.
- Uploading.IsoText: a date that names no real date and time gives the empty text; Python cannot build one.
- `Uploader` does not pass `file_path` through the conversion; the model keeps the string as it is, which is what the conversion would give.
- `str.strip`, `str.split`, `str.isspace`, digits and `str.lower` are modelled on ASCII only.
- PyDecimal.Parse: digit grouping with underscores (`Decimal("1_000")`, which Python accepts) is rejected as malformed.
- Text.ParseInt: digit grouping with underscores (`int("1_000")`, which Python accepts) is rejected, so such a leaf name yields no index.
- Text.Basename: only POSIX paths are modelled; '/' is the one separator and a backslash is an ordinary character.
- XmlExtraction.Join: `os.path.join` is modelled as on POSIX; `src/data_manipulation/ETL/DataProcessor.py:22` joins with a literal backslash, which the model keeps as the literal suffix of `Processing.ResultsSuffix`.
- BeamValues.OutputPercent: computed on exact reals; binary float rounding of the Python division is not modelled.
- BeamValues.UniformityPercent: computed on exact reals; binary float rounding of the Python division is not modelled.
- The image analysis scripts and `ImageModel`'s pixel data are not part of this model; `ImageModel.set_image` stores an opaque value.
- The `__main__` blocks of `ETL/ebeam_extractor.py` and `ETL/xbeam_extractor.py` only format and print and are left out.
