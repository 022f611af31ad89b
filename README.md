# snapista, modelled in Dafny

snapista is a Python wrapper around gpt, the Graph Processing Tool of ESA's
SNAP toolbox. The Python code does three things:

- Operator classes (Subset, Resample, Collocate and the rest) each turn their
  settings into a `<parameters>` XML element.
- A `Graph` chains operators into a linear gpt graph and builds an output
  suffix from their short names.
- A `GPT` object checks the gpt executable, writes the graph to a temporary
  folder and runs gpt on each input. Sentinel-3 inputs are first rewritten to
  their manifest file.

The model has one Dafny module per source file, plus four helper modules:
`Wrappers` (Option and Result), `Text` (Python's `join`, `split`, `in`,
`str(int)`, `lower` on ASCII letters), `Paths` (`pathlib.PurePosixPath`) and `Xml` (an element
tree and the children of a `<parameters>` element).

How the source's shapes map to Dafny:

- An operator whose fields are only read is a `datatype` with its defaults and
  an `Emit` function.
- The two operators whose methods change their state in place, `_reproject.py`
  and `_band_maths.py`, are classes. So is the `Graph`.
- Each emitter has a `Decode` partner. A lemma proves that decoding the
  emission gives the fields back, or says exactly what is lost.
- The graph has a chain invariant, `Graph.Chained`, which every successful
  `add_node` preserves.
- A run of gpt is the list of outside effects it causes. The effects are
  creating the output folder, extracting an archive, writing the graph file and
  calling gpt. The temporary folder and the outcome of the `gpt -h` probe are
  parameters.

Where the code and its documentation disagree, the model follows the code:

- `GPT.__init__` turns only `AssertionError` and `PermissionError` into
  `ValueError`. A non-zero exit of `gpt -h` raises `CalledProcessError`, and a
  missing file raises `FileNotFoundError`. Both propagate unchanged.
- `run_iter` catches nothing. It ignores gpt's exit status, and a Python error
  in one run stops the batch.
- The output name is computed from the original input path, before the
  Sentinel-3 rewriting.
- The `Reproject` docstring says gpt is called with the needed source once
  `collocate_with` is set, but `run` passes only `-Ssource=`. Nothing in
  `gpt.py` reads the graph's additional sources, so `${collocateWith}` is
  never given a value on the command line.

The functions that compute what the source computes are stated through
the lemmas in the table. Each operator's `Emit` is specified by its
`Emission`, `DefaultEmission` and `DecodeEmit` lemmas. `Graph.AddStep`,
`AutoId`, `StepId` and `MandatorySource` are specified by `AddStepChained`,
`AddStepRuns`, `AppendOnly`, `StepRecords`, `FailedStep`, `SuffixGrowth`,
`AutoIdReadBack` and `RepeatedAutoIds`. `Gpt.OutputName` and `OutputFile` are
specified by `OutputNameParts`, `DotStemCut` and `NoDotOutputFile`.
`Gpt.NormalizeInput` is specified by `NormalizeZip`, `NormalizeSen3` and
`NormalizeOther`. `Gpt.Command`, `CommandFor` and `RunEffects` are specified
by `EffectsShape`, `RunShape` and `CallsInOrder`. `Paths.ToString`, `Name`,
`Stem` and the two `Matches` tests are specified by `ParseToString`,
`LastPieceOfString`, `ZipStem` and `MatchesDisjoint`. `Text.Join` is specified
by `JoinSplit` and `SplitJoin`.

## Model

| member | source | states |
|---|---|---|
| OperatorBase.Operator.constructor | snapista/operators/operator.py:12-20 | name and short name are stored as given; the mandatory source is `source`; there are no additional sources; `repr` is the name |
| OperatorBase.Operator.GetParametersAsXmlNode | snapista/operators/operator.py:29-31 | the base class always raises `NotImplementedError` |
| Subset.NewOperator | snapista/operators/_subset.py:33-34 | the operator is `Subset` with short name `Subset`, source `source` and no additional sources |
| Subset.Emission | snapista/operators/_subset.py:45-78 | the band lists are emitted only when non-empty; the reference band and region only when set; sub-sampling and the two flags always, as `str()` and `true`/`false`; all in source order |
| Subset.DefaultEmission | snapista/operators/_subset.py:33-78 | a new Subset emits exactly subSamplingX=1, subSamplingY=1, fullSwath=false, copyMetadata=false |
| Subset.DecodeLookups | snapista/operators/_subset.py:45-78 | any children whose lookups give the emitted texts decode to the fields |
| Subset.DecodeEmit | snapista/operators/_subset.py:45-78 | decoding the emission gives every field back when no listed name holds a comma |
| BandSelect.NewOperator | snapista/operators/_band_select.py:24-25 | the operator is `BandSelect` with its short name and source `source` |
| BandSelect.Emission | snapista/operators/_band_select.py:31-48 | polarisations and source bands are emitted only when non-empty, the pattern only when set, in source order |
| BandSelect.DefaultEmission | snapista/operators/_band_select.py:24-48 | a new BandSelect emits no children |
| BandSelect.DecodeEmit | snapista/operators/_band_select.py:31-48 | the emission decodes back to the fields when no listed name holds a comma |
| AddLandCover.NewOperator | snapista/operators/_add_land_cover.py:23-24 | the operator is `AddLandCover` with no short name, so it adds nothing to the suffix |
| AddLandCover.AvailableLandCoverNames | snapista/operators/_add_land_cover.py:31-57 | the 20 land-cover names the source lists |
| AddLandCover.AvailableResamplingMethods | snapista/operators/_add_land_cover.py:60-73 | the 7 resampling methods the source lists |
| AddLandCover.DefaultsAvailable | snapista/operators/_add_land_cover.py:26-73 | the default land-cover name and resampling method are on the lists of available values |
| AddLandCover.Emission | snapista/operators/_add_land_cover.py:75-91 | both lists are emitted only when non-empty and joined by commas; the resampling method is always emitted; in source order |
| AddLandCover.DefaultEmission | snapista/operators/_add_land_cover.py:23-91 | a new AddLandCover emits its default land-cover name and `NEAREST_NEIGHBOUR` |
| AddLandCover.DecodeEmit | snapista/operators/_add_land_cover.py:75-91 | the emission decodes back to the fields when no listed name holds a comma |
| AddElevation.NewOperator | snapista/operators/add_elevation.py:25-26 | the operator is `AddElevation` with short name `elev` |
| AddElevation.AvailableDemNames | snapista/operators/add_elevation.py:35-50 | the 9 DEM names the source lists |
| AddElevation.AvailableDemResamplingMethods | snapista/operators/add_elevation.py:53-66 | the 7 resampling methods the source lists |
| AddElevation.DefaultMethodAvailable | snapista/operators/add_elevation.py:29-66 | the default resampling method is an available one |
| AddElevation.DefaultDemNameNotListed | snapista/operators/add_elevation.py:28-50 | the default DEM name `SRTM 3Sec` is not on the list, which has `SRTM 3sec` |
| AddElevation.CorrectedDemNames | snapista/operators/add_elevation.py:35-50 | the list with its last entry spelt as the default spells it; all other entries are the same |
| AddElevation.DefaultDemNameCorrected | snapista/operators/add_elevation.py:28-50 | the default DEM name is on the corrected list |
| AddElevation.Emission | snapista/operators/add_elevation.py:68-89 | DEM name and method come first; the external file and its no-data value are emitted only when a file is set; the band name is always last |
| AddElevation.DefaultEmission | snapista/operators/add_elevation.py:25-89 | a new AddElevation emits the DEM name, the method and `elevation` |
| AddElevation.DecodeEmit | snapista/operators/add_elevation.py:68-89 | the emission loses only a no-data value that has no external file |
| Resample.NewOperator | snapista/operators/resample.py:37-40 | the operator is `Resample` with short name `resampled` and mandatory source `sourceProduct` |
| Resample.Emission | snapista/operators/resample.py:51-81 | with a reference band only it is emitted; without one, all three target sizes are emitted, as `str()` of the value or `None` |
| Resample.EmissionTail | snapista/operators/resample.py:69-79 | upsampling, downsampling, flagDownsampling and resampleOnPyramidLevels always close the emission, in this order |
| Resample.DefaultTexts | snapista/operators/resample.py:42-49 | the texts of a new Resample, with `None` for each size |
| Resample.DefaultEmission | snapista/operators/resample.py:37-81 | a new Resample emits the three sizes as `None` and then the four defaults |
| Resample.DecodeEmit | snapista/operators/resample.py:51-81 | the emission loses only the target sizes that a reference band overrides |
| Collocate.NewOperator | snapista/operators/collocate.py:54-55 | the operator is `Collocate` with short name `Collocate` |
| Collocate.Emit | snapista/operators/collocate.py:66-98 | the emitter raises `AssertionError` exactly when there is no master product name or no source path |
| Collocate.Emission | snapista/operators/collocate.py:66-98 | a ready collocation emits all eight children in source order, with the paths comma-joined and the flags as `true`/`false` |
| Collocate.DefaultFails | snapista/operators/collocate.py:54-70 | a new Collocate cannot emit its parameters |
| Collocate.ParsedRendered | snapista/operators/collocate.py:75 | well-formed paths without commas, once rendered and comma-joined, parse back to the same paths |
| Collocate.DecodeEmit | snapista/operators/collocate.py:66-98 | a ready emission decodes back to every field |
| LandSeaMask.NewOperator | snapista/operators/land_sea_mask.py:32-33 | the operator is `Land-Sea-Mask` with short name `masked` |
| LandSeaMask.Emit | snapista/operators/land_sea_mask.py:42-68 | the emitter raises `AssertionError` exactly when the geometry is empty and SRTM is off |
| LandSeaMask.Emission | snapista/operators/land_sea_mask.py:48-51 | the source bands are emitted only when there are some, and come first |
| LandSeaMask.EmissionTail | snapista/operators/land_sea_mask.py:53-66 | the five settings always close the emission, in this order, with the flags as `true`/`false` |
| LandSeaMask.DefaultEmission | snapista/operators/land_sea_mask.py:32-68 | a new LandSeaMask masks land by SRTM and emits exactly its five default settings |
| LandSeaMask.DecodeEmit | snapista/operators/land_sea_mask.py:42-68 | a ready emission decodes back to every field when no band name holds a comma |
| LegacyReproject.NewOperator | snapista/operators/reproject.py:30-31 | the operator is `Reproject` with short name `Reprojected` and no additional sources |
| LegacyReproject.Emission | snapista/operators/reproject.py:38-55 | exactly the four children crs, resampling, includeTiePointGrids, addDeltaBands, with crs always present |
| LegacyReproject.DecodeEmit | snapista/operators/reproject.py:38-55 | the emission loses no field |
| Reproject.Reproject.constructor | snapista/operators/_reproject.py:33-41 | the defaults: CRS `EPSG:4326`, `Nearest`, tie-point grids on, delta bands off, no collocation product |
| Reproject.Reproject.SetCollocateWith | snapista/operators/_reproject.py:47-61 | the product is recorded and the CRS cleared; additional sources become only the `collocateWith` source; nothing else changes; `crs` is no longer emitted |
| Reproject.Emission | snapista/operators/_reproject.py:63-85 | the CRS is emitted only when set; the other three settings always follow, in source order |
| Reproject.DecodeEmit | snapista/operators/_reproject.py:63-85 | the emission decodes back to the four current settings |
| Reproject.DefaultEmission | snapista/operators/_reproject.py:33-85 | a new Reproject emits the default CRS, `Nearest` and the two flags |
| Reproject.CollocatedEmission | snapista/operators/_reproject.py:47-85 | after collocation the emission has no `crs`, and the only additional source is `collocateWith` |
| BandMaths.BandMaths.constructor | snapista/operators/_band_maths.py:35-38 | the operator is `BandMaths` and has no target bands |
| BandMaths.BandMaths.AddTargetBand | snapista/operators/_band_maths.py:40-43 | appends exactly one band with the given fields and defaults |
| BandMaths.BandMaths.GetParametersAsXmlNode | snapista/operators/_band_maths.py:45-75 | the element built in its loop is the `Node` of the current bands |
| BandMaths.NodeShape | snapista/operators/_band_maths.py:45-51 | `<parameters>` always holds `targetBands` and an empty `variables`, and one `targetBand` per band |
| BandMaths.NodeAppend | snapista/operators/_band_maths.py:40-75 | adding a band adds one `targetBand` at the end and leaves the others unchanged |
| BandMaths.BandEmission | snapista/operators/_band_maths.py:64-70 | description and unit are emitted only when set |
| BandMaths.BandHead | snapista/operators/_band_maths.py:55-62 | name, type and expression always come first, in this order |
| BandMaths.BandTail | snapista/operators/_band_maths.py:72-73 | the no-data value always comes last, as `str()` of the value |
| BandMaths.DefaultBandEmission | snapista/operators/_band_maths.py:40-75 | a band given only a name and an expression emits type `float32` and no-data `NaN` |
| BandMaths.DecodeBandElement | snapista/operators/_band_maths.py:52-73 | a band element decodes back to the band |
| Graph.Graph.constructor | snapista/graph.py:14-28 | a new graph is `graph` with `version` 1.0, no ids, an empty suffix and no additional sources |
| Graph.Graph.AddNode | snapista/graph.py:33-74 | the new state is `AddStep` of the old one; the emitter's error is raised after the node and sources were added |
| Graph.Graph.Save | snapista/graph.py:76-85 | the whole tree is written to the file |
| Graph.CollectSources | snapista/graph.py:53-66 | the loop yields the mandatory source and then each additional source's element, in order; the map is `Merge` of the sources |
| Graph.CountContaining | snapista/graph.py:42-43 | the count of ids that contain the name is at most the number of ids |
| Graph.MergeLastWins | snapista/graph.py:63-66 | the last entry for a name decides its recorded value |
| Graph.MergeKeeps | snapista/graph.py:63-66 | a name no entry mentions keeps its old value, or stays absent |
| Graph.InitialChained | snapista/graph.py:14-28 | a new graph satisfies the chain invariant |
| Graph.AddStepChained | snapista/graph.py:33-74 | a successful step keeps the chain invariant: node `i` has id `ids[i]`; the first reads `${source}`; each later one reads its predecessor's id |
| Graph.AppendOnly | snapista/graph.py:46-72 | `add_node` only appends: earlier nodes, ids and the version element stay as they were |
| Graph.SuffixGrowth | snapista/graph.py:73-74 | the suffix grows by `_` plus the lower-cased short name, or not at all |
| Graph.AddStepRuns | snapista/graph.py:46-70 | a successful step appends a node running its operator whose `sources` hold the mandatory source and then the additional source elements in list order, followed by exactly the step's parameter subtree; earlier nodes are unchanged |
| Graph.BuildShape | snapista/graph.py:33-74 | after `n` calls there are `n` chained nodes in call order; node `i` runs step `i`'s operator; its sources are `<mandatory source name>${source}` for the first node (`source`, or `sourceProduct` for Resample) and a `sourceProduct` reference to the node before otherwise, followed by the step's additional source elements in order; the node's last and only other child is step `i`'s parameter subtree; the suffix lists the short names in order |
| Graph.StepRecords | snapista/graph.py:72-74 | a successful step records its id and its suffix token |
| Graph.FailedStep | snapista/graph.py:46-70 | when the emitter raises, the node is appended without parameters and the sources are merged, but no id or suffix is recorded; the chain invariant is then broken |
| Graph.PrefixContains | snapista/graph.py:43 | an id starting with the name contains it |
| Graph.AutoIdsFromNew | snapista/graph.py:42-44 | the first automatic id is the name plus `0`; after one id holding the name, it is the name plus `1` |
| Graph.TwoAutoSteps | snapista/graph.py:42-74 | two automatic steps of one operator get `<name>0` and `<name>1`, and the suffix names the operator twice |
| Graph.AutoIdReadBack | snapista/graph.py:42-44 | an automatic id is the operator name followed by digits that read back as the number of earlier ids containing the name |
| Graph.CountAllContaining | snapista/graph.py:43 | when every id starts with the name, every id is counted |
| Graph.AutoIdAfterNumbered | snapista/graph.py:42-44 | after the ids `<name>0` to `<name><n-1>`, the next automatic id is `<name><n>` |
| Graph.BuildIds | snapista/graph.py:72 | the last call of a build records its step's id after the earlier ones |
| Graph.BuildStepIds | snapista/graph.py:42-72 | the ids a build records are `StepIds` of its calls: each explicit id verbatim, each other one the automatic id of the ids before it |
| Graph.RepeatedStepIds | snapista/graph.py:42-44 | `k` calls of one operator without explicit ids choose the ids `<name>0` to `<name><k-1>` |
| Graph.RepeatedAutoIds | snapista/graph.py:33-74 | in a new graph, `k` steps of one operator without explicit ids get the ids `<name>0` to `<name><k-1>`, in order |
| Graph.IdsCanCollide | snapista/graph.py:42-44 | an explicit id `<name>1` and the next automatic id coincide; ids are not checked for uniqueness |
| Gpt.Create | snapista/gpt.py:24-43 | success holds exactly when `gpt -h` exits with 0 and starts with the usage banner; a refusal or a wrong banner gives `ValueError('<path> is not gpt!')`; a non-zero exit and a missing file propagate |
| Gpt.ReprCreate | snapista/gpt.py:35-46 | `repr` of a created wrapper is its path as written, and parsing it gives the path back |
| Gpt.BaseName | snapista/gpt.py:100 | the last `/`-piece holds no slash |
| Gpt.DotStemCut | snapista/gpt.py:105 | dropping the last `.`-segment is the prefix before the last dot, or empty without a dot |
| Gpt.OutputFilePart | snapista/gpt.py:105 | the output file name is a single path part |
| Gpt.OutputNameParts | snapista/gpt.py:98-107 | the output path is the folder with one more part: the input's name without its last suffix, then the graph suffix, `.` and the extension |
| Gpt.NoDotOutputFile | snapista/gpt.py:105 | an input without a dot gives just the suffix, `.` and the extension |
| Gpt.MatchesDisjoint | snapista/gpt.py:66-75 | the zip test and the SEN3 test never both pass |
| Gpt.ZipStem | snapista/gpt.py:72 | the stem of a `*S3*.zip` name is the name without `.zip` |
| Gpt.ZipFolderPart | snapista/gpt.py:72 | the extracted product folder is a single part |
| Gpt.ManifestPart | snapista/gpt.py:72-77 | dividing by the manifest name adds exactly that part |
| Gpt.NormalizeZip | snapista/gpt.py:66-72 | a `*S3*.zip` input becomes `<temp>/<stem>.SEN3/xfdumanifest.xml` |
| Gpt.NormalizeSen3 | snapista/gpt.py:75-77 | a `*S3*.SEN3` folder becomes the manifest inside it |
| Gpt.NormalizeOther | snapista/gpt.py:66-77 | any other input is passed on unchanged |
| Gpt.GraphFileDiv | snapista/gpt.py:62-63 | the graph file is `Path(temp_dir) / 'graph.xml'` |
| Gpt.Run | snapista/gpt.py:48-82 | the effects of `run` are its reference `RunEffects`: create the output folder, extract a Sentinel-3 archive, write the graph, call gpt with the normalised input |
| Gpt.EffectsShape | snapista/gpt.py:48-82 | a run creates the folder first, extracts only when given an archive, writes the graph second to last, and calls gpt exactly once, last |
| Gpt.RunShape | snapista/gpt.py:64-82 | a run extracts exactly when the input is a Sentinel-3 zip, and its one call is its command line |
| Gpt.AdditionalSourcesUnused | snapista/gpt.py:82 | the command line has one source option, `-Ssource=` with the normalised input, then `-t`; the graph's additional sources do not change a run |
| Gpt.CallsAppend | snapista/gpt.py:84-96 | the calls of joined effect lists are the calls of each, in order |
| Gpt.Batch | snapista/gpt.py:95-96 | one run per input, in list order |
| Gpt.BatchAt | snapista/gpt.py:95-96 | run `i` of a batch is the run of input `i` |
| Gpt.Runs | snapista/gpt.py:84-96 | one run per input, each in its own temporary folder |
| Gpt.RunsAt | snapista/gpt.py:95-96 | run `i` is `run` of input `i` |
| Gpt.FlattenStep | snapista/gpt.py:95-96 | one more loop pass appends that run's effects |
| Gpt.RunIter | snapista/gpt.py:84-96 | the loop's effects are those of every run, in input order |
| Gpt.FlattenCalls | snapista/gpt.py:84-96 | the calls of all runs are each run's call, in order |
| Gpt.CallsInOrder | snapista/gpt.py:84-96 | `run_iter` calls gpt exactly once per input, in input order, each with that input's command line |
| Paths.Parse | snapista/gpt.py:59 | `PurePosixPath(s)` is well formed: a POSIX anchor and non-empty parts without slashes or `.` |
| Paths.ParseToString | snapista/gpt.py:59 | parsing the written form of a path gives the path back |
| Paths.LastPieceOfString | snapista/gpt.py:100 | the last `/`-piece of `str(path)` is the path's name, or `.` or empty for an empty path |
| Paths.Div | snapista/gpt.py:62-63 | `/` with any right operand gives a well-formed path |
| Paths.DivPart | snapista/gpt.py:63 | dividing by one well-formed part appends exactly that part |
| Text.Split | snapista/gpt.py:100 | `s.split(c)` gives at least one piece, and no piece holds the separator |
| Text.Lower | snapista/graph.py:74 | lower-casing keeps the length and lower-cases each ASCII letter in place |
| Text.JoinSplit | snapista/gpt.py:100 | splitting and rejoining with the same separator gives the string back |
| Text.SplitJoin | snapista/operators/_subset.py:52 | comma-joined items without commas split back into the same items |
| Text.IntRoundTrip | snapista/operators/_subset.py:63 | `str(int)` reads back as the same integer |
| Text.ContainsAt | snapista/graph.py:43 | `name in id` holds exactly when `name` occurs at some position of `id` |
| Xml.LookupPresent | snapista/operators/_subset.py:45-78 | in an emission with distinct tags, each tag reads back its own text, or nothing when it was left out |
| Xml.PresentInOrder | snapista/operators/_subset.py:45-78 | the emitted children keep the order of the `SubElement` calls |
| Xml.UnlistedListed | snapista/operators/_subset.py:50-52 | a list emitted only when non-empty, read back by splitting on commas, is the list again |

## Left out

- Text.Lower: only the ASCII letters `A` to `Z` are lower-cased. Python's `str.lower()`, which the suffix uses, also lower-cases other Unicode letters, so a short name such as `É` would give `_é` in Python and `_É` here.
- Gpt.Create: the probe's standard output arrives as text. A `gpt -h` output that is not valid UTF-8 makes `stdout.decode()` raise a `UnicodeDecodeError`, which the code does not catch; the model has no outcome for that case.

- Pretty-printing and serialising the XML (`lxml.etree.tostring`) is left out. The model keeps the tree itself, and `save` returns the tree and the file it would be written to.
- File system, processes and logging are left out. `gpt -h`, `mkdir`, `zipfile.extractall`, `tempfile.TemporaryDirectory`, the gpt call and its exit status become parameters or `Effect` values. The temporary folders are inputs to `Run` and `RunIter`.
- `mkdir` on an existing folder is left out: `exist_ok=True` makes it harmless, and a missing parent folder, which would raise, is not modelled.
- Floating-point values are left out: `no_data_value` and the other `Scalar` fields accept only ints and strings, and `str()` of a float is not modelled. BandMaths' default no-data value is the string `'NaN'` in the source too.
- lxml moves an element that is appended a second time. A `collocateWith` element shared by two nodes would end up under the later one only. The model appends a copy each time.
- The master product name and source paths of Collocate are modelled as text and `pathlib` paths, and the product given to `Reproject.collocate_with` as text. `str()` of other Python values, which `collocate_with` records for any value, is not modelled.
- Gpt.Create: the `gpt -h` probe is an input, so whether the executable exists or may be run is not modelled.
- Gpt.CallsInOrder: gpt's exit status is ignored by the code, so the lemma says nothing about a failed conversion.
- `_c2rcc_msi.py` and `_import_vector.py` are not part of this model. Neither are the package `__init__` files.
- Graph.Graph.AddNode: the operator's emitter is passed in as its outcome, a `Result`. The mismatch between `_get_parameters_as_xml_node`, which `add_node` calls, and `get_parameters_as_xml_node`, which some operators define, shows up as an `AttributeError` outcome.

## Findings

| source | as written | input that shows it | evidently intended | confidence | as-written member | corrected member |
|---|---|---|---|---|---|---|
| snapista/operators/add_elevation.py:28 | the default DEM name is `'SRTM 3Sec'`, but `get_available_dem_names()` (line 47) lists `'SRTM 3sec'` | a new `AddElevation()`: its `dem_name` is not in `get_available_dem_names()` | the default is one of the available DEM names | not executed | AddElevation.DefaultDemNameNotListed | AddElevation.DefaultDemNameCorrected |
