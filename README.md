# dwiprep wiring layer in Dafny

dwiprep is a diffusion-MRI preprocessing pipeline. It queries a BIDS
dataset, runs smriprep in a container for the anatomical images, and
builds nipype workflows for every DWI run of every session. Those workflows
convert the run, register it, estimate a tensor and write the derivatives.
Almost all the real work happens in external tools. What dwiprep decides
itself is wiring:

- which files a query returns;
- which entities a session must or should carry;
- where working and output directories go;
- how nodes are named;
- which port feeds which;
- what a derivatives sink names its outputs;
- how the smriprep command line is rendered.

This project models that wiring layer and proves properties about it.

The repository holds several drafts of the same component, and their
behaviour differs. Each source file is therefore its own Dafny module, and
the drafts are never merged:

- `LegacyBidsQuery`, `BidsQuery` and `Bids` are the three query modules;
- `DmriPrepLegacy`, `DmriPrepV2`, `DmriPrepV3` and `DmriPrepSrc` are the four dMRI drivers;
- `SmriPrep` and `SmriprepManager` are the two smriprep drivers;
- `Coregister`, `CoregisterDraft` and `ApplyTransform` are the three coregistration builders.

`DmriPrepManager` is the subject orchestrator. `Dds` is the
`DerivativesDataSink` interface. `DmriBase` is the per-run workflow.

Six helper modules carry the shared vocabulary:

- `Py` holds Python's optional values, exceptions and dynamic values.
- `Text` holds the `str` methods the code uses.
- `Paths` holds `PurePosixPath` names, parents and suffixes.
- `Dicts` holds insertion-ordered dictionaries.
- `Sorting` holds `sorted()` on strings.
- `Graph` holds the part of nipype the code relies on:
  - a workflow is a class whose field is the list of its connections, and `connect` appends to it;
  - an identity node is a class whose field maps the inputs set so far to their values;
  - a field list that builders extend in place is a class too.

Code that mutates state stays imperative. The builders extend a workflow
through `connect`. Input nodes are filled field by field. The drivers are
classes whose constructors set their attributes. The loops of
`map_list_to_kwargs`, `validate_file`, `identify_data_types`,
`init_dwi_preproc_wf` and `_run_interface` are loops with invariants.
Each such method is proved against a function that states what it
computes, and the lemmas are about those functions.

In `dmriprep.py` every run is copied onto one class-level input node, so
the files and fieldmaps a run sets stay there for the next run, the next
session and the next subject. `DmriPrepSrc.AllRunsOk` states when a
sequence of runs builds on that node, each on what the runs before it
left. The drivers and the orchestrator are proved to succeed exactly when
it holds for the runs they reach, together with their own conditions on
the session data.

Some inputs come from outside the code and are parameters of the
operations that use them:

- the dataset index (`BIDSLayout.get`, `parse_file_entities`, `get_metadata`, `build_path`);
- the bundled BIDS specification;
- the NIfTI header reader;
- environment variables;
- the current directory;
- the existence of files;
- the fieldmap helpers the drivers import from modules that are not part of this model.

Warnings the source logs are returned as lists of messages.
Exceptions are `Err` values of a `Result`.

## Model

| member | source | states |
|---|---|---|
| BidsLayout.Collect | src/dwiprep/utils/bids_query/bids_query.py:72-82 | one entry per datatype query, in order, holding a sorted permutation of what the index returns; a query repeating a fixed keyword raises TypeError, and nothing else does |
| BidsLayout.CollectOrderFree | src/dwiprep/utils/bids_query/bids_query.py:72-82 | the collected lists do not depend on the order the index returns files in |
| DmriSession.Missing | src/dwiprep/workflows/dmri/dmriprep.py:160-171 | exactly the listed names that are not session keys |
| DmriSession.SessionCheckCases | src/dwiprep/workflows/dmri/utils/utils.py:5-7 | only "dwi" is mandatory (its absence raises FileNotFoundError for "dwi"); a missing "fmap" only warns |
| DmriSession.ValidateSession | src/dwiprep/workflows/dmri/dmriprep.py:140-171 | the mandatory loop raises on the first missing entity, the recommended loop collects warnings; the outcome equals the session check on the keys |
| DmriSession.MissingFirst | src/dwiprep/workflows/dmri/dmriprep.py:160-165 | the entity the loop raises for is the first missing one |
| DmriSession.DefaultWorkDirInsideDestination | src/dwiprep/workflows/dmri/dmriprep.py:93-111 | with the destination already extended by `dmriprep`, the default working directory is `<destination>/work` |
| DmriSession.DestinationsLayout | src/dwiprep/workflows/dmri/dmriprep.py:113-138 | both directories end in `sub-<subject>`, then `ses-<session>` exactly when a session is given, under the working and the output root |
| DmriSession.InferSession | src/dwiprep/workflows/dmri/dmriprep.py:68-91 | a truthy instance session wins; otherwise the session entity parsed from the run's NIfTI path, or None when it has none |
| Bids.ApplyFilters | src/dwiprep/utils/bids_query/bids.py:59-61 | the in-place update loop yields the queries filtered by every entry in order, or the first KeyError |
| Bids.FilteredErrStays | src/dwiprep/utils/bids_query/bids.py:60-61 | once an entry fails the later entries are not looked at |
| Bids.FilteredKeys | src/dwiprep/utils/bids_query/bids.py:60-61 | filtering never adds, drops or reorders a query |
| Bids.FilteredFails | src/dwiprep/utils/bids_query/bids.py:60-61 | filtering raises KeyError exactly when some filter names no query |
| Bids.FilterWins | src/dwiprep/utils/bids_query/bids.py:59-61 | after filtering, a query's entity has the value the filter for that query gives it, and its default otherwise |
| Bids.FilterWinsStep | src/dwiprep/utils/bids_query/bids.py:60-61 | the last filter entry touches only its own query and its entities win there |
| Bids.CollectedLists | src/dwiprep/utils/bids_query/bids.py:45-75 | one sorted list per default query in table order, each a permutation of what the index returns, or the first error |
| Bids.AddEntity | src/dwiprep/utils/bids_query/bids.py:61 | a one-entry filter appends a new entity to its query and leaves the other queries as they are |
| Bids.RunFilter | src/dwiprep/utils/bids_query/bids.py:39-42 | the docstring's filter `{'t1w': {'run': 1}}` adds the run entity to the T1w query only |
| BidsQuery.Queries | src/dwiprep/utils/bids_query/bids_query.py:65-70 | the table's keys are dwi, fmap, t1w and t2w, in that order |
| BidsQuery.UserWins | src/dwiprep/utils/bids_query/bids_query.py:66-69 | in a merged query an entity has the user's value when the user gives one and the default's otherwise, each entity once |
| BidsQuery.DwiDefaultsKept | src/dwiprep/utils/bids_query/bids_query.py:14 | the dwi query's default datatype and suffix survive unless the user overrides them |
| BidsQuery.DefaultsDoNotClash | src/dwiprep/utils/bids_query/bids_query.py:14-17 | no default entity is a keyword `collect_data` passes to the index itself |
| BidsQuery.MergedClashes | src/dwiprep/utils/bids_query/bids_query.py:66-79 | a merged query repeats a fixed keyword exactly when the user's identifier names one |
| BidsQuery.QueriesClash | src/dwiprep/utils/bids_query/bids_query.py:65-79 | the table clashes exactly when some user identifier does |
| BidsQuery.CollectData | src/dwiprep/utils/bids_query/bids_query.py:24-84 | TypeError exactly when a user identifier names a fixed keyword; otherwise the layout, the merged queries and one sorted permutation of the index's files per query |
| BidsQuery.ValidateFile | src/dwiprep/utils/bids_query/bids_query.py:87-103 | a file passes exactly when it contains `key-value` for every rule |
| LegacyBidsQuery.ValidateFile | dwiprep/utils/bids_query/bids_query.py:163-179 | a file passes exactly when it contains `key-value` for every rule; no rules pass every file |
| LegacyBidsQuery.Kept | dwiprep/utils/bids_query/bids_query.py:155-157 | exactly the files that pass, never more than the input |
| LegacyBidsQuery.KeepValid | dwiprep/utils/bids_query/bids_query.py:155-157 | the comprehension computes the passing files in order |
| LegacyBidsQuery.KeptSorted | dwiprep/utils/bids_query/bids_query.py:155-157 | filtering keeps the order, so a sorted list stays sorted |
| LegacyBidsQuery.IdentifyEntry | dwiprep/utils/bids_query/bids_query.py:153-159 | one loop iteration: a list keeps its passing files, a single file becomes its verdict, missing rules raise |
| LegacyBidsQuery.IdentifiedErrStays | dwiprep/utils/bids_query/bids_query.py:152-159 | a failure stays a failure whatever entries follow |
| LegacyBidsQuery.IdentifyDataTypes | dwiprep/utils/bids_query/bids_query.py:135-160 | the loop yields the identified data or the first failure |
| LegacyBidsQuery.IdentifiedFails | dwiprep/utils/bids_query/bids_query.py:152-159 | the call fails exactly when some entry fails |
| LegacyBidsQuery.IdentifiedLast | dwiprep/utils/bids_query/bids_query.py:152-159 | a success succeeded on every earlier entry and assigned the last one |
| LegacyBidsQuery.IdentifiedShape | dwiprep/utils/bids_query/bids_query.py:151-160 | on success the keys are the input's, in order, and each value is that entry's identified form |
| LegacyBidsQuery.SymlinkMirrors | dwiprep/utils/bids_query/bids_query.py:121-123 | a file `bids_dir/rel` is mirrored at `symlink_dir/rel` |
| LegacyBidsQuery.StripLeadingSlash | dwiprep/utils/bids_query/bids_query.py:123 | stripping '/' from `/rel` leaves `rel` |
| LegacyBidsQuery.SubjData | dwiprep/utils/bids_query/bids_query.py:52-62 | one sorted list per query, keys in table order, each a permutation of what the index returns |
| LegacyBidsQuery.NoClash | dwiprep/utils/bids_query/bids_query.py:39-44 | no query repeats a keyword `collect_data` passes itself |
| LegacyBidsQuery.QueryNames | dwiprep/utils/bids_query/bids_query.py:39-44 | the queries are fmap, dwi, t2w and t1w, in that order |
| LegacyBidsQuery.SubjDataValid | dwiprep/utils/bids_query/bids_query.py:52-62 | the subject's lists have distinct keys |
| LegacyBidsQuery.IdentifiedListSorted | dwiprep/utils/bids_query/bids_query.py:155-157 | identifying a sorted list gives a sorted list |
| LegacyBidsQuery.CollectedData | dwiprep/utils/bids_query/bids_query.py:52-63 | on success the identified data has the four datatypes as keys, each a sorted list of passing files |
| LegacyBidsQuery.CollectData | dwiprep/utils/bids_query/bids_query.py:9-67 | the identification's failure, else the link directory's failure, else the identified data and the mirrored paths |
| DmriBase.Clean | src/dwiprep/workflows/dmri/base.py:435 | the cleaned text holds no '.', no ' ' and no '-' |
| DmriBase.WfName | src/dwiprep/workflows/dmri/base.py:418-435 | a workflow name starts with "dwi_preproc_" and its remainder holds no '.', ' ' or '-' |
| DmriBase.WfNameWithoutNii | src/dwiprep/workflows/dmri/base.py:433 | a file name without ".nii" yields the bare prefix "dwi_preproc_" (empty `rpartition` head) |
| DmriBase.WfNameDropsSubject | src/dwiprep/workflows/dmri/base.py:434 | the first '_'-separated field (the subject) is dropped and the rest is cleaned |
| DmriBase.WfNameOfRun | src/dwiprep/workflows/dmri/base.py:418-435 | a BIDS run `<subject>_<entities>_dwi.nii<ext>` gets `dwi_preproc_` + its entities cleaned + `_wf`, the subject dropped (the docstring examples' shape) |
| DmriBase.CleanPlain | src/dwiprep/workflows/dmri/base.py:435 | a text free of '.', ' ' and '-' is left unchanged |
| DmriBase.CleanDash | src/dwiprep/workflows/dmri/base.py:435 | each '-' becomes '_', in place |
| DmriBase.PreprocOutputName | src/dwiprep/workflows/dmri/base.py:221-236 | the four DWI outputs contain "dwi" and not "epi_ref", the two reference outputs the reverse; exactly the two `_file` outputs contain "_file" |
| DmriBase.PreprocSuffixes | src/dwiprep/workflows/dmri/base.py:229-232 | each iteration binds a suffix of its own (no stale value carried over): "dwi" for the DWI outputs, "sbref" for the references |
| DmriBase.PreprocSinkRule | src/dwiprep/workflows/dmri/base.py:229-247 | sink `ds_<name>`; suffix "dwi" iff the name contains "dwi", "sbref" iff it contains "epi_ref"; compressed iff the name contains "_file", i.e. exactly the series and the reference image |
| DmriBase.AffineMirror | src/dwiprep/workflows/dmri/base.py:317-332 | the two affine sinks mirror each other's `from`/`to` (epi and T1w) and both dismiss "direction" |
| DmriBase.MetricSinkPair | src/dwiprep/workflows/dmri/base.py:267-413 | each metric gets a native sink `ds_<m>` in space dwi and a resampled sink `ds_tranformed_<m>` in space T1w, both with the metric as suffix |
| DmriBase.SinkEdges | src/dwiprep/workflows/dmri/base.py:248-256 | one edge per output name, into the `in_file` of the sink named after it |
| DmriBase.TransformedEdges | src/dwiprep/workflows/dmri/base.py:400-413 | two edges per metric: the native map into the resampling, the resampled map into its sink |
| DmriBase.SuffixStep | src/dwiprep/workflows/dmri/base.py:229-232 | the suffix of iteration i is computed from the value carried out of iteration i-1 |
| DmriBase.AddPreprocSink | src/dwiprep/workflows/dmri/base.py:229-256 | one loop iteration appends exactly the output's sink edge and creates its sink |
| DmriBase.AddPreprocSinks | src/dwiprep/workflows/dmri/base.py:221-256 | the loop appends one sink edge per preprocessed output, in order, and creates the six sinks |
| DmriBase.AddMetricSinks | src/dwiprep/workflows/dmri/base.py:267-287 | one native-space sink per metric, fed from the tensor workflow, appended in metric order |
| DmriBase.AddAffineSinks | src/dwiprep/workflows/dmri/base.py:317-337 | one sink per affine, `from` set after construction, fed from the registration |
| DmriBase.AddTransformedMetrics | src/dwiprep/workflows/dmri/base.py:386-413 | per metric, the native map into the resampling and the resampled map into its T1w-space sink |
| DmriBase.WireFront | src/dwiprep/workflows/dmri/base.py:128-218 | appends exactly the conversion, reference, fieldmap, preprocessing and NIfTI-conversion edges; name and base directory unchanged |
| DmriBase.WireNative | src/dwiprep/workflows/dmri/base.py:220-287 | appends the native-space sink edges and returns the tensor workflow's nine-metric list and the sinks created |
| DmriBase.WireRegistration | src/dwiprep/workflows/dmri/base.py:288-351 | appends the masking, registration and affine edges and creates the affine and T1w-reference sinks |
| DmriBase.WireResampling | src/dwiprep/workflows/dmri/base.py:352-413 | the resampling is built from a copy, so the caller's metric list is unchanged and the last loop runs over it |
| DmriBase.WireNativeHalf | src/dwiprep/workflows/dmri/base.py:128-287 | the first two stage groups in order |
| DmriBase.WireT1wHalf | src/dwiprep/workflows/dmri/base.py:288-413 | the registration and resampling groups in order |
| DmriBase.WireRun | src/dwiprep/workflows/dmri/base.py:128-413 | every stage group in connection order |
| DmriBase.InitDwiPreprocWf | src/dwiprep/workflows/dmri/base.py:36-415 | no output directory raises TypeError; an unsupported fieldmap raises; otherwise the workflow is named after the file, based in `work_dir`, holds every edge in order and its sinks write under the output directory with the absolute source file |
| DmriBase.SinkEdgesAvoid | src/dwiprep/workflows/dmri/base.py:237-256 | no sink edge ends in a processing stage |
| DmriBase.TransformedEdgesAvoid | src/dwiprep/workflows/dmri/base.py:386-413 | the last loop feeds no processing stage |
| DmriBase.FrontInto | src/dwiprep/workflows/dmri/base.py:128-218 | in the first group a stage is fed only by the reference feed and the preprocessing edges |
| DmriBase.NativeInto | src/dwiprep/workflows/dmri/base.py:257-266 | in the native group only the tensor feed ends in a stage |
| DmriBase.T1wInto | src/dwiprep/workflows/dmri/base.py:288-413 | registration and resampling feed no processing stage |
| DmriBase.StageInto | src/dwiprep/workflows/dmri/base.py:128-413 | across the run a stage is fed only by the reference feed, the preprocessing edges and the tensor feed |
| DmriBase.ReferenceAndTensorInputs | src/dwiprep/workflows/dmri/base.py:150-266 | the converted series is the EPI reference's only input and the tensor fit reads only the preprocessed series |
| DmriBase.PreprocessInputs | src/dwiprep/workflows/dmri/base.py:168-188 | preprocessing reads the converted series and the merged phasediff, each from exactly one edge |
| Dds.DefaultDtype | src/dwiprep/interfaces/dds.py:44-53 | only mask, dseg, probseg and boldref coerce a data type; boldref keeps the source's |
| Dds.OpensImageWhen | src/dwiprep/interfaces/dds.py:411-419 | a NIfTI output is loaded exactly when its header is checked, a data type is given, or its suffix has a default data type; anything else is only copied |
| Dds.CommonSingle | src/dwiprep/interfaces/dds.py:329-333 | with a single source file every one of its entities is kept |
| Dds.CommonAgreement | src/dwiprep/interfaces/dds.py:329-333 | an entity of the first source survives exactly when every other source has it with the same value (or lacks a `None` one), with the first source's value |
| Dds.CommonTwoSessions | src/dwiprep/interfaces/dds.py:163-187 | two T1w images from sessions A and B of one subject lose the session and keep the rest |
| Dds.Dismissed | src/dwiprep/interfaces/dds.py:334-335 | the dismissed names are gone, every other entity is kept with its value, and names the record lacks are ignored |
| Dds.DropEntities | src/dwiprep/interfaces/dds.py:334-335 | the popping loop leaves exactly the record without the dismissed names |
| Dds.Extensions | src/dwiprep/interfaces/dds.py:338-342 | one extension per input file: its suffixes joined, leading dot stripped |
| Dds.Broadcast | src/dwiprep/interfaces/dds.py:344-346 | an empty `compress` becomes one `None` per input, a single flag is repeated once per input, a longer list is kept |
| Dds.StripGz | src/dwiprep/interfaces/dds.py:349 | one trailing ".gz" is removed, and only a trailing one |
| Dds.CompressExt | src/dwiprep/interfaces/dds.py:347-352 | `None` leaves the extension, `True` ends it in ".gz" over the same stripped stem, `False` strips one ".gz" |
| Dds.CompressTwice | src/dwiprep/interfaces/dds.py:347-352 | applying the rule twice equals applying it once (for `False`, unless the stripped extension itself ends in ".gz") |
| Dds.CompressFalseTwice | src/dwiprep/interfaces/dds.py:347-352 | "nii.gz.gz" loses one ".gz" per application of the `False` rule, so that rule is not idempotent |
| Dds.ApplyCompression | src/dwiprep/interfaces/dds.py:344-352 | the in-place loop yields the compressed extensions; fewer flags than extensions raise `IndexError`; the length is kept |
| Dds.Overridden | src/dwiprep/interfaces/dds.py:355-358 | every allowed entity set on the inputs takes the input's value; every other entity keeps its value; nothing else is added |
| Dds.OverriddenStep | src/dwiprep/interfaces/dds.py:355-358 | considering one more allowed entity overrides at most that entity |
| Dds.ApplyOverrides | src/dwiprep/interfaces/dds.py:355-358 | the loop over the allowed entities yields `Overridden` |
| Dds.CleanNative | src/dwiprep/interfaces/dds.py:360-364 | "resolution" is dropped exactly when it is "native" and a truthy `space` is present; nothing else changes |
| Dds.OneDistinct | src/dwiprep/interfaces/dds.py:366 | `len(set(xs)) == 1` holds exactly when the list is non-empty and all its items are equal |
| Dds.Collapse | src/dwiprep/interfaces/dds.py:366-367 | equal extensions collapse to the first; differing ones stay a list; a string is iterated as characters; anything else raises |
| Dds.CustomPatternLayout | src/dwiprep/interfaces/dds.py:373-376 | the custom pattern holds each key's `key-{key}` in the keys' order, neighbours separated by exactly one "_", and nothing else; empty without keys |
| Dds.InsertCustom | src/dwiprep/interfaces/dds.py:377-380 | every pattern gets the custom pattern inserted before each "_{suffix" |
| Dds.PatternsWithoutCustom | src/dwiprep/interfaces/dds.py:370-380 | without custom entities, or for a pattern lacking "_{suffix", the pattern is unchanged |
| Dds.SortTwoCustom | src/dwiprep/interfaces/dds.py:375 | `sorted({"custom2", "custom1"})` is ["custom1", "custom2"] |
| Dds.TwoCustomKeys | src/dwiprep/interfaces/dds.py:370-380 | two custom entities appear in sorted order, each as `key-{key}`, before "_{suffix" |
| Dds.Parsed | src/dwiprep/interfaces/dds.py:325-328 | one parsed record per source file, in order |
| Dds.Listified | src/dwiprep/interfaces/dds.py:388-394 | a destination result that is not empty gives a non-empty list |
| Dds.XCodes | src/dwiprep/interfaces/dds.py:440-446 | (1, 1) exactly when `space` is falsy; otherwise (4, 4) exactly for a standard space and (2, 2) for any other; qform and sform codes agree |
| Dds.WantedUnits | src/dwiprep/interfaces/dds.py:435-439 | the spatial unit is the current one or "mm", never unknown; the time unit is "sec" exactly for BOLD |
| Dds.FixedNeedsNoFix | src/dwiprep/interfaces/dds.py:448-453 | a rewritten header needs no further rewrite |
| Dds.ScannerHeaderKept | src/dwiprep/interfaces/dds.py:424-449 | a scanner-space millimetre header with unknown time unit is kept for DWI and rewritten for BOLD |
| Dds.MergedMeta | src/dwiprep/interfaces/dds.py:317-322 | the merged metadata holds both key sets, constructor-time values first, `meta_dict` values for the rest |
| Dds.SidecarOf | src/dwiprep/interfaces/dds.py:536-539 | the sidecar of `d/stem.ext` is `d/stem.json` whatever the extension |
| Dds.ComputeEntities | src/dwiprep/interfaces/dds.py:324-367 | the step-by-step computation yields `OutEntities`: common entities, dismissal, extensions, compression, overrides, native cleanup, collapse |
| Dds.OutNames | src/dwiprep/interfaces/dds.py:402 | each output path is the destination joined to the output folder |
| Dds.GzFlags | src/dwiprep/interfaces/dds.py:405 | one compression flag per destination: whether it ends in ".gz" |
| Dds.HeaderFixes | src/dwiprep/interfaces/dds.py:411-449 | one header flag per output |
| Dds.HeaderFixesAt | src/dwiprep/interfaces/dds.py:411-449 | output `i` is marked exactly when headers are checked, it is a NIfTI file and its header needs a fix |
| Dds.Sidecar | src/dwiprep/interfaces/dds.py:502-543 | only a single output with non-empty metadata names a sidecar; a `.dtseries.nii` output moves the legacy keys out of the metadata; other metadata values are kept |
| Dds.Placed | src/dwiprep/interfaces/dds.py:401-449 | one output path, compression flag and header flag per destination, each as the loop computes it |
| Dds.PlaceAll | src/dwiprep/interfaces/dds.py:401-449 | the loop over `zip(in_file, dest_files)`: `KeyError("suffix")` exactly when a checked NIfTI output has no `suffix` entity, with the results up to that output; otherwise `Placed` |
| Dds.Derive | src/dwiprep/interfaces/dds.py:324-449 | the entity error, the `ValueError` of an empty or mismatched destination list, the `KeyError` of a missing suffix, or the entity record with every output's results |
| Dds.InitialInputs | src/dwiprep/interfaces/dds.py:56-90 | the inputs a keyword set gives at construction: `base_directory`, `check_hdr`, `data_dtype` and `meta_dict` set their traits; `in_file`, `source_file` and `dismiss_entities` take a single value as a one-item list and a list as is; `compress` takes a single flag or `None` as a one-item list; an absent trait keeps its default (no files, no flags, nothing dismissed, headers checked); allowed entities are set from the keywords naming them |
| Dds.SinkKeywordTraits | src/dwiprep/workflows/dmri/base.py:237-245 | the keywords the DWI workflow gives its sinks (`base_directory`, `compress`, `source_file`, and `dismiss_entities` as at base.py:323) set those traits, and none of them becomes metadata |
| Dds.DerivativesDataSink.constructor | src/dwiprep/interfaces/dds.py:279-299 | allowed entities are the given ones plus the BIDS ones; an empty base keeps "niworkflows"; keyword arguments naming no trait become metadata, the others set the traits and entities they name (`InitialInputs`); results start empty |
| Dds.DerivativesDataSink.Run | src/dwiprep/interfaces/dds.py:301-544 | `_run_interface`: metadata merged; results as `Derive` computes them from the inputs; the sidecar state of a successful run; a given `meta_dict` is the metadata object itself and ends equal to the final metadata, every other input unchanged |
| Dds.DerivativesDataSink.Store | src/dwiprep/interfaces/dds.py:383-405 | the results of a run are recorded, and the sidecar state set only for a successful one |
| Dds.DerivativesDataSink.WriteSidecar | src/dwiprep/interfaces/dds.py:502-543 | with exactly one output the dynamic inputs join the metadata, which then names the sidecar |
| Dds.MetadataPriority | src/dwiprep/interfaces/dds.py:216-270 | constructor metadata beats `meta_dict`, a value set on the inputs beats both, and keys only in `meta_dict` are kept |
| TensorConfig.MetricKwargs | src/dwiprep/workflows/dmri/pipelines/tensor_estimation/configurations.py:22-24 | the keyword comprehension always yields a dictionary (no key twice) |
| TensorConfig.MetricKwargsOfDistinct | src/dwiprep/workflows/dmri/pipelines/tensor_estimation/configurations.py:22-24 | for distinct metric names, exactly one `out_m -> m.nii.gz` entry per metric, in metric order |
| TensorConfig.MetricsWellFormed | src/dwiprep/workflows/dmri/pipelines/tensor_estimation/configurations.py:5-15 | `METRICS` holds nine distinct names, none containing '_' or '.' |
| TensorConfig.Tensor2MetricKwargs | src/dwiprep/workflows/dmri/pipelines/tensor_estimation/configurations.py:22-24 | `TENSOR2METRIC_KWARGS` maps `out_m` to `m.nii.gz` for every metric, in the order of `METRICS` |
| TensorEdges.LastSegment | src/dwiprep/workflows/dmri/pipelines/tensor_estimation/edges.py:15 | `key.split("_")[-1]` contains no '_' |
| TensorEdges.LastSegmentOfOut | src/dwiprep/workflows/dmri/pipelines/tensor_estimation/edges.py:15 | the last segment of `out_m` is `m` when `m` has no '_' |
| TensorEdges.OutputEdges | src/dwiprep/workflows/dmri/pipelines/tensor_estimation/edges.py:13-15 | one pair per keyword |
| TensorEdges.BuildOutputEdges | src/dwiprep/workflows/dmri/pipelines/tensor_estimation/edges.py:13-15 | the module-level loop builds exactly the pairs of `OutputEdges`, in keyword order |
| TensorEdges.MetricOutputEdges | src/dwiprep/workflows/dmri/pipelines/tensor_estimation/edges.py:13-15 | one edge per metric, from port `out_m` to port `m`, in metric order |
| TensorEstimation.PortOf | src/dwiprep/workflows/dmri/pipelines/tensor_estimation.py:27 | `value.split(".")[0]` contains no '.' |
| TensorEstimation.PortOfFile | src/dwiprep/workflows/dmri/pipelines/tensor_estimation.py:27 | `m.nii.gz` names port `m` when `m` has no '.' |
| TensorEstimation.ChainEdges | src/dwiprep/workflows/dmri/pipelines/tensor_estimation.py:19-24 | the input node feeds `fit_tensor`, which feeds `tensor2metric` |
| TensorEstimation.MetricEdges | src/dwiprep/workflows/dmri/pipelines/tensor_estimation.py:26-27 | one edge per keyword |
| TensorEstimation.InitTensorWf | src/dwiprep/workflows/dmri/pipelines/tensor_estimation.py:6-28 | a new workflow with the given name: the two chain edges, then one edge per metric keyword in dict order; a new list of the declared metrics |
| TensorEstimation.OutFieldsAreMetrics | src/dwiprep/workflows/dmri/pipelines/tensor_estimation.py:11 | the workflow's declared outputs are the configured `METRICS` |
| TensorEstimation.MetricPorts | src/dwiprep/workflows/dmri/pipelines/tensor_estimation.py:17-27 | metric `m` leaves `tensor2metric` on `out_m` and reaches `outputnode.m`, one edge per metric in order |
| DerivativesNodes.InferMetric | src/dwiprep/workflows/dmri/pipelines/derivatives/nodes.py:18-35 | the metric holds no '.', no '/' and no capital letter |
| DerivativesNodes.InferMetricPrefix | src/dwiprep/workflows/dmri/pipelines/derivatives/nodes.py:34-35 | the metric is the file name's first characters lower-cased, stopping just before the name's first '.' or at its end |
| DerivativesNodes.MetricOfFile | src/dwiprep/workflows/dmri/pipelines/derivatives/nodes.py:34-35 | a file `m.ext` in any directory, with `m` free of dots, yields `m` lower-cased |
| DerivativesNodes.InferMetricInDirectory | src/dwiprep/workflows/dmri/pipelines/derivatives/nodes.py:34 | the directories leading to a file do not change its metric |
| DerivativesNodes.InferMetricIdempotent | src/dwiprep/workflows/dmri/pipelines/derivatives/nodes.py:34-35 | inferring the metric of a metric gives the same metric |
| DerivativesNodes.TensorWorkflow | src/dwiprep/workflows/dmri/pipelines/derivatives/nodes.py:105-114 | a tensor workflow makes two connections |
| DerivativesNodes.TensorSinkFed | src/dwiprep/workflows/dmri/pipelines/derivatives/nodes.py:106-114 | the sink's `suffix` is fed by the inferred `metric` alone and its `in_file` by the inference node's `in_file` alone |
| DerivativesNodes.TensorWorkflowsFed | src/dwiprep/workflows/dmri/pipelines/derivatives/nodes.py:93-136 | both the native and the coregistered tensor sink take the inferred metric as their suffix |
| SmriUtils.SmriprepEntries | src/dwiprep/workflows/smri/utils/utils.py:38-99 | every smriprep output is described as `["smriprep", "anat", <pattern>]`, in table order |
| SmriUtils.FreesurferEntries | src/dwiprep/workflows/smri/utils/utils.py:101-116 | every FreeSurfer output is described as `["freesurfer", <sub-directory>, <pattern>]`, in table order |
| SmriUtils.OutputsShape | src/dwiprep/workflows/smri/utils/utils.py:38-116 | all 34 expected outputs are three-part descriptions rooted in "smriprep" or "freesurfer", so every one can be unpacked and dispatched on |
| SmriUtils.ValidateQueries | src/dwiprep/workflows/smri/utils/utils.py:119-138 | every kept entry is an input entry whose datatype is allowed, and every allowed input entry is kept, value untouched |
| SmriUtils.ValidateQueriesKeys | src/dwiprep/workflows/smri/utils/utils.py:134-138 | the kept names are exactly the allowed names among the input's |
| SmriUtils.ValidateQueriesAppend | src/dwiprep/workflows/smri/utils/utils.py:134-138 | filtering distributes over concatenation, so the kept entries keep their relative order |
| SmriUtils.ValidateQueriesIdempotent | src/dwiprep/workflows/smri/utils/utils.py:119-138 | validating validated queries changes nothing |
| SmriUtils.ValidateQueriesValid | src/dwiprep/workflows/smri/utils/utils.py:134-138 | the filtered queries still have distinct keys |
| SmriUtils.LocateFsLicenseFile | src/dwiprep/workflows/smri/utils/utils.py:141-144 | an unset FREESURFER_HOME raises TypeError; otherwise the result is `<home>/license.txt` exactly when that file exists, and None when it does not |
| SmriUtilsLegacy.DefaultKwargsDashed | dwiprep/workflows/smri/utils/smriprep.py:14 | the legacy default options are the newer ones with the option spelt `--output-spaces` |
| SmriPrep.BuildImageLocation | dwiprep/workflows/smri/smriprep.py:88-97 | a given image path is used as it is; otherwise the image is `smriprep:<version>.simg` inside the default image directory |
| SmriPrep.DefaultImage | dwiprep/workflows/smri/smriprep.py:19-25 | the default image is `/my_images/smriprep:0.8.1.simg`, named after the pinned version |
| SmriPrep.MountTarget | dwiprep/workflows/smri/smriprep.py:188 | a mount target has the option's length and no '-' left |
| SmriPrep.MountTargetIsReplace | dwiprep/workflows/smri/smriprep.py:188 | the mount target agrees with a general replace of "-" by "_" |
| SmriPrep.Remapped | dwiprep/workflows/smri/smriprep.py:185-190 | the copied options keep their keys and order; each path-like option points at its mount point, the rest are unchanged |
| SmriPrep.MountsMatchRemapped | dwiprep/workflows/smri/smriprep.py:186-190 | each path-like option is bound into the container at exactly the path its remapped value names, and every other option keeps its value |
| SmriPrep.RenderKwargsAppend | dwiprep/workflows/smri/smriprep.py:193-205 | rendering concatenated options renders each part in turn |
| SmriPrep.RenderKwargsHas | dwiprep/workflows/smri/smriprep.py:193-205 | every option's rendering appears in the rendered options |
| SmriPrep.RenderFlags | dwiprep/workflows/smri/smriprep.py:200-203 | a truthy flag is passed bare; a false flag is passed as `--flag False` |
| SmriPrep.RenderPlain | dwiprep/workflows/smri/smriprep.py:202-203 | an option that is not a flag and holds a string is passed as `--key value` |
| SmriPrep.AddKwargsToCommand | dwiprep/workflows/smri/smriprep.py:193-205 | the loop's command is the concatenation of every option's rendering, in order |
| SmriPrep.AddKwarg | dwiprep/workflows/smri/smriprep.py:196-204 | one iteration renders a list element by element, a truthy flag bare, anything else with its value |
| SmriPrep.WithoutMni | dwiprep/workflows/smri/smriprep.py:309-312 | exactly the paths whose file name does not contain "MNI", in order |
| SmriPrep.FindOutput | dwiprep/workflows/smri/smriprep.py:279-313 | an unknown output raises TypeError on unpacking; otherwise exactly the files the pattern finds, less the "MNI" ones for native non-transform outputs |
| SmriPrep.SubjectIds | dwiprep/workflows/smri/smriprep.py:325-328 | a list of subjects is taken as it is; anything else, None included, becomes a one-element list |
| SmriPrep.SubjectOutputsRule | dwiprep/workflows/smri/smriprep.py:334-337 | every expected output gets exactly one entry, holding what `find_output` finds for it |
| SmriPrep.OutputDictRule | dwiprep/workflows/smri/smriprep.py:324-337 | one entry per distinct subject, each holding that subject's outputs |
| SmriPrep.OneSubject | dwiprep/workflows/smri/smriprep.py:338-340 | the dictionary has one entry exactly when the subjects, listed at least once, are all the same |
| SmriPrep.CollectOutputs | dwiprep/workflows/smri/smriprep.py:334-337 | the inner loop files every expected output under its key, in order |
| SmriPrep.CollectOutputDict | dwiprep/workflows/smri/smriprep.py:324-337 | the outer loop files each subject's outputs under the subject, a repeated subject overwriting its earlier entry |
| SmriPrep.SmriPrep.GenerateOutputDict | dwiprep/workflows/smri/smriprep.py:315-340 | the outputs by subject; when there is a single subject, that subject's outputs alone |
| SmriPrep.SmriPrep.SetAutomaticKwargs | dwiprep/workflows/smri/smriprep.py:133-146 | the automatic options whose attribute is set; never "bids-filter-file", since the object has no `bids_filter_path` |
| SmriPrep.SmriPrep.ArangeKwargs | dwiprep/workflows/smri/smriprep.py:148-168 | the automatic options, then the user's, the user's value winning on a shared key |
| SmriPrep.ArrangedValid | dwiprep/workflows/smri/smriprep.py:160-168 | the settled options have distinct keys: the automatic ones and the user's |
| SmriPrep.UserKwargsWin | dwiprep/workflows/smri/smriprep.py:165-167 | a key the user sets takes the user's value; any other keeps the automatic one |
| SmriPrep.SmriPrep.constructor | dwiprep/workflows/smri/smriprep.py:49-82 | the fields hold the validated queries, the working directory (default `<destination>/../work`), the image location and the arranged options |
| SmriPrep.Create | dwiprep/workflows/smri/smriprep.py:49-82 | construction followed by the licence lookup, whose TypeError stops it |
| SmriPrep.SmriPrep.LocateFreesurferLicense | dwiprep/workflows/smri/smriprep.py:110-114 | the licence is looked up only when "fs-license-file" is not set; an unset FREESURFER_HOME raises; a found licence is recorded and nothing else changes |
| SmriPrep.SmriPrep.WriteBidsFilterFile | dwiprep/workflows/smri/smriprep.py:99-108 | the filter file is `<work_dir>/bids_filter.json` and is recorded under "bids-filter-file" |
| SmriPrep.SmriPrep.AddMountsToCommand | dwiprep/workflows/smri/smriprep.py:180-191 | the base mounts followed by one bind mount per path-like option, and a remapped copy of the options; the options themselves are unchanged |
| SmriPrep.SmriPrep.BuildUserDefinedCommand | dwiprep/workflows/smri/smriprep.py:170-178 | the container call over the mounts and the image, followed by the rendered remapped options |
| SmriPrep.FilterFileMount | dwiprep/workflows/smri/smriprep.py:187-189 | the filter file's option is path-like and is bound at `/bids_filter_file` |
| SmriPrep.FilterFileRemap | dwiprep/workflows/smri/smriprep.py:190 | the filter file's option then points at `/bids_filter_file` |
| SmriPrep.FilterFileOption | dwiprep/workflows/smri/smriprep.py:196-203 | the filter file's option is passed as `--bids-filter-file /bids_filter_file` |
| SmriPrep.FilterInPieces | dwiprep/workflows/smri/smriprep.py:180-205 | a filter file among the options is bound among the mounts and passed at its mount point among the options |
| SmriPrep.CommandBindsFilter | dwiprep/workflows/smri/smriprep.py:170-178 | once "bids-filter-file" is set, the command both binds that file and passes its mount point |
| SmriPrep.SmriPrep.BuildCommand | dwiprep/workflows/smri/smriprep.py:207-210 | the filter file is recorded first, so the command binds it and passes its mount point |
| SmriprepManager.UndashedKeys | dwiprep/workflows/smri/smriprep_manager.py:164 | the options under their names with the dashes stripped, values and order kept |
| SmriprepManager.MountsUndashed | dwiprep/workflows/smri/smriprep_manager.py:163-168 | the manager binds exactly what the newer driver binds for the same options spelled without dashes |
| SmriprepManager.Remapped | dwiprep/workflows/smri/smriprep_manager.py:162-168 | the copy keeps every dashed name in place, and each path-like option points at its mount point |
| SmriprepManager.RemappedUndashed | dwiprep/workflows/smri/smriprep_manager.py:163-168 | each remapped value is the one the newer driver gives the undashed option, and a path-like option is bound among the mounts |
| SmriprepManager.RenderAllHas | dwiprep/workflows/smri/smriprep_manager.py:174-181 | every option's rendering appears in the rendered options |
| SmriprepManager.AddKwargsToCommand | dwiprep/workflows/smri/smriprep_manager.py:171-182 | as written: the command followed by each option's rendering, in order |
| SmriprepManager.AddKwarg | dwiprep/workflows/smri/smriprep_manager.py:175-181 | as written: a boolean renders as its bare name, a list as its bare elements, anything else as name and value |
| SmriprepManager.ListOptionUnnamed | dwiprep/workflows/smri/smriprep_manager.py:177-179 | as written, a list option renders the same under any name: the option's name is lost |
| SmriprepManager.FalseFlagPassed | dwiprep/workflows/smri/smriprep_manager.py:175-176 | as written, a false boolean renders exactly like a true one: the flag is switched on |
| SmriprepManager.DefaultKwargsUnnamed | dwiprep/workflows/smri/smriprep_manager.py:37 | as written, the default options render as " MNI152NLin2009cAsym anat", without "--output-spaces" |
| SmriprepManager.OptionNamed | dwiprep/workflows/smri/smriprep_manager.py:171-182 | corrected: every option but a false flag is passed under its own name, a list's elements follow it, a false flag is not passed |
| SmriprepManager.AddOptionsToCommand | dwiprep/workflows/smri/smriprep_manager.py:171-182 | corrected: the command followed by each option's corrected rendering, in order |
| SmriprepManager.AddOption | dwiprep/workflows/smri/smriprep_manager.py:174-181 | corrected loop body: the option's corrected rendering |
| SmriprepManager.ArrangedValid | dwiprep/workflows/smri/smriprep_manager.py:136-142 | the settled options have distinct keys: exactly the automatic ones and the user's |
| SmriprepManager.UserKwargsWin | dwiprep/workflows/smri/smriprep_manager.py:116-142 | a key the user sets takes the user's value, any other keeps the automatic one; "--work-dir" is automatic only with a working directory |
| SmriprepManager.LicensedRule | dwiprep/workflows/smri/smriprep_manager.py:84-88 | the licence rule never overwrites a set licence option, touches no other option, and adds only an existing `license.txt` |
| SmriprepManager.LicensedKeeps | dwiprep/workflows/smri/smriprep_manager.py:84-88 | the licence rule drops no option |
| SmriprepManager.FilterRecorded | dwiprep/workflows/smri/smriprep_manager.py:81 | recording the filter file adds its option and leaves the presence of the licence option as it was |
| SmriprepManager.SmriprepManager.SetAutomaticKwargs | dwiprep/workflows/smri/smriprep_manager.py:107-120 | the automatic options whose attribute is set; never "--bids-filter-file", since the object has no `bids_filter_path` |
| SmriprepManager.SmriprepManager.ArangeKwargs | dwiprep/workflows/smri/smriprep_manager.py:122-142 | the automatic options, then the user's, the user's value winning on a shared key |
| SmriprepManager.SmriprepManager.constructor | dwiprep/workflows/smri/smriprep_manager.py:30-57 | the fields hold the validated queries, the working directory as given, the image location and the arranged options; no licence lookup yet |
| SmriprepManager.SmriprepManager.WriteBidsFilterFile | dwiprep/workflows/smri/smriprep_manager.py:70-82 | the filter file is `bids_filter.json` in the working directory, or in the current directory without one, and is recorded under "--bids-filter-file" |
| SmriprepManager.SmriprepManager.LocateFreesurferLicense | dwiprep/workflows/smri/smriprep_manager.py:84-88 | the options become the licence rule applied to them; the lookup raises TypeError exactly when no licence option is set and FREESURFER_HOME is unset |
| SmriprepManager.SmriprepManager.AddMountsToCommand | dwiprep/workflows/smri/smriprep_manager.py:157-169 | the base mounts followed by one bind mount per path-like option (matched undashed), and a remapped copy; the options themselves are unchanged |
| SmriprepManager.SmriprepManager.BuildUserDefinedCommand | dwiprep/workflows/smri/smriprep_manager.py:144-155 | as written: the container call over the mounts and image, followed by the remapped options rendered by `add_kwargs_to_command` as written; when no option is a list or a false flag, this is the corrected command line |
| SmriprepManager.SmriprepManager.BuildNamedCommand | dwiprep/workflows/smri/smriprep_manager.py:144-155 | corrected: the same command line with every option rendered under its name; a recorded filter file is bound and passed at its mount point |
| SmriprepManager.RenderingsAgree | dwiprep/workflows/smri/smriprep_manager.py:171-182 | without list options and false flags, the rendering as written and the corrected one give the same text |
| SmriprepManager.FilterOptionUndashed | dwiprep/workflows/smri/smriprep_manager.py:164-165 | "--bids-filter-file" undashed is the path-like "bids-filter-file" |
| SmriprepManager.FilterOptionRendering | dwiprep/workflows/smri/smriprep_manager.py:181 | the remapped filter option renders as "--bids-filter-file /bids_filter_file", as written and corrected alike |
| SmriprepManager.FilterInPieces | dwiprep/workflows/smri/smriprep_manager.py:157-181 | a filter file among the options is bound among the mounts and passed at its mount point among the options, under any rendering that renders that option by name |
| SmriprepManager.CommandBindsFilter | dwiprep/workflows/smri/smriprep_manager.py:144-155 | once "--bids-filter-file" is set, the command binds that file and passes its mount point, under any rendering that renders that option by name |
| SmriprepManager.SmriprepManager.BuildCommand | dwiprep/workflows/smri/smriprep_manager.py:184-188 | filter file first, then the licence rule (whose TypeError stops it), then the command as written, which binds the filter file, passes its mount point and keeps a set licence option |
| SmriprepManager.Build | dwiprep/workflows/smri/smriprep_manager.py:30-188 | construction then `build_command()` as written: the filter path is returned and the command starts with the base mounts, unless the licence lookup raises |
| ApplyTransform.NodeName | src/dwiprep/workflows/coreg/pipelines/apply_transform/apply_transform.py:35 | a field's node name is `apply_transform_` followed by the field |
| ApplyTransform.TransformEdgesAt | src/dwiprep/workflows/coreg/pipelines/apply_transform/apply_transform.py:33-50 | the four edges of field k sit at 4k..4k+3: the affine into `in_matrix_file`, the T1w brain into `reference`, the field into `in_file`, and `out_file` into the output port of the field's name |
| ApplyTransform.InitApplyTransform | src/dwiprep/workflows/coreg/pipelines/apply_transform/apply_transform.py:6-51 | the caller's list gains the three extra fields; the input and output nodes take the extended list as their fields; one node is wired per field of the list as it was on entry, then `dwi_file` |
| ApplyTransform.WireFields | src/dwiprep/workflows/coreg/pipelines/apply_transform/apply_transform.py:33-50 | the loop appends the four edges of each field's node, field by field, and changes nothing else of the workflow |
| ApplyTransform.EveryEdgeOnAFieldNode | src/dwiprep/workflows/coreg/pipelines/apply_transform/apply_transform.py:33-50 | every edge enters or leaves the node of one of the fields |
| Coregister.EpiRegEdges | src/dwiprep/workflows/coreg/pipelines/coregister.py:35-63 | the registration workflow makes seven connections |
| Coregister.InitEpiregWf | src/dwiprep/workflows/coreg/pipelines/coregister.py:7-64 | a fresh workflow of the given name holding exactly those seven edges, in order |
| Coregister.EpiRegWiring | src/dwiprep/workflows/coreg/pipelines/coregister.py:35-63 | brain, head and EPI image feed the registration from the inputs of those names; its matrix is both an output and the inverter's input; the inverse is the T1w-to-EPI output; each port is fed once |
| Coregister.DraftEdgesAt | src/dwiprep/workflows/coreg/pipelines/coregister.py:76-90 | the three edges of field k sit at 3k..3k+2: the affine as `transforms`, the brain as `reference_image`, the field as `input_image` |
| Coregister.DraftNeverOutputs | src/dwiprep/workflows/coreg/pipelines/coregister.py:76-90 | no edge of this builder reaches the output node |
| Coregister.InitApplyTransform | src/dwiprep/workflows/coreg/pipelines/coregister.py:67-90 | the caller's list gains the three extra fields, and a node is wired per field of the extended list |
| Coregister.AffineTransformsItself | src/dwiprep/workflows/coreg/pipelines/coregister.py:69-90 | since the loop runs over the extended list, the affine gets a node of its own, which receives the affine on two ports |
| CoregisterDraft.InitEpiregWf | src/dwiprep/workflows/coreg/pipelines/apply_transform.py/coregister.py:6-63 | the same seven registration edges as coregister.py |
| CoregisterDraft.ConnectedEpiReg | src/dwiprep/workflows/coreg/pipelines/apply_transform.py/coregister.py:34-62 | the draft's connect tuples spell out exactly those seven edges |
| CoregisterDraft.InitApplyTransform | src/dwiprep/workflows/coreg/pipelines/apply_transform.py/coregister.py:66-94 | the caller's list gains the three extra fields; the input and output nodes take the extended list as their fields; one `ApplyXFM` node is wired per field of the list as it was on entry, then `dwi_file` |
| FmapPrep.PhasediffEdges | src/dwiprep/workflows/dmri/pipelines/fmap_prep.py:17-23 | the phasediff workflow makes four connections |
| FmapPrep.InitPhasediffWf | src/dwiprep/workflows/dmri/pipelines/fmap_prep.py:6-24 | a fresh workflow of the given name holding exactly those four edges |
| FmapPrep.MergeOrder | src/dwiprep/workflows/dmri/pipelines/fmap_prep.py:19 | the merge takes AP first and PA second, each from one edge |
| FmapPrep.StackedOutput | src/dwiprep/workflows/dmri/pipelines/fmap_prep.py:20-21 | the concatenation takes the merged list, and its image is the only output |
| FmapPrep.AttrOf | src/dwiprep/workflows/dmri/pipelines/fmap_prep.py:33-35 | `getattr(inputnode.inputs, key, None)`: None for an undeclared, unset field; the set value otherwise |
| FmapPrep.AddFieldmaps | src/dwiprep/workflows/dmri/pipelines/fmap_prep.py:27-84 | NotImplementedError exactly when both images are None; otherwise every connection feeds the phasediff workflow |
| FmapPrep.BothFieldmaps | src/dwiprep/workflows/dmri/pipelines/fmap_prep.py:36-46 | both images truthy: both slots come from the conversion outputs of the same name |
| FmapPrep.PaOnly | src/dwiprep/workflows/dmri/pipelines/fmap_prep.py:49-63 | not both truthy and PA not None: AP comes from the EPI reference, PA from the conversion |
| FmapPrep.ApOnly | src/dwiprep/workflows/dmri/pipelines/fmap_prep.py:65-79 | PA None and AP not None: PA comes from the EPI reference, AP from the conversion |
| FmapPrep.OneEdgePerSlot | src/dwiprep/workflows/dmri/pipelines/fmap_prep.py:36-84 | whenever nothing is raised, each of the two slots receives exactly one edge |
| FmapPrep.UndefinedPaOverridesAp | src/dwiprep/workflows/dmri/pipelines/fmap_prep.py:36-63 | with AP set and PA declared but unset (falsy, not None), the AP slot is fed from the EPI reference, not from the AP image |
| Mrconvert.LastAccepted | src/dwiprep/interfaces/mrconvert.py:39-44 | the found file is one of the files and its type key is accepted for the keyword |
| Mrconvert.MapListToKwargs | src/dwiprep/interfaces/mrconvert.py:21-45 | the nested loops compute the mapping of every keyword to its file |
| Mrconvert.AssignFileLoop | src/dwiprep/interfaces/mrconvert.py:42-44 | the inner loop for one file gives it to every keyword whose list holds its type key, so each such keyword then holds that file and every other keyword keeps its value (with GetAssignFile) |
| Mrconvert.GetAssignFile | src/dwiprep/interfaces/mrconvert.py:42-44 | after one file, a keyword holds it if it accepts the file's type key, and its earlier value otherwise |
| Mrconvert.LastFileWins | src/dwiprep/interfaces/mrconvert.py:38-45 | each keyword holds the last file, in input order, whose type key it accepts; a keyword accepting none is absent |
| Mrconvert.KeysFromMapping | src/dwiprep/interfaces/mrconvert.py:38-45 | every key is a mapping keyword and holds one of the input files |
| Mrconvert.UnmatchedFileIgnored | src/dwiprep/interfaces/mrconvert.py:40-44 | a file whose type key no keyword accepts changes nothing |
| Mrconvert.DefaultSuffixes | src/dwiprep/interfaces/mrconvert.py:13-18 | "nii" and "nii.gz" map to `in_file`; json, bval and bvec to their own keywords |
| Mrconvert.CompressedNiftiIsInFile | src/dwiprep/interfaces/mrconvert.py:40-44 | a `stem.nii.gz` file appended to any list becomes the `in_file` keyword |
| Mrconvert.LastRenamedTo | src/dwiprep/interfaces/mrconvert.py:80-82 | the found value belongs to an entry whose file type renames to the keyword |
| Mrconvert.MapTypesToKwargs | src/dwiprep/interfaces/mrconvert.py:65-83 | the loop computes the renamed dictionary |
| Mrconvert.LastRenamedWins | src/dwiprep/interfaces/mrconvert.py:79-83 | each keyword holds the value of the last entry renamed to it; all unknown types share the key None and the last one wins |
| Mrconvert.KnownTypes | src/dwiprep/interfaces/mrconvert.py:6-11 | the four known file types rename to their keywords |
| Mrconvert.UnknownType | src/dwiprep/interfaces/mrconvert.py:81 | any other file type renames to None |
| DmriPrepLegacy.ValidateSubjectData | dwiprep/workflows/dmri/dmriprep.py:51-82 | a missing "dwi" raises FileNotFoundError; otherwise the data comes back untouched, with a warning for a missing "fmap" |
| DmriPrepLegacy.WorkingDirectoryRule | dwiprep/workflows/dmri/dmriprep.py:84-103 | an explicit working directory is kept; the default is `work` beside the destination |
| DmriPrepLegacy.DmriPrep.constructor | dwiprep/workflows/dmri/dmriprep.py:46-49 | the fields hold the validated data, the destination, the label and the working directory |
| DmriPrepLegacy.Create | dwiprep/workflows/dmri/dmriprep.py:22-49 | validation runs first and its error stops construction; otherwise the data is stored as it came and the working directory follows the rule |
| DmriPrepSrc.Leading | src/dwiprep/workflows/dmri/dmriprep.py:190-200 | the count of leading roles the run has, stopping at the first it lacks |
| DmriPrepSrc.AssignedValues | src/dwiprep/workflows/dmri/dmriprep.py:197-200 | copying sets each field of the leading present roles to the absolute path of its file and leaves every other input alone |
| DmriPrepSrc.SetAllGet | src/dwiprep/workflows/dmri/dmriprep.py:204-205 | after the fieldmap pairs are set in turn, a key has its pair's value, or its old value when no pair names it |
| DmriPrepSrc.DerivativeName | src/dwiprep/workflows/dmri/dmriprep.py:221 | a top-level `ds_<x>` node is a derivative sink |
| DmriPrepSrc.NestedDerivativeName | src/dwiprep/workflows/dmri/dmriprep.py:221 | a node nested in a sub-workflow is judged by its own name only |
| DmriPrepSrc.SetOutPathBase | src/dwiprep/workflows/dmri/dmriprep.py:220-224 | the loop marks every derivative sink in turn |
| DmriPrepSrc.MarkSinkKeeps | src/dwiprep/workflows/dmri/dmriprep.py:222-224 | marking keeps each sink's name and other inputs and points a derivative sink at `dmriprep` |
| DmriPrepSrc.DmriPrep.constructor | src/dwiprep/workflows/dmri/dmriprep.py:47-63 | the destination gains `dmriprep`, and the working directory defaults to `work` beside it |
| DmriPrepSrc.DmriPrep.DataToInputNode | src/dwiprep/workflows/dmri/dmriprep.py:173-206 | an empty run raises FileNotFoundError; a run lacking a file raises TypeError after copying the files before it; otherwise all four files are copied as absolute paths and the fieldmaps set on the shared node |
| DmriPrepSrc.DmriPrep.BuildRun | src/dwiprep/workflows/dmri/dmriprep.py:189-225 | one iteration: the run's workflow, named after its NIfTI, based in the working directory, its sinks marked; it is built exactly when the run is not empty, has its four files, and `add_fieldmaps_to_wf` accepts the shared input node once the run's files and fieldmaps are copied onto it (`RunOk`), and the node then holds that copy |
| DmriPrepSrc.DmriPrep.BuildRuns | src/dwiprep/workflows/dmri/dmriprep.py:189-226 | one workflow per run, in order, each built from its run and named after its NIfTI; the list is built exactly when every run builds on the inputs the runs before it left on the shared node (`AllRunsOk`), and the node then holds what the last run left (`InputsAfter`) |
| DmriPrepSrc.AllRunsOkAt | src/dwiprep/workflows/dmri/dmriprep.py:189-226 | the runs build exactly when each of them builds on the inputs the runs before it left, so a failure names a run |
| DmriPrepSrc.AllRunsOkAppend | src/dwiprep/workflows/dmri/dmriprep.py:189-226 | the shared node carries over: the runs `a + b` build exactly when `a` build and then `b` build on what `a` left |
| DmriPrepSrc.InputsAfterAppend | src/dwiprep/workflows/dmri/dmriprep.py:189-206 | copying the runs `a` and then `b` onto the shared node leaves what copying `a + b` leaves |
| DmriPrepSrc.DmriPrep.InitWorkflowPerDwi | src/dwiprep/workflows/dmri/dmriprep.py:208-226 | a missing "dwi" raises TypeError (not iterable), a single run raises AttributeError, an empty single run gives no workflow and leaves the shared node's inputs alone; a list gives one workflow per run, and succeeds exactly when its runs build in turn on the shared node (`AllRunsOk`) |
| DmriPrepSrc.LeadingSteps | src/dwiprep/workflows/dmri/dmriprep.py:190-200 | the four files are looked up in the order nifti, bvec, bval, json |
| DmriPrepSrc.AssignedSteps | src/dwiprep/workflows/dmri/dmriprep.py:197-200 | copying stops at the first file the run lacks; each step copies one more |
| DmriPrepSrc.PrefixedSinks | src/dwiprep/workflows/dmri/dmriprep.py:221 | sinks named `ds_<x>` with dot-free `x` are all derivative sinks |
| DmriPrepSrc.RunSinksAreDerivative | src/dwiprep/workflows/dmri/dmriprep.py:220-224 | every sink of a run workflow is named `ds_...`, so every one is marked |
| DmriPrepSrc.BuiltSinksWriteUnderDmriprep | src/dwiprep/workflows/dmri/dmriprep.py:220-225 | every sink of every built run workflow writes under `dmriprep` |
| DmriPrepV2.SessionKwargsRules | src/dwiprep/workflows/dmri/dmriprep_v2.py:110-115 | the keyword arguments always select files of the subject, and the session exactly when it is not None, even an empty one |
| DmriPrepV2.ValidateSession | src/dwiprep/workflows/dmri/dmriprep_v2.py:61-94 | a missing mandatory entity raises FileNotFoundError; otherwise the result is whether no recommended entity is missing |
| DmriPrepV2.ValidateSessionCases | src/dwiprep/workflows/dmri/dmriprep_v2.py:81-94 | validation succeeds exactly when "dwi" is present, and is true exactly when "fmap" is present too |
| DmriPrepV2.ValidateFieldmaps | src/dwiprep/workflows/dmri/dmriprep_v2.py:189-212 | the phase-encoding check on the "fmap" and "dwi" entries when the session validates, (False, False) otherwise, the validation's error passed on |
| DmriPrepV2.DmriPrep.constructor | src/dwiprep/workflows/dmri/dmriprep_v2.py:43-46 | the fields hold the label and the query object |
| DmriPrepV2.DmriPrep.GetSessionData | src/dwiprep/workflows/dmri/dmriprep_v2.py:96-124 | TypeError exactly when a query repeats one of the fixed keywords; otherwise one sorted permutation of the index's files per query, keys in table order |
| DmriPrepV2.DmriPrep.MapSessionDataToMrconvertKwargs | src/dwiprep/workflows/dmri/dmriprep_v2.py:126-145 | the same datatype keys in order, each with its files mapped onto mrconvert's keyword arguments; errors passed on |
| DmriPrepV2.DmriPrep.GetMifConversionNodes | src/dwiprep/workflows/dmri/dmriprep_v2.py:147-168 | the same datatype keys in order, each with the conversion node built from its mapped arguments |
| DmriPrepV2.SortedLists | src/dwiprep/workflows/dmri/dmriprep_v2.py:116-124 | per query, in order, a sorted permutation of what the index returns for the keyword arguments and the query |
| DmriPrepV3.NodeWorkDirLayout | src/dwiprep/workflows/dmri/dmriprep_v3.py:194-203 | the node's working directory is `<work_dir>/dmriprep_wf/sub-<label>`, followed by `ses-<session>` exactly for a truthy session |
| DmriPrepV3.HeaderRules | src/dwiprep/workflows/dmri/dmriprep_v3.py:192-205 | the node gets the label, the BIDS root, the destination and the working directory, and `session_id` exactly for a truthy session |
| DmriPrepV3.FmapRule | src/dwiprep/workflows/dmri/dmriprep_v3.py:210-215 | a falsy or missing fieldmap entry leaves the inputs alone; a truthy single run sets both its inputs; a truthy list raises |
| DmriPrepV3.DwiRule | src/dwiprep/workflows/dmri/dmriprep_v3.py:206-209 | the DWI inputs come from the "dwi" run's nifti, bval, bvec and json files |
| DmriPrepV3.NodeInputsFails | src/dwiprep/workflows/dmri/dmriprep_v3.py:174-216 | filling the node fails exactly when "dwi" is not a single run or a truthy fieldmap entry is a list |
| DmriPrepV3.RunDataCopy | src/dwiprep/workflows/dmri/dmriprep_v3.py:222-223 | the copied session data has the same keys, "dwi" replaced by the run and the other entries unchanged |
| DmriPrepV3.DmriPrep.constructor | src/dwiprep/workflows/dmri/dmriprep_v3.py:58-64 | the destination gains `dmriprep`, and the working directory defaults to `work` beside it |
| DmriPrepV3.DmriPrep.DataToInputNode | src/dwiprep/workflows/dmri/dmriprep_v3.py:174-216 | the node's inputs become the expected inputs; an error leaves the inputs set before it in place |
| DmriPrepV3.DmriPrep.PreprocessSessions | src/dwiprep/workflows/dmri/dmriprep_v3.py:218-225 | a missing "dwi" raises TypeError, a single run raises AttributeError; for a list, one node per run, in order, from a copy whose "dwi" is that run with its inferred session, and the call fails exactly when some run's node cannot be filled (`RunFails`); the session data is never written |
| DmriPrepV3.DmriPrep.RunFailsOnFieldmaps | src/dwiprep/workflows/dmri/dmriprep_v3.py:174-225 | a run's node cannot be filled exactly when a truthy `fmap_ap` or `fmap_pa` entry of the session holds a list of runs |
| DmriPrepManager.AnatPortsMatch | src/dwiprep/dwiprep.py:126-146 | twelve port pairs, each joining an anatomical output to the run input of the same name, no field twice |
| DmriPrepManager.AnatEdgesAt | src/dwiprep/dwiprep.py:121-149 | twelve edges, the k-th from the anatomical port to the run's port of the k-th pair |
| DmriPrepManager.JoinsShape | src/dwiprep/dwiprep.py:173-176 | every join edge leaves the anatomical workflow for one of the runs keeping the field name, and every run receives all twelve fields |
| DmriPrepManager.SubjectWfNameInjective | src/dwiprep/dwiprep.py:98-101 | the label can be read back from `single_subject_<label>_wf`, so two labels never share a workflow name |
| DmriPrepManager.SessionsToCollectCount | src/dwiprep/dwiprep.py:159-166 | data is collected once per session, and exactly once, without a session, when the subject has none |
| DmriPrepManager.FsSubjectsDir | src/dwiprep/dwiprep.py:29-31 | a truthy FreeSurfer directory is kept; otherwise the environment's SUBJECTS_DIR |
| DmriPrepManager.Niftis | src/dwiprep/dwiprep.py:56-57 | the nifti of each record, None where a record has none |
| DmriPrepManager.Derivatives | src/dwiprep/dwiprep.py:91-92 | the redirected nodes are a sub-list of the node names |
| DmriPrepManager.DerivativesMembers | src/dwiprep/dwiprep.py:91-95 | exactly the nodes whose last dotted component starts with `ds_` are redirected |
| DmriPrepManager.RedirectSinks | src/dwiprep/dwiprep.py:91-95 | the loop redirects the derivative sinks, in order |
| DmriPrepManager.Manager.constructor | src/dwiprep/dwiprep.py:16-32 | the fields hold the labels, the destination, the FreeSurfer directory rule and the working directory rule |
| DmriPrepManager.Manager.InitAnatomicalWf | src/dwiprep/dwiprep.py:54-96 | a missing T1w or T2w list raises TypeError; otherwise subject id `sub-<label>`, the T1w and T2w niftis, the FreeSurfer directory and exactly the derivative sinks redirected |
| DmriPrepManager.Manager.ConnectAnatomicalAndDiffusion | src/dwiprep/dwiprep.py:115-149 | appends exactly the twelve anatomical-to-run edges |
| DmriPrepManager.Manager.PreprocessSession | src/dwiprep/dwiprep.py:103-113 | as written: the runs are built in `<destination>/work`, the manager's working directory having gone to the session parameter; the k-th workflow is named after the k-th run's NIfTI; for a session that lists its runs, the call succeeds exactly when they build in turn on the shared input node (`AllRunsOk`) |
| DmriPrepManager.SessionWorkDirDiffers | src/dwiprep/dwiprep.py:104-110 | a manager given "/scratch" builds its subject workflows there but its runs in `<destination>/work`, which is never "/scratch" |
| DmriPrepManager.Manager.PreprocessSessionInWorkDir | src/dwiprep/dwiprep.py:103-113 | corrected: with the working directory passed by keyword, the runs are built in the manager's working directory; for a session that lists its runs, the call succeeds exactly when they build in turn on the shared input node |
| DmriPrepManager.Manager.SessionRunNames | src/dwiprep/dwiprep.py:158-172 | the names of the run workflows `preprocess_session` (as written) builds, `dwi_preproc_` and the cleaned NIfTI name, session by session and run by run (`RunNames`), as many as the sessions' runs; the loop succeeds exactly when every collected session lists its runs (`AllListed`) and all those runs build in turn on the shared input node (`AllRunsOk` over `SubjectRuns`) |
| DmriPrepManager.SessionRunsStep | src/dwiprep/dwiprep.py:168-172 | one more session: its runs are built after those of the sessions before it, on the inputs those left on the shared node |
| DmriPrepManager.SessionFails | src/dwiprep/dwiprep.py:168-172 | a session that stops the loop, because it lists no runs or one of its runs fails, means not every session is listed or not all the subject's runs build |
| DmriPrepManager.RunNamesCount | src/dwiprep/dwiprep.py:168-172 | there is one run name per run of the collected sessions, proved by induction over the sessions |
| DmriPrepManager.RunNamesStep | src/dwiprep/dwiprep.py:168-172 | `sessions_wfs +=`: one more session appends the names of its runs after those of the sessions before it |
| DmriPrepManager.Manager.JoinRuns | src/dwiprep/dwiprep.py:173-176 | appends the joins of every run to the anatomical workflow |
| DmriPrepManager.Manager.PreprocessSubject | src/dwiprep/dwiprep.py:154-176 | missing T1w or T2w data raises the anatomical step's TypeError before any session is collected; otherwise the subject's workflow, named after it and based in the working directory, holding the joins of all its runs, which are the runs of its sessions in order (`RunNames`); the pass succeeds exactly when the anatomical data is there, every session lists its runs and all those runs build in turn on the shared input node |
| DmriPrepManager.SubjectsStep | src/dwiprep/dwiprep.py:177 | storing the next label's workflow keeps the table one entry per distinct label seen so far, each built with the runs recorded for it, the replaced one included |
| DmriPrepManager.Manager.PreprocessSubjects | src/dwiprep/dwiprep.py:151-178 | a participant without T1w or T2w data fails the call; otherwise one workflow per distinct label, joined to exactly the run workflows of that subject's sessions, in order (`RunNames`); a later duplicate label replaces the earlier workflow; the call succeeds exactly when every label has its anatomical data and lists its sessions' runs (`SubjectsReady`) and all the labels' runs, label by label, build in turn on the shared input node (`LabelRuns`) |
| DmriPrepManager.LabelRunsStep | src/dwiprep/dwiprep.py:155-172 | one more subject: its runs are built after those of the labels before it, on the inputs those left on the shared node |
| DmriPrepManager.SubjectFails | src/dwiprep/dwiprep.py:155-176 | a subject that stops the loop means not every label is ready or not all the runs build |

## Left out

- NIfTI header and dtype rewriting in `_run_interface` (src/dwiprep/interfaces/dds.py:416-500) is left out. It loads images with nibabel, sets qform and sform, and coerces dtypes with numpy, which is floating point and foreign code. Only the discrete decisions are modelled: whether the image is loaded at all, whether a header needs fixing, and the codes and units it gets.
- File effects are not modelled. This covers copying outputs, writing the JSON sidecar, `mkdir` of output and working directories, writing and unlinking the BIDS filter file, and creating symbolic links. The model keeps the names and paths these effects use: the sidecar name, the filter-file path, the symlink target. It also keeps the metadata that would be written.
- pybids is a set of parameters: `BIDSLayout.get`, `parse_file_entities`, `get_metadata` and `build_path`. The optional-bracket rendering of the output path patterns and the value normalisations pybids performs (such as `run-01` to `run-1`) are not modelled. Their code is not part of this model.
- Only the parts of nipype that wiring needs are modelled. Execution, `clone`, MapNode iteration and IdentityInterface trait validation are left out. So are nipype's checks of node, workflow and port names. For example, src/dwiprep/workflows/coreg/pipelines/coregister.py:70-75 passes `in_fields=` where IdentityInterface expects `fields=`; `Coregister.InitApplyTransform` does not model the nodes built that way. Likewise src/dwiprep/workflows/dmri/pipelines/derivatives/nodes.py:106-114 and 128-136 connect the inference node's `in_file`, which is one of its inputs and not one of its outputs; `DerivativesNodes.TensorSinkFed` records that edge as written. `connect` appends edges and never rejects one. Sub-workflows the builders receive from other modules are node names with ports.
- Process execution is left out: `os.system` and the singularity call of both smriprep drivers, the `mrinfo` subprocess, `dwiextract`, and the `run` methods that start them. The model stops at the command line.
- Output discovery with `rglob` in the smriprep driver is a parameter, so `find_output` filters whatever the parameter returns.
- `FREESURFER_HOME`, `SUBJECTS_DIR`, the current directory and file existence are parameters.
- Phase-encoding inference and fieldmap pairing are parameters. This covers `check_opposite_phase_encoding`, `get_fieldmaps`, the `BidsQuery` class, `get_inputnode`, `build_conversion_nodes`, `generate_conversion_workflow`, `init_mrconvert_node`, `init_anat_preproc_wf` and `collect_derivatives`. Their definitions are not part of this model. The node names of smriprep's anatomical workflow are a parameter of the subject loop. IntendedFor matching and opposite-direction selection are not modelled.
- The v2 driver's `get_sessions`, `sessions` and `build_workflow`, and the `mrconvert(kwargs)` call, are not modelled. They only call those imported helpers.
- Modules that only declare constant edge lists and node templates are not modelled, with two exceptions. The excluded ones are the conversion, reference, preprocessing and base node and edge tables and their configuration files. Their constants enter the model only where a modelled builder uses them. The tensor configuration and edge table are modelled, as `TensorConfig` and `TensorEdges`.
- Some source files are left out because they are broken or unfinished:
  - src/dwiprep/workflows/dmri/pipelines/tensor_estimation/tensor_estimation.py imports names its sibling modules do not define;
  - src/dwiprep/workflows/dmri/pipelines/derivatives/derivatives.py has an empty body;
  - src/dwiprep/workflows/coreg/pipelines/apply_transforms.py is unfinished.
- src/dwiprep/utils/bids_query/bids_query.py still holds merge-conflict markers at lines 9-12 and 49-59, so it cannot be imported. `BidsQuery` models the logic both sides agree on.
- dwiprep/workflows/smri/smriprep.py imports its tables from the newer `src/dwiprep/workflows/smri/utils/utils.py`, so `SmriPrep` uses `SmriUtils`. The manager uses the first copy, `SmriUtilsLegacy`.
- The smriprep drivers' `__getattr__`-style lookups of option values are modelled only for the attributes the automatic options name: the participant label, the working directory and the filter-file path.
- Dds.InitialInputs: a keyword argument whose value a trait rejects (a string for `compress`, a number for `in_file`) raises nipype's TraitError; the model leaves that trait at its default instead. A list of several `compress` flags cannot be given at construction, because the model's dynamic values hold lists of strings only; the DWI workflow passes a single flag.
- DmriBase.InitDwiPreprocWf: the conversion sub-workflow is referred to by `init_conversion_wf`'s default name, "mif_conversion_wf". The call at src/dwiprep/workflows/dmri/base.py:129 passes the input node as that name instead. What nipype makes of a node given as a workflow name is not modelled.
- DerivativesNodes.InferMetric: lower-cases ASCII letters only, where Python's `str.lower()` folds every Unicode letter. A metric name with non-ASCII capitals is matched case-sensitively.
- Logging is not modelled as output. Warnings come back as lists of messages, and info messages are dropped.

## Findings

| source | as written | input that shows it | evidently intended | confidence | as-written member | corrected member |
|---|---|---|---|---|---|---|
| src/dwiprep/dwiprep.py:104-110 | `preprocess_session` passes the manager's working directory as the fifth positional argument of `DmriPrep`, which is the `session` parameter; the runs then default to `<destination>/work` | a manager with destination "/out" and working directory "/scratch": the subject workflow is built in "/scratch", its runs in "/out/work" | the runs are built in the manager's working directory (`work_dir=self.work_dir`) | not executed | DmriPrepManager.SessionWorkDirDiffers | DmriPrepManager.Manager.PreprocessSessionInWorkDir |
| dwiprep/workflows/smri/smriprep_manager.py:171-182 | `add_kwargs_to_command` renders a list option as its bare elements, without the option name, and a boolean option as its bare name whatever its value | the default options `{"--output-spaces": ["MNI152NLin2009cAsym", "anat"]}` render as " MNI152NLin2009cAsym anat"; `("--sloppy", False)` renders as " --sloppy" | a list's elements follow its option name, as the other smriprep driver renders them, and a false flag is not passed | not executed | SmriprepManager.DefaultKwargsUnnamed | SmriprepManager.OptionNamed |
