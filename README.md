# Parameter-store export, modelled in Dafny

This project models `exportParameterToFile` from newman-aws-utils. The function takes an
array of parameter-store key names and makes one `getParameters` request to AWS SSM.
It classifies the reply, then writes each resolved parameter's value to
`./data/<file name>.json` and hands the list of written paths to its callback.
A file name comes from the hierarchical key. Leading and trailing `/` are stripped,
and every remaining `/` becomes `-`.

Modules:

- `Wrappers`: `Option` for fields the response may lack, and `Result` for the
  error-first callback.
- `Naming`: the file-name derivation (`_.trim(name, '/')`, then `/` → `-`),
  characterised character by character.
- `NamingExamples`: worked cases, and keys that collide on one file name.
- `Paths`: `path.format({dir: './data', name, ext: '.json'})`. Its shape, its
  injectivity in the file name, and the fact that every output sits directly in `./data`.
- `Ssm`: parameters, responses, replies. The store is an injected object whose answer
  to each request is fixed by a function; it logs every request it receives.
- `Fs`: the file system as a set of directories and a map from path to content.
  `existsSync`, `mkdirSync` and `writeFileSync` are methods on it.
- `Materialize`: the batch written as a sequence of whole-file writes. It covers what
  those writes do to every path (last write wins; nothing else changes; a rerun
  changes nothing) and the write loop `writeResponseToFile`. The batch functions
  take the key-to-path derivation as a parameter, so these facts hold for any
  derivation. The export always passes `PathFor`.
- `Export`: `callSsm` and `exportParameterToFile`, with the pure classification of
  a reply that they are proved against.

The model follows the code in these points:

- The output directory is the fixed `./data`.
- The store is asked by `callSsm`, which calls the writer itself.
- `fs.existsSync` is true for a regular file too. So the model promises only that
  `./data` exists as a directory or as a file afterwards. It is created as a
  directory only when nothing by that name existed.
- The returned list has one entry per resolved parameter, duplicates included.
  Two keys that derive to the same file name give one file and two equal
  entries. So "one file per parameter, holding its value" is proved only for
  batches whose file names are distinct (`DistinctNamesRoundTrip`).

## Model

| member | source | states |
|---|---|---|
| Naming.LeadingSeparators | lib/export_parameter_to_file.js:65 | the length of the maximal run of `/` at the start of the key |
| Naming.TrailingSeparators | lib/export_parameter_to_file.js:65 | the length of the maximal run of `/` at the end of the key |
| Naming.Trim | lib/export_parameter_to_file.js:65 | `_.trim(name, '/')` is the key with its leading run of `/` and a trailing run of `/` cut off; the result neither starts nor ends with `/` |
| Naming.TrimUnique | lib/export_parameter_to_file.js:65 | only the maximal runs are stripped: any cut of separator runs that leaves no `/` at either end equals `Trim` |
| Naming.ReplaceSeparators | lib/export_parameter_to_file.js:65 | the global `/` → `-` replace keeps the length and maps each character on its own, every `/` to exactly one `-` |
| Naming.FileName | lib/export_parameter_to_file.js:65 | the derived name holds no `/`, has the length of the trimmed key, and its k-th character is the k-th interior character of the key with `/` turned into `-` |
| Naming.FileNameOfFlat | lib/export_parameter_to_file.js:65 | a key with no `/` is its own file name |
| Naming.FileNameIdempotent | lib/export_parameter_to_file.js:65 | deriving the name of a derived name changes nothing |
| NamingExamples.ExampleLeadingSeparator | lib/export_parameter_to_file.js:65 | `/a/b/c` gives `a-b-c` |
| NamingExamples.ExampleTrailingSeparator | lib/export_parameter_to_file.js:65 | `a/b/` gives `a-b` |
| NamingExamples.ExampleDoubledSeparator | lib/export_parameter_to_file.js:65 | `a//b` gives `a--b` |
| NamingExamples.ExampleFlatKey | lib/export_parameter_to_file.js:65 | `singleKey` gives `singleKey` |
| NamingExamples.ExampleOnlySeparators | lib/export_parameter_to_file.js:65 | every key made only of `/`, the empty key included, gives the empty name |
| NamingExamples.FileNameCollisions | lib/export_parameter_to_file.js:63-65 | `/a/b`, `a/b/` and `a-b` all derive to `a-b`; the derivation is not injective |
| Paths.PathShape | lib/export_parameter_to_file.js:57-66 | the output path equals `./data/` + file name + `.json`, whatever the value |
| Paths.NameOfPathRoundTrip | lib/export_parameter_to_file.js:65-66 | an output path is as long as prefix, file name and extension together, and cutting prefix and extension off gives back the derived file name |
| Paths.PathIsFlat | lib/export_parameter_to_file.js:57-66 | the only `/` in an output path are the two of `./data/`, so every file sits directly in `./data` |
| Paths.PathForInjective | lib/export_parameter_to_file.js:65-66 | two keys share an output path exactly when they share a file name |
| Ssm.ParameterStore.constructor | lib/export_parameter_to_file.js:36 | a store with a fixed answer function and no requests yet |
| Ssm.ParameterStore.GetParameters | lib/export_parameter_to_file.js:32-38 | the request is logged with its names, and the reply is the store's answer to them |
| Fs.FileSystem.constructor | lib/export_parameter_to_file.js:2 | a file system with the given directories and files |
| Fs.FileSystem.MakeDirectory | lib/export_parameter_to_file.js:59 | `mkdirSync` adds the directory and leaves the files alone |
| Fs.FileSystem.WriteFile | lib/export_parameter_to_file.js:68 | `writeFileSync` sets the path's content, replacing any earlier one, and leaves the directories alone |
| Materialize.Writes | lib/export_parameter_to_file.js:62-68 | one write per parameter, in order, of its value to its derived path |
| Materialize.OutputPaths | lib/export_parameter_to_file.js:61-73 | one path per parameter, in order; the i-th is the path derived from the i-th name |
| Materialize.PrefixStep | lib/export_parameter_to_file.js:62-73 | one more parameter appends one path and one write |
| Materialize.LastWriter | lib/export_parameter_to_file.js:62-68 | the index of the write to a path that no later write to that path follows |
| Materialize.ApplyAt | lib/export_parameter_to_file.js:62-68 | after the writes, a written path holds the content of its last write, and every other path is as before; no path disappears |
| Materialize.TargetsOutputPaths | lib/export_parameter_to_file.js:62-73 | a path is written exactly when it is among the returned paths |
| Materialize.Untouched | lib/export_parameter_to_file.js:62-68 | a file whose path is not returned keeps its presence and its content |
| Materialize.UntouchedAll | lib/export_parameter_to_file.js:62-68 | the same, for all such paths at once |
| Materialize.LastWriteWins | lib/export_parameter_to_file.js:62-68 | a later write overwrites an earlier one: if no later parameter derives to parameter j's path, that file holds j's value |
| Materialize.DistinctPathsRoundTrip | lib/export_parameter_to_file.js:62-68 | for any derivation, with distinct paths the i-th returned path holds exactly the i-th value |
| Materialize.DistinctNamesRoundTrip | lib/export_parameter_to_file.js:62-68 | with the export's derivation and distinct file names, the i-th returned path holds exactly the i-th value |
| Materialize.RerunIdempotent | lib/export_parameter_to_file.js:62-68 | writing the same batch again leaves the files as the first run left them |
| Materialize.WriteResponseToFile | lib/export_parameter_to_file.js:56-78 | `./data` is created only if nothing by that name existed, and no directory is lost. The files become the batch's writes applied to the old files, and no file disappears. The returned list is the derived paths in order, and files outside it are unchanged |
| Export.Classify | lib/export_parameter_to_file.js:38-52 | a transport error is passed on unchanged; otherwise any invalid name fails the batch even if parameters resolved; an absent or empty list lets the parameters through |
| Export.Outcome | lib/export_parameter_to_file.js:38-52 | the callback gets the classification's error, or the output paths of the resolved parameters |
| Export.PartialResolutionFails | lib/export_parameter_to_file.js:42-46 | a non-empty `InvalidParameters` fails with the invalid-parameters error; an empty or absent one succeeds |
| Export.SuccessPaths | lib/export_parameter_to_file.js:57-77 | on success there is one path per resolved parameter, in order, each `./data/` + file name + `.json` |
| Export.CallSsm | lib/export_parameter_to_file.js:31-54 | one request with the names. On an error the files and directories are unchanged. On success the writes are applied, and the result is `Outcome` of the reply |
| Export.ExportParameterToFile | lib/export_parameter_to_file.js:12-29 | a non-array fails with the argument error, with no request and no file change. An array is requested once, the result is `Outcome` of the reply, and the files change only on success |

## Left out

- The AWS SDK client: its construction, credentials, region and network behaviour. The
  store is an injected object whose answers are given by a function.
- The `WithDecryption: true` request option. It is constant, and the model treats
  values as already decrypted.
- Console logging.
- The Node callback style and the `err.stack` second argument of `callSsm`'s callback.
  `exportParameterToFile` does not forward that argument. The flow is one sequential
  method returning a `Result`.
- The error message texts. The model keeps the three error kinds, not their strings.
- File-system failures. `writeFileSync` throws rather than calling the function given
  as its third argument. The same goes for a failing `mkdirSync`, and for writes under
  a `./data` that exists as a regular file. Writes are total updates of the file map.
- Concurrent runs and racing writers.
- Inputs outside the declared shapes: array elements that are not strings, and
  `Parameters` or `InvalidParameters` fields that are present but are not arrays.
- The other branches of `path.format`: a `root`, a `base`, or an extension without a
  dot. The call site never uses them.
- Naming.Trim: works on single characters. lodash's `_.trim` compares Unicode symbols, so a
  `/` followed by a combining mark, a variation selector, an emoji skin-tone modifier
  (U+1F3FB–U+1F3FF), or a zero-width joiner followed by another character is kept by the program but stripped by the model (`"/\u0301a"` becomes `-\u0301a` there and
  `\u0301a` here). Parameter-store names are limited to `a-zA-Z0-9_.-/`, so the store never
  returns such a key.
- File identity: paths are compared as exact, case-sensitive, unnormalised strings, so
  `Materialize.Untouched`, `Materialize.UntouchedAll`, `Materialize.DistinctNamesRoundTrip` and the
  frame clauses of `Materialize.WriteResponseToFile` describe a case-sensitive file system. On a
  case-insensitive one (`./data/svc-Key.json` and `./data/svc-key.json` being one file), two
  parameters whose names differ only in case leave one file, and an existing file whose path
  differs from an output path only in case is overwritten.
