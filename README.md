# site-import: project configuration, file routing and export

A Dafny model of the core of `site-import`. This tool merges several
independently rooted site projects, found through file-system symlinks, into
one output tree. Each file is routed through the transform streams registered
for the glob patterns it matches. Each resulting file is then either copied
into the output or linked back to its original.

The model covers:

- the project configuration (`ProjectConfig`): default properties, `extend`,
  `copy`, the pattern → stream registry (`transform`) and the
  "longest matching pattern wins" lookup (`match`);
- the grep stream: the split of a pattern list into including and `!`-excluding
  globs, and the per-file decision to run the callback or forward the file;
- the per-file transform stage: stamping `prefix`, `url` and `originalUrl`
  (`makeUrl`), the no-match passthrough, building a fresh pipeline from the
  matched items' factories, running the file through it, and wrapping failures
  as `FileImportError`;
- the two error wrappers and the stack rewriting of `formatStackTrace`;
- the symlink writer: option defaults and validation, the write path, the
  per-stream cache of created folders, the relative link target back to
  `history[0]`, and `EEXIST` counted as success;
- the export stream: the `symlink`-flag split into the copy and link branches,
  the router into the single matched transform, the source options, the output
  folder and the two-branch completion barrier;
- project discovery: the recursive symlink walk over a directory tree, and the
  configuration builder. The builder pops links off a copy of the list, resolves
  each one's real path and names it from its manifest or its own basename;
- the registration stages: the `**/*.*` symlink marker, and the html/css URL
  rewriter registration with its merged configuration. Also the file-level
  rewriter's choice by extension.

JavaScript values are the `Js.Value` datatype. An object is a map of its own
enumerable properties. Thrown errors are `Js.JsError` values, and promises and
callbacks are `Result`/`Step` values. A path is a sequence of segments (`Paths`).
Glob matching is a parameter `Matcher = (pattern, path) -> bool`. The file
system's answers (realpath, readdir/lstat, mkdir, symlink, manifest read) are
inputs: values, functions or a tree datatype. A class stands for each object
whose fields the source updates in place: `ProjectConfig`, the symlink writer
with its folder cache, the filter, router and export streams, and the two
registration stages.

## Model

| member | source | states |
|---|---|---|
| `Project.NewProjectConfig` | lib/project-config.js:7-12 | A new configuration fails exactly for `null` data; otherwise it holds the defaults overlaid by the data, as `Created` gives them |
| `Project.CreatedFromObject` | lib/project-config.js:7-12 | A new configuration has the data's keys plus `ignore` and `transforms`. `ignore` defaults to `['{node_modules,bower_components}/**']` and `transforms` to `{}` unless the data names them; every data key holds a shallow copy of its value |
| `Project.ProjectConfig.Defaults` | lib/project-config.js:9-10 | The properties before any data is applied are exactly the default ignore list and an empty registry |
| `Project.ProjectConfig.Extend` | lib/project-config.js:14-27 | Assigning the data's keys one at a time gives exactly `Extended(old props, data)`. `null` throws a TypeError and leaves the properties unchanged |
| `Project.ExtendedSemantics` | lib/project-config.js:14-27 | `extend` fails iff the data is `null`. For an object it adds exactly the data's own keys, each holding a shallow copy (arrays sliced, objects copied), and keeps every other property. For a non-object it changes nothing |
| `Project.CopiedFieldsIdempotent` | lib/project-config.js:18-22 | Copying a copied property set again changes nothing |
| `Project.CopiedFieldsIdentity` | lib/project-config.js:18-22 | Copying keeps every value except `null` and streams, which become plain objects |
| `Project.ProjectConfig.Copy` | lib/project-config.js:29-31 | `copy(override)` gives a fresh configuration holding `Copied(props, override)`. It fails iff the override is `null`, and it leaves the original unchanged (no `modifies`) |
| `Project.CopySemantics` | lib/project-config.js:29-31 | A copy holds a shallow copy of every property of the original, overlaid by the override's own keys |
| `Project.Transformed` | lib/project-config.js:40-47 | `transform` only ever changes the `transforms` property. When it throws, the error is a TypeError and nothing changes |
| `Project.ProjectConfig.Transform` | lib/project-config.js:40-47 | The method's completion and new properties are exactly `Transformed(old props, pattern, stream)` |
| `Project.RegisterOverwrites` | lib/project-config.js:44-46 | Registering a stream sets that pattern's entry and leaves every other pattern's entry as it was |
| `Project.RegisterThenDelete` | lib/project-config.js:41-46 | Registering a stream and then calling `transform(p, null)` returns `true` and leaves the registry without `p` |
| `Project.DeleteThrowsIffUnregistered` | lib/project-config.js:41-46 | `transform(p, null)` throws exactly when `p` is not registered |
| `Project.NonStreamIsNoOp` | lib/project-config.js:44-46 | A value that is neither `null` nor stream-like returns `undefined` and changes nothing |
| `Project.ProjectConfig.Match` | lib/project-config.js:54-62 | `Object.keys` of a `null` or `undefined` registry throws a TypeError. If no registered pattern matches, the result is `undefined`. Otherwise it is the entry of a matching pattern that no other matching pattern is longer than |
| `Project.Keyed` | lib/project-config.js:55 | `Object.keys` throws a TypeError exactly for `null` and `undefined`. An object gives its own properties; an array or string gives its indices |
| `Project.LongestRegisteredWins` | lib/project-config.js:55-61 | A matching pattern strictly longer than every other matching one is the only possible longest match |
| `Project.DeletedNeverMatched` | lib/project-config.js:41-61 | After `transform(p, null)` deletes a registered pattern, `Object.keys` of the registry left behind succeeds and gives exactly the old keys without `p`, and no lookup over that registry picks `p` |
| `Grep.MakeGrep` | lib/grep.js:10-27 | A function in the options place becomes the callback. A single pattern is a one-element list, and the lists are the positive/negative split of it |
| `Grep.Partition` | lib/grep.js:20-27 | The setup loop builds exactly the `Positive` and `Negative` lists |
| `Grep.PartitionSizes` | lib/grep.js:21-27 | Every pattern lands in exactly one of the two lists |
| `Grep.PositiveMembers` | lib/grep.js:21-27 | A pattern is in the positive list iff it is in the list and does not start with `!` |
| `Grep.NegativeMembers` | lib/grep.js:21-27 | `g` is in the negative list iff `"!" + g` is in the pattern list |
| `Grep.MixedPatternList` | lib/grep.js:16-27 | The html/css/`!about/index.html` list splits into the two includes and the one exclude without its `!` |
| `Grep.AnyMatch` | lib/grep.js:47-49 | `matches` is true iff some glob of the list matches, so it is false for an empty list |
| `Grep.SelectedIff` | lib/grep.js:32-33 | A file is selected iff (there is no including pattern, or one matches) and no excluding pattern matches once its `!` is removed |
| `Grep.Selected` | lib/grep.js:32-33 | A selected file matches no excluding pattern. With no patterns at all every file is selected, and with no excluding pattern a file matching an including one is selected |
| `Grep.OnlyNegations` | lib/grep.js:32-33 | With only excluding patterns, a file is selected iff none of them matches |
| `Grep.GrepStep` | lib/grep.js:31-43 | An unselected file is forwarded unchanged. A selected file goes to the callback, and an exception from the callback becomes the step's error instead of propagating |
| `FileTransform.MakeUrl` | lib/stream/file-transform.js:76-89 | The URL always starts with `/`. A path whose basename is not `index.<word chars>` is returned with only that leading slash added. An index file gives a URL ending in `/` |
| `FileTransform.MakeUrlOfPath` | lib/stream/file-transform.js:76-89 | For a normalised path, with or without its leading `/`, `makeUrl` is the path itself, or the folder with one trailing `/` for an index file |
| `FileTransform.IndexUrls` | lib/stream/file-transform.js:81-86 | `index.html` maps to `/` and `about/index.html` to `/about/` |
| `FileTransform.TwoExtensionsUrl` | lib/stream/file-transform.js:81 | `index.min.js` is not an index file and keeps its path |
| `FileTransform.PageUrl` | lib/stream/file-transform.js:76-81 | A non-index page's URL is its path with a leading `/` |
| `FileTransform.Stamp` | lib/stream/file-transform.js:28-30 | Stamping sets `prefix` to the project's prefix and changes no field other than `prefix`, `url` and `originalUrl` |
| `FileTransform.StampedUrls` | lib/stream/file-transform.js:28-30 | For an absolute prefix, `url` is the URL of the prefix joined with the relative path, and `originalUrl` the URL of the relative path |
| `FileTransform.StampedUrlsRelative` | lib/stream/file-transform.js:28-30 | For a relative normalised prefix, as the project locator produces, `url` is likewise the URL of the prefix joined with the relative path, and `originalUrl` the URL of the relative path |
| `FileTransform.MakeStages` | lib/stream/file-transform.js:41-47 | Building the pipeline succeeds iff every factory returns a stage, and then it has one stage per item in order. Otherwise the error is that of the first factory that threw |
| `FileTransform.FirstThrow` | lib/stream/file-transform.js:41-47 | When the i-th factory is the first to throw, its exception is the result |
| `FileTransform.AllMade` | lib/stream/file-transform.js:42-44 | When every factory runs, the pipeline is exactly their stages |
| `FileTransform.BuildPipeline` | lib/stream/file-transform.js:41-47 | The map loop computes exactly `MakeStages` |
| `FileTransform.RunAgreesWithCompose` | lib/stream/file-transform.js:50-64 | Running files depth-first through the stages, collecting at the end, ends without error iff the stage-by-stage composition succeeds. It then pushes exactly the composed files, however many each stage emits |
| `FileTransform.RunFiles` | lib/stream/file-transform.js:50-64 | With no stages the files are pushed unchanged and there is no error |
| `FileTransform.FileStep` | lib/stream/file-transform.js:26-65 | With no matched items the stamped file is forwarded unchanged. A throwing factory gives `FileImportError(file, err)`. Otherwise the step succeeds iff the composition does and pushes its output, and every error is a `FileImportError` for that file |
| `FileTransform.FileStepOfPipeline` | lib/stream/file-transform.js:34-64 | With matched items the step is the pipeline's run, its error wrapped as a `FileImportError` |
| `FileTransform.FileTransformStream.constructor` | lib/stream/file-transform.js:19-23 | A new stream stores the project's prefix and has pushed nothing yet |
| `FileTransform.RunFileStep` | lib/stream/file-transform.js:26-65 | Building the pipeline and then running the file computes exactly `FileStep` |
| `FileTransform.FileTransformStream.Transform` | lib/stream/file-transform.js:26-65 | The stream's output grows by exactly the files the step pushes, and `next` receives the step's error |
| `Errors.FileImportError` | lib/errors.js:7-17 | The message is `err.message + ' in file ' + path + '\n'` and the stack is reformatted from it. Every field of `err` is copied, and `file` holds the path unless `err` has its own `file` |
| `Errors.ProjectImportError` | lib/errors.js:20-30 | The message is `err.message + ' of project ' + prefix + '\n'` and the stack is reformatted from it. Every field of `err` is copied, and `project` holds the prefix unless `err` has its own `project` |
| `Errors.FirstBreak` | lib/errors.js:35 | The first run of two or more newlines starts at the index returned, and at no earlier index |
| `Errors.FormatStackTrace` | lib/errors.js:34-37 | The rebuilt stack starts with `Error: ` and ends with the kept block of the original stack, which holds no double newline |
| `Errors.StackTailHasNoBreak` | lib/errors.js:34-37 | The block kept from the original stack never contains a double newline |
| `Errors.FormatStackHead` | lib/errors.js:34-37 | The first block of a rebuilt stack is `'Error: ' + message.trim()` |
| `Errors.FormatKeepsThrowSite` | lib/errors.js:34-37 | Reformatting a rebuilt stack again keeps the same throw-site block |
| `Errors.FileImportErrorKeepsThrowSite` | lib/errors.js:7-17 | A file error's stack starts with its own message line and ends with the original error's throw-site block |
| `WriteSymlink.StringOrFunc` | lib/write-symlink.js:68-74 | A string is returned as is and a function is applied to the file. Anything else gives `null` |
| `WriteSymlink.Settings` | lib/write-symlink.js:31-35 | The options overlay the defaults `cwd: process.cwd()`, `dest: ''` and `dirMode: null` |
| `WriteSymlink.BasePath` | lib/write-symlink.js:43-47 | A truthy `base` (a string, or a function's truthy string result) is the base, resolved from the process's working directory. Otherwise the base is `dest` resolved against `cwd`, and a non-string `dest` throws a TypeError. A truthy `base` that is neither a string nor a function, or a function whose result is falsy, rejects with `Invalid base option`. An error thrown by the `base` function is passed on |
| `WriteSymlink.WritePath` | lib/write-symlink.js:31-50 | A non-string `cwd` throws a TypeError. A falsy `dest`, a truthy `dest` that is neither a string nor a function, or a `dest` function whose result is falsy rejects with `Invalid output folder`. An error thrown by the `dest` function is passed on |
| `WriteSymlink.DefaultDestRejects` | lib/write-symlink.js:31-41 | Without a `dest` option the write always rejects with `Invalid output folder` |
| `WriteSymlink.WritePathUnderDest` | lib/write-symlink.js:43-49 | With a string `dest` and no `base`, the write path is `cwd + dest + file.relative` |
| `WriteSymlink.WritePathUnderBase` | lib/write-symlink.js:43-49 | With an absolute string `base`, the write path is `base + file.relative`, whatever `cwd` is |
| `WriteSymlink.SiblingsShareFolder` | lib/write-symlink.js:49-55 | Files in the same relative folder have the same target folder, so the cache serves the second |
| `WriteSymlink.SymlinkTarget` | lib/write-symlink.js:18-19 | The target exists iff the file has a history. An empty history throws |
| `WriteSymlink.TargetRoundTrip` | lib/write-symlink.js:18-19 | The relative link target, resolved from the link's folder, is `history[0]`, the original source path |
| `WriteSymlink.LinkError` | lib/write-symlink.js:20-23 | A symlink error is dropped iff its code is `EEXIST`. Any other error is passed on unchanged |
| `WriteSymlink.SymlinkWriter.constructor` | lib/write-symlink.js:13-15 | A new writer has the grep split of its pattern, an empty folder cache and no effects yet |
| `WriteSymlink.SymlinkWriter.PrepareWrite` | lib/write-symlink.js:29-66 | An invalid option rejects without touching the cache. A cached folder resolves without a mkdir. Otherwise one mkdir is attempted: on success the folder is cached, and on failure it rejects and the cache is unchanged |
| `WriteSymlink.SymlinkWriter.Write` | lib/write-symlink.js:13-27 | An unselected file is forwarded untouched. A selected file is never forwarded; it gets one link to its relative target, and the error is `LinkError` of the symlink outcome, or the preparation error |
| `ExportProject.Kept` | lib/stream/export-project.js:101-107 | A filter passes on only files whose flag agrees with it, never more than it got |
| `ExportProject.KeptMembers` | lib/stream/export-project.js:101-107 | A file is passed on iff it was given and `keepSymlinks === !!file.symlink` |
| `ExportProject.Keep` | lib/stream/export-project.js:102 | A file whose `symlink` is absent, `null` or `false` is kept exactly by the copy filter; one whose `symlink` is `true` exactly by the link filter |
| `ExportProject.BranchesPartition` | lib/stream/export-project.js:57-67 | Together, the copy branch and the link branch receive every file exactly as often as it arrived (as multisets) |
| `ExportProject.UnflaggedIsCopied` | lib/stream/export-project.js:95-106 | A file with an absent or false `symlink` flag is copied and not linked |
| `ExportProject.SymlinkFilter.constructor` | lib/stream/export-project.js:95-98 | The filter's flag is `!!keepSymlinks` |
| `ExportProject.SymlinkFilter.Transform` | lib/stream/export-project.js:101-107 | Each file is pushed iff its flag agrees, and the output stays `Kept` of all input |
| `ExportProject.FileRouter.constructor` | lib/stream/export-project.js:73-76 | A new router stores its project and has passed on and redirected nothing |
| `ExportProject.FileRouter.Transform` | lib/stream/export-project.js:79-89 | A registry `Object.keys` rejects fails with a TypeError. A file matching no pattern is pushed unchanged. Otherwise the entry of a longest matching pattern decides: a falsy one pushes the file on, a truthy one with a `write` method receives it, and a truthy one without `write` fails with a TypeError |
| `ExportProject.Streams` | lib/stream/export-project.js:33-36 | The streams piped into the fitting are exactly the values of the registry's keys, and none when `Object.keys` throws |
| `ExportProject.SourceOptions` | lib/stream/export-project.js:23-30 | The source options carry `cwd`, `ignore` and `nodir: true`, and carry `buffer` iff the project's `buffer` is a boolean |
| `ExportProject.Barrier` | lib/stream/export-project.js:45-55 | With the counter at 2, the first branch end reports nothing and the second reports the project once |
| `ExportProject.CompletionsBelowOne` | lib/stream/export-project.js:46-47 | Once the counter is at or below 1, every further end reports again |
| `ExportProject.ExportProjectStream.constructor` | lib/stream/export-project.js:9-13 | A new export stream stores `dest` as given, whatever its type, with nothing piped, the counter at 0 and no project reported |
| `ExportProject.ExportProjectStream.Write` | lib/stream/export-project.js:16-45 | A `dest` or prefix that is not a string, or a registry `Object.keys` rejects, throws before anything is piped. An entry without `pipe` throws after piping only registered streams. Every throw leaves the output folder, source options and counters unchanged. Otherwise the output folder is `join(dest, project.prefix)`, every registered stream is piped and the counter is set to 2 |
| `ExportProject.ExportProjectStream.PipeEach` | lib/stream/export-project.js:34-36 | The `forEach` succeeds iff every entry has `pipe`, and then pipes exactly the registry's values. Otherwise it throws a TypeError, having piped only registry values |
| `ExportProject.ExportProjectStream.BranchEnded` | lib/stream/export-project.js:46-55 | Each end decrements the counter. When it runs out, every registered stream is unpiped and the project is reported done once. A registry `Object.keys` rejects, or an entry without `unpipe`, throws without reporting the project, having unpiped only registered streams |
| `SymlinkConfig.BaseDir` | lib/symlink-config.js:17 | The base folder is `symlinks.dir` when truthy, else the current directory |
| `SymlinkConfig.CreatedLink` | lib/symlink-config.js:43-45 | The configuration `create` starts from is the defaults plus `basePath` and `prefix` |
| `SymlinkConfig.RealPathOfPlain` | lib/symlink-config.js:55-67 | `realPath` rejects with the realpath error, or adds `src` set to the real path of `join(basePath, prefix)` |
| `SymlinkConfig.RealPath` | lib/symlink-config.js:55-67 | The method computes `RealPathStep` and returns a fresh copy on success |
| `SymlinkConfig.NameFor` | lib/symlink-config.js:78-91 | The name is the manifest's `name` when it was read and is truthy, otherwise the basename of the link |
| `SymlinkConfig.NameFromManifest` | lib/symlink-config.js:84-92 | After a manifest read, the configuration is the original with `name` set to `NameFor` |
| `SymlinkConfig.NameOfPlain` | lib/symlink-config.js:76-98 | Whatever the manifest lookup gives, `projectName` resolves with `name` set to `NameFor`. A missing manifest and a failed read are not errors |
| `SymlinkConfig.ProjectName` | lib/symlink-config.js:76-98 | `name` is first set on the given configuration itself. Without a manifest that same object is returned; with one, a fresh copy is returned |
| `SymlinkConfig.CreateConfig` | lib/symlink-config.js:43-48 | A new configuration, then `realPath`, then `projectName`, computes exactly `ConfigFor` |
| `SymlinkConfig.Resolve` | lib/symlink-config.js:45-47 | `realPath` and then `projectName` on a new configuration reject with the first step's error, or give a fresh configuration holding `Resolved` of its properties |
| `SymlinkConfig.ConfigFor` | lib/symlink-config.js:43-48 | A base folder that is not a string makes `path.join` in `realPath` throw a TypeError |
| `SymlinkConfig.ConfigForUnresolved` | lib/symlink-config.js:55-67 | A link whose path does not resolve fails with the realpath error |
| `SymlinkConfig.ConfigForResolved` | lib/symlink-config.js:43-98 | A resolved link's configuration is the defaults, `basePath`, `prefix`, `src` set to the real path, and the name |
| `SymlinkConfig.ConfigForFields` | lib/symlink-config.js:43-98 | A link configures iff the base folder is a string and its path resolves. Each failure case gives its error, and the success case gives exactly the fields above |
| `SymlinkConfig.BuiltCons` | lib/symlink-config.js:31-37 | Because links are popped from the end, the first link's configuration comes last |
| `SymlinkConfig.Built` | lib/symlink-config.js:15-41 | There are never more configurations than links, and when the last link configures its configuration comes first |
| `SymlinkConfig.BuiltIsReversedSuccesses` | lib/symlink-config.js:21-38 | The result is the configurations of the links that configure, in reverse input order. Failed links are dropped |
| `SymlinkConfig.AllConfigured` | lib/symlink-config.js:21-38 | When every link configures, there is one configuration per link, last link first |
| `SymlinkConfig.NoneConfigured` | lib/symlink-config.js:21-38 | When no link configures, or the list is empty, the result is `[]` with no rejection |
| `SymlinkConfig.CreateNext` | lib/symlink-config.js:31-37 | Creating the config for the next popped link extends the collected result by exactly that config, if it resolves |
| `SymlinkConfig.BuildConfigs` | lib/symlink-config.js:15-41 | The pop loop over a copy of the list returns fresh configurations whose properties are exactly `Built` of the links. The input list is a value and is not changed |
| `FindSymlinks.FirstStatError` | lib/find-symlinks.js:24-45 | An lstat failure is found iff some entry's lstat failed, and it is that entry's error |
| `FindSymlinks.NonEmpty` | lib/find-symlinks.js:10 | `filter(Boolean)` keeps exactly the non-empty paths |
| `FindSymlinks.FindIsWalk` | lib/find-symlinks.js:9-11 | The final filter removes nothing: every path the walk reports is non-empty |
| `FindSymlinks.Find` | lib/find-symlinks.js:9-11 | The search rejects iff the walk from the root rejects, and it never reports an empty path |
| `FindSymlinks.Walk` | lib/find-symlinks.js:13-48 | An unreadable folder rejects with the readdir error, and a failed lstat with the first such error. A successful walk starts with the folder's own links |
| `FindSymlinks.WalkFolders` | lib/find-symlinks.js:37-43 | A folder with no subfolder entries adds nothing |
| `FindSymlinks.WalkNonEmpty` | lib/find-symlinks.js:29-43 | No path a successful walk reports is empty |
| `FindSymlinks.WalkFailsIff` | lib/find-symlinks.js:19-45 | The walk rejects iff some reachable folder cannot be listed or some entry cannot be lstat'ed |
| `FindSymlinks.WalkFoldersFailsIff` | lib/find-symlinks.js:42-43 | Walking the subfolders rejects iff one of their walks fails |
| `FindSymlinks.NoSubfolders` | lib/find-symlinks.js:37-39 | A folder with no subfolders yields just its own links |
| `FindSymlinks.OwnLinksFirst` | lib/find-symlinks.js:42-43 | A folder's own links come first, in listing order, before anything found below |
| `FindSymlinks.OwnLinksAre` | lib/find-symlinks.js:27-35 | A folder's own results are exactly the paths of its symbolic-link entries |
| `FindSymlinks.WalkFindsLinks` | lib/find-symlinks.js:13-48 | A successful walk reports a path iff that path, followed through real folders only, names a symbolic link; plain files and link interiors are never entered |
| `FindSymlinks.WalkFoldersFindLinks` | lib/find-symlinks.js:41-43 | The subfolder walks report exactly the links below the folder entries |
| `SymlinkStream.Mark` | lib/stream/symlink.js:26-29 | The marker sets `symlink = true` and changes no other field |
| `SymlinkStream.MarkIdempotent` | lib/stream/symlink.js:26-29 | Marking twice is marking once |
| `SymlinkStream.MarkedIsLinked` | lib/stream/symlink.js:27 | A marked file goes to the link branch of the export and not the copy branch |
| `SymlinkStream.Marked` | lib/stream/symlink.js:26-29 | A batch of marked files is the same files, each marked, in order |
| `SymlinkStream.MarkerPushesAll` | lib/stream/symlink.js:26-29 | The marker stage forwards every file it receives, flagged, and never fails |
| `SymlinkStream.MarkedAllLinked` | lib/stream/symlink.js:26-29 | Every marked file is linked and none is copied |
| `SymlinkStream.MarkerRegistered` | lib/stream/symlink.js:16-19 | Registration puts the marker under `**/*.*`, replacing any earlier entry, and leaves every other pattern alone |
| `SymlinkStream.SymlinkProjectStream.constructor` | lib/stream/symlink.js:10-12 | A new stage has created no marker yet |
| `SymlinkStream.SymlinkProjectStream.Transform` | lib/stream/symlink.js:16-19 | Each project gets a new marker under `**/*.*` and is forwarded. A non-object registry throws |
| `RewriteUrlStream.NormalConfig` | lib/stream/rewrite-url.js:14-21 | A function config becomes `{transformUrl: fn}` and a missing one becomes `{}`. Any other config is kept |
| `RewriteUrlStream.ProjectOptions` | lib/stream/rewrite-url.js:24 | The rewriter options are `{prefix: project.prefix}` overlaid by the stage config's own keys |
| `RewriteUrlStream.UserPrefixWins` | lib/stream/rewrite-url.js:24 | A user-supplied `prefix` wins over the project's |
| `RewriteUrlStream.FunctionConfig` | lib/stream/rewrite-url.js:16-24 | A function config reaches both rewriters as `transformUrl`, beside the project's prefix |
| `RewriteUrlStream.MissingConfig` | lib/stream/rewrite-url.js:20-24 | Without a config the rewriters see only the project's prefix |
| `RewriteUrlStream.RewritersRegistered` | lib/stream/rewrite-url.js:26-27 | Exactly `**/*.html` and `**/*.css` change, to the html and css rewriters with the same options |
| `RewriteUrlStream.TwoRegistrations` | lib/stream/rewrite-url.js:26-27 | The two `transform` calls in sequence succeed and give that registry |
| `RewriteUrlStream.RewriteUrlProjectStream.constructor` | lib/stream/rewrite-url.js:14-21 | The stage stores the normalised config |
| `RewriteUrlStream.RewriteUrlProjectStream.Transform` | lib/stream/rewrite-url.js:23-29 | Both rewriters are registered and the project is forwarded. A non-object registry throws before anything is registered |
| `RewriteUrl.CssByExtension` | lib/rewrite-url.js:17-20 | A name ending in `.css` after a non-empty stem selects the css rewriter |
| `RewriteUrl.RewriterFor` | lib/rewrite-url.js:17-23 | The css rewriter is chosen iff the extension is `.css`, the html rewriter iff it is `.html` or `.htm`, and none otherwise |
| `RewriteUrl.RewriteFile` | lib/rewrite-url.js:15-31 | A file with no rewriter is forwarded as is. Otherwise the stage succeeds iff the rewriter resolves, with its one file, or fails with its error |
| `RewriteUrl.HtmlByExtension` | lib/rewrite-url.js:21-23 | Names ending in `.html` or `.htm` select the html rewriter |
| `RewriteUrl.UpperCaseIgnored` | lib/rewrite-url.js:19-23 | The comparison is exact: `.CSS` and `.HTML` select nothing |
| `RewriteUrl.LastExtensionDecides` | lib/rewrite-url.js:17-23 | `page.html.bak` selects nothing |
| `RewriteUrl.HiddenAndBareNamesIgnored` | lib/rewrite-url.js:17-23 | `.css` (a hidden file) and `styles/css` select nothing |
| `RewriteUrl.OthersForwarded` | lib/rewrite-url.js:29-30 | A file with any other extension is forwarded unchanged |
| `RewriteUrl.RewrittenForwarded` | lib/rewrite-url.js:25-27 | A handled file is replaced by the rewriter's result, and a rejection becomes the stage's error |
| `RewriteUrl.BatchWithoutPagesUnchanged` | lib/rewrite-url.js:15-31 | A batch with no stylesheet or page passes through unchanged and in order |
| `RewriteUrl.OneForOne` | lib/rewrite-url.js:25-31 | A successful run of the stage yields exactly one file per input file |
| `RewriteUrl.OptionsObject` | lib/rewrite-url.js:36-38 | Function options become an object whose only key is `transformUrl`, holding that function |
| `RewriteUrl.CreateConfig` | lib/rewrite-url.js:35-44 | The config has `prefix` and `baseDir` from the file's project, overlaid by the options' own keys |
| `RewriteUrl.FunctionOptions` | lib/rewrite-url.js:36-43 | Function options give `{prefix, baseDir, transformUrl}` |
| `RewriteUrl.NoOptions` | lib/rewrite-url.js:40-43 | Missing options give just `{prefix, baseDir}` |
| `RewriteUrl.ObjectOptionsOverride` | lib/rewrite-url.js:40-43 | Object options override the project values key by key and add their own keys |
| `Paths.RelativeRoundTrip` | lib/write-symlink.js:19 | `path.relative(from, to)` resolved from `from` leads back to `to` |
| `Paths.JoinAbsolute` | lib/stream/file-transform.js:29 | `path.join` of an absolute normalised prefix and a relative path is their concatenation |
| `Paths.ResolveTextRelative` | lib/write-symlink.js:49 | `path.resolve(base, rel)` appends the segments of a normalised relative path |
| `Paths.NormalizedForm` | lib/stream/export-project.js:22 | `path.normalize` leaves no empty or `.` segment and no `..` after an ordinary segment; an absolute path keeps no `..` at all |
| `Paths.JoinDropsDot` | lib/stream/export-project.js:22 | `path.join('./out', 'foo')` is `out/foo` |
| `Paths.JoinKeepsLeadingUps` | lib/stream/export-project.js:22 | `path.join('a/../..', 'b')` is `../b`: a `..` with nothing to remove is kept in a relative path |
| `Paths.JoinStopsAtRoot` | lib/symlink-config.js:57 | `path.join('/', '../x')` is `/x`: a `..` at the root is dropped |

## Left out

- Node stream mechanics are not modelled: piping, `pause`/`resume`, `drain`, backpressure, the `finish`→`end` re-emit and `lib/stream/duplex.js`. Each stream is modelled as one sequential step per input, with its pushed files and its error.
- Concurrency is not modelled: every walk, promise chain and branch runs in one sequential order. `FindSymlinks.Walk` reports the first failure in listing order, with a folder's lstat failures before its subfolder walks. The real `Promise.all` rejects with whichever failure comes first in time.
- Glob semantics (`minimatch`, `glob`, brace and `**` expansion) are not modelled: matching is the `Matcher` parameter.
- Which manifest the `{.bower,bower,package}.json` glob finds first is not modelled. The lookup and read are one input, `SymlinkConfig.ManifestLookup`.
- File-system effects are inputs: `fs.realpath`, `readdir`, `lstat`, `mkdirp` and `fs.symlink`. The copy and symlink writers of `vinyl-fs` are not modelled; the model stops at the split into their two branches.
- `mkdirp`'s `dirMode` option is not modelled.
- `html-transform` and `css-transform` are opaque. They are stream values carrying their configuration, or the `Rewrite` function parameter.
- A `JSON.parse` failure in `projectName` is not modelled. It throws inside a file-system callback, which the code does not handle.
- `process.cwd()` is a parameter.
- Node `path` is modelled only for POSIX separators and segment lists. Windows paths are not modelled.
- `lib/stream/read-config.js`, `lib/locate-symlinks.js` and `index.js` are not part of this model.
- `project.matchedTransforms(file.path)` is not defined by `ProjectConfig` in `lib/project-config.js`. The matched items, each a factory outcome, are an input to `FileTransform.FileStep`.
- `Project.ProjectConfig.Match`: when several matching patterns are equally long, the code picks the first in key order (a stable sort). This contract only says that some longest matching pattern is picked.
- `Errors.FileImportError`: a thrown value that is not an `Error` (a string, `undefined`) is not modelled. It has no string `message` or `stack`, and `formatStackTrace(undefined)` itself throws a TypeError (lib/errors.js:35). Errors are `JsError` values.
- `Errors.ProjectImportError`: as for `FileImportError`, only `Error` values are modelled as the wrapped error.
- `Js.TypeErr`: a TypeError thrown by the runtime (`path.join`, `Object.keys`, a missing method) carries the empty message. A wrapped runtime TypeError therefore reaches `FileImportError`/`ProjectImportError` with a message different from Node's.
- `ExportProject.ExportProjectStream.Write`: when an entry has no `pipe`, which entries were piped before it depends on key order, which is not modelled. The contract bounds the piped set between the old set and the old set plus the registry's streams.
- `ExportProject.ExportProjectStream.BranchEnded`: likewise for `unpipe`, which entries were unpiped before the throw depends on key order and is only bounded.
- `Project.Transformed`: a `transforms` property that is an array or a function, which JavaScript would still index, is treated as a TypeError.
- JavaScript objects are modelled as their own enumerable properties only. Prototypes and the own properties of functions and streams are not tracked. Key order is not modelled.
- Errors are the `JsError` datatype. The `Error` prototype chain set by `util.inherits` is the `kind` field. The stack frames of a newly created `Error` are not modelled.
- `FileTransform.Stamp`: the project prefix is taken to be a string. The TypeError `path.join` throws for another type is not modelled.
- `RewriteUrl.CreateConfig`: `file.project` is taken to be an object. The TypeError for a file without a project is not modelled.
- The in-file router hands a matched file to that stream's `write`. What the stream then does with the file is not modelled.

## Notes on the code

- Rule lookup: `lib/project-config.js` keeps one stream per pattern. `match` returns the stream of one longest matching pattern, not a chain of every matching rule. The export stream routes each file to that single stream.
- Rule removal: a rule is removed only through `transform(pattern, null)`, which deletes the pattern's entry and throws for a pattern that is not registered. There is no removal by factory.
- Pipeline cache: there is none. Every file gets fresh stages from the factories.
- Manifest choice: the manifest is the first of `{.bower,bower,package}.json` that the glob returns. There is no fixed priority among the three.
- Project boundary: longest-prefix assignment of files to projects happens outside these files.
