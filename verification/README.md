# terser-webpack-plugin, modelled in Dafny

This project models the core of terser-webpack-plugin. That is the webpack plugin that runs the Terser minifier over a compilation's JavaScript assets. The model covers:

- **Constructor** (`Config`): fills in the option defaults. The default `output.comments` depends on whether comments are extracted.
- **`buildTerserOptions`** (`TerserOptions`): turns the user's `terserOptions` into the engine options, with the engine defaults filled in.
- **`buildComments`** (`CommentPolicy`):
  - the shape dispatch on `extractComments`;
  - normalisation of a condition by its JavaScript type;
  - the comment hook, which extracts and preserves comments.
- **`minify`** (`Minify`): runs one task through an abstract engine.
- **`buildSourceMap`, `buildError` and `buildWarning`** (`Sources`, `Diagnostics`): how engine errors and warnings become compilation messages, with their `[file:line,column]` locations translated through the input source map.
- **One optimisation pass** (`Plugin`):
  - collects the candidate files;
  - builds one task per file, pushing the invalid-map warning and the missing-asset error;
  - merges each result back into the compilation. The merge writes the comments file, the banner and the minified asset, then the built warnings.

Supporting modules:

- `Text`: substring search, decimal numerals, `join` and `path.posix.basename`.
- `Patterns`: the plugin's three fixed regular expressions, interpreted concretely. The warning-location pattern is modelled as a leftmost match whose `.+` is greedy.
- `Js`: JavaScript values, truthiness, `Object.assign` and thrown errors as `Result`.

**What stays abstract.** These are parameters:

- the `Runtime`: user callbacks, `RegExp.prototype.test` on user patterns, and the errors JavaScript throws;
- the `Host`: `utils.isSourceMap`, `SourceMapConsumer.originalPositionFor`, `RequestShortener.shorten`, the md4 digest, and the version strings;
- the `Engine`;
- the scheduler's answer (`RunOutcome`).

**Behaviour the model follows from the code:**

- A `'some'` condition accepts only block comments (`comment2`) that carry a marker. A `//` comment with `@license` is not accepted.
- The banner is added to every asset whose comments were written, even when several assets share one comments file.
- The set of processed assets is created fresh for each pass and filled only after all tasks are built. So within a pass no file is skipped: a file listed twice becomes two tasks.
- When the scheduler reports an error for the whole batch, it is pushed, but the pass's callback is never invoked (`Stalled`).
- A warning without a location, given a file name and a usable map, makes `match[1]` throw. The throw ends the merge loop (`Crashed`). The results after it are not merged and the callback is not invoked.

## Model

| member | source | states |
|---|---|---|
| Config.Construct | src/index.js:20-51 | Each option gets its default exactly when absent: the test defaults to the `.js` pattern, the warnings filter accepts all, and extraction, sourceMap, cache and parallel are off. A given `cache` or `parallel` is kept as given, and `include` and `exclude` are carried over unchanged. `terserOptions` has the user's keys plus `output`, and every user key overrides. Without a user `output`, `output.comments` is `false` when comments are extracted and the license pattern otherwise. |
| TerserOptions.BuildTerserOptions | dist/tersify/minify.js:13-51 | The engine options drop `sourceMap`. `parse` and `compress` default to `{}` only when undefined. `mangle` is `true` when null or undefined. `output` is the four defaults with the user's `output` properties overriding, key by key. `ecma`, `warnings`, `toplevel`, `nameCache`, `ie8`, `keep_classnames`, `keep_fnames` and `safari10` are passed on as given. |
| TerserOptions.BuildIdempotent | dist/tersify/minify.js:13-51 | Building again from the built options gives the same options. |
| TerserOptions.UnreadKeysIgnored | dist/tersify/minify.js:14-28 | A `terserOptions` key outside the twelve destructured ones has no effect on the engine options. |
| Sources.BuildSourceMap | src/index.js:53-59 | A consumer is built exactly when the input map is present and is a source map, and then over that map. |
| Patterns.StarsThenBangMeans | src/index.js:46 | `^\**!` matches exactly when some `!` is preceded only by `*` characters from the start of the text. |
| Patterns.LicenseMarkersAreSomeMarkers | dist/tersify/minify.js:106-108 | Text the license pattern accepts through a marker is accepted by the case-insensitive `'some'` pattern. |
| Patterns.WarningLocation | src/index.js:17 | The result is a match of `\[.+:([0-9]+),([0-9]+)\]`. There is none exactly when no match exists. Among all matches it is leftmost, and for that start it has the last possible colon, as greedy `.+` gives. |
| Patterns.FragmentRoundTrip | src/index.js:83-85 | When a `[name:line,column]` fragment ends a text with no earlier `[`, the pattern finds exactly that fragment, and `+match[1]` and `+match[2]` give back the line and column. |
| Text.DecimalRoundTrip | src/index.js:84-85 | Reading a printed numeral with unary `+` gives back the number. |
| Text.Basename | src/index.js:240 | The basename has no slash. It is the last segment of the path, ignoring trailing slashes. |
| CommentPolicy.ShapeDispatch | dist/tersify/minify.js:56-79 | For each `extractComments` shape, the hook's preserve and extract conditions: a boolean extracts license comments; a string or RegExp extracts by it; a function extracts by it and preserves nothing. An object with its own `condition` extracts by that condition; otherwise it extracts by `output.comments` and preserves nothing. Outside those two cases, preserve follows `output.comments`. |
| CommentPolicy.NormalizeTable | dist/tersify/minify.js:81-128 | What a condition answers, by its JavaScript type: a boolean gives a constant; a function is called; `'all'` gives true; `'some'` accepts block comments with a marker; any other string is compiled as a RegExp at each call; a RegExp is tested. Any other value throws at `.test`. |
| CommentPolicy.SomeIgnoresLineComments | dist/tersify/minify.js:106-108 | `'some'` never accepts a `//` comment. |
| CommentPolicy.SomeAcceptsLicenseMarkers | dist/tersify/minify.js:106-108 | `'some'` accepts every block comment that carries a license marker. |
| CommentPolicy.ConditionIsNotRecursive | dist/tersify/minify.js:71-74 | `{condition: true}` extracts every comment, whereas with `true` a plain block comment is not extracted. |
| CommentPolicy.Invoke | dist/tersify/minify.js:132-138 | One hook call extracts the rendered comment exactly when `extract` returns true, and returns the `preserve` verdict. A throw from `extract` propagates. |
| CommentPolicy.RenderInjective | dist/tersify/minify.js:134 | From an extracted entry, the comment's text and whether it was a block comment can be read back. |
| CommentPolicy.CollectConcat | dist/tersify/minify.js:132-138 | Hook calls accumulate in call order: running over two streams one after the other equals running over their concatenation. |
| CommentPolicy.RunHookVerdicts | dist/tersify/minify.js:132-138 | Each verdict the hook returns is the preserve condition's answer for that comment. A run that stops, stops at the comment whose call threw. |
| CommentPolicy.RunHookConcat | dist/tersify/minify.js:132-138 | Running the hook over concatenated comment streams concatenates verdicts and extracted entries. |
| CommentPolicy.RunHookExtracts | dist/tersify/minify.js:132-138 | Every extracted entry renders an offered comment that the extract condition accepted. |
| CommentPolicy.RunHookExtractsAll | dist/tersify/minify.js:132-138 | Conversely, every offered comment that the extract condition accepts is extracted, once and in order. When no call throws, the list is exactly those comments. When a call throws, it is those up to and including the comment whose call threw, because `extract` runs before `preserve`. |
| CommentPolicy.NothingKeptWithoutPreserve | dist/tersify/minify.js:68-79 | Under the function shape, and under an object without `condition`, the hook keeps no comment in the code. |
| Minify.EngineOptionsFor | dist/tersify/minify.js:148-155 | The engine options are the built options, with `sourceMap` set to the input map exactly when there is one. |
| Minify.Minify | dist/tersify/minify.js:141-170 | Without extraction, no hook is installed and nothing is extracted. With extraction, the engine sees the hook's verdicts and the extracted list is the hook's. A hook that throws makes `minify` report the error. |
| Minify.OutputCommentsAfterConstruction | src/index.js:44-49 | The `output.comments` the engine sees: the constructor's default when the user gave no `output`, `false` when the user's `output` lacks `comments`, otherwise the user's value. |
| Minify.ExtractionStripsComments | dist/tersify/minify.js:157-161 | With extraction on and no user `output.comments`, the hook keeps no comment in the minified code. |
| Minify.ExtractedCommentsAreOffered | dist/tersify/minify.js:157-169 | The extracted comments are empty without extraction. Each one renders an offered comment that the extract condition accepted. When `minify` reports no error, they are exactly the accepted comments, in the order offered. |
| Diagnostics.BuildError | src/index.js:61-76 | The message starts with `<file> from Terser\n`. With a line, it ends with `[file:line,col]`. Without one, it continues with the stack if there is one, otherwise the message. |
| Diagnostics.ErrorReportsOrigin | src/index.js:63-71 | With a line, the message is followed by the shortened original fragment and the minified one when the map resolves to a named source, and otherwise by the minified fragment alone. |
| Diagnostics.ErrorLocationReadable | src/index.js:71 | With no `[` in the file name or message, the plugin's location pattern reads the error's line and column back. |
| Diagnostics.BuildWarning | src/index.js:78-102 | With no file name or no map, the warning passes through unchanged. Otherwise it throws exactly when it has no location, and is `null` exactly when the filter rejects the original position's source. A kept warning begins with its text minus the matched location. |
| Diagnostics.WarningRelocatedRoundTrip | src/index.js:83-98 | For a warning that ends in `[file:line,column]`, the map is queried at exactly that line and column. The fragment is replaced by the original position when that names another source; otherwise it is dropped. |
| Plugin.CandidateFiles | src/index.js:121-123 | A file is a candidate exactly when it is in some chunk or among the additional assets, and the options match it. The matching chunk files come first, in chunk order (see `Plugin.FlattenConcat`), then the matching additional assets. |
| Plugin.FlattenConcat | src/index.js:120 | The files of two runs of chunks are the first run's files followed by the second's, duplicates included. |
| Plugin.FlattenOne | src/index.js:120 | A single chunk contributes exactly its own files. |
| Plugin.FilterConcat | src/index.js:123 | Filtering a concatenation gives the filtered parts, in the same order. |
| Plugin.FilterCounts | src/index.js:123 | A matching file occurs in the result as often as in the input; a file that does not match never occurs. |
| Plugin.FilterKeepsAll | src/index.js:123 | When every file matches, the candidates are the listed files, duplicates and order included. |
| Plugin.CommentsFileFor | src/index.js:152-159 | No comments file exactly when extraction is off. Otherwise it is the `filename` given, or `<file>.LICENSE` when that is absent or empty. A function is applied to the file name. |
| Plugin.CacheKeyFor | src/index.js:170-178 | A cache key exists exactly when `cache` is truthy. It holds both versions, the options, the output path joined with the file, and the input's digest. |
| Plugin.BuildTask | src/index.js:124-190 | A missing asset yields the built error for the thrown TypeError. That error has no location, so the message is the header followed by its stack, or by its message when there is no stack. An existing asset yields a task with its content. With `sourceMap` and an asset that has `sourceAndMap`, the asset's map is passed on and a warning is pushed exactly when that map is not a source map. Otherwise the input map is `null` and no warning is pushed. The comments file, options and cache key are carried over. |
| Plugin.BuildTasksInPass | src/index.js:118-191 | Within a pass each candidate gives exactly one task or one error. |
| Plugin.BuildTasksOne | src/index.js:123-190 | A single candidate contributes exactly its own outcome: its task, its invalid-map warning, or its error. |
| Plugin.BuildTasksConcat | src/index.js:121-191 | Building over two lists of candidates gives the first list's tasks, errors and warnings followed by the second's. |
| Plugin.BuildTasksFollowFiles | src/index.js:121-180 | When every candidate has an asset, there are no errors, and the tasks follow the candidates one for one and in order. Each is the task built for its candidate. |
| Plugin.BannerFor | src/index.js:238-246 | No banner exactly when `banner` is `false`, or a function returning an empty text. When `banner` is absent or empty, the default text names the basename of the comments file. A non-empty text is used as given, a function's non-empty result is used as returned, and `true` prints as `true`. |
| Plugin.FinalAsset | src/index.js:224-251 | The written asset is the engine's code. It is preceded by `/*! <banner> */` and a newline exactly when comments were written and a banner applies. It has a map exactly when the engine returned a non-empty one. |
| Plugin.WithBanner | src/index.js:246-250 | The banner line comes before the asset's content, and a source map is kept exactly when the asset had one. |
| Plugin.OutputAsset | src/index.js:224-233 | The minified asset holds the code, and has a source map exactly when the engine returned a non-empty map. |
| Plugin.AppendComments | src/index.js:253-267 | An existing comments file gets a newline and the joined comments appended. A missing one is created with them. No other asset changes. |
| Plugin.AppendCommentsConcat | src/index.js:253-267 | Appending two non-empty comment lists one after the other equals writing their concatenation at once, whether or not the file existed. |
| Plugin.PushWarningsStops | src/index.js:273-288 | Pushing warnings stops with an error exactly when there is a file name and a usable map and some warning has no location. |
| Plugin.PushWarningsKeeps | src/index.js:273-288 | When no warning throws, the pushed warnings are what `buildWarning` returned for each warning, in the engine's order. Those it returned as `null` (rejected) or empty are left out. |
| Plugin.PushWarningsPrefixOnThrow | src/index.js:273-288 | When warning `k` is the first without a location, and there is a file name and a usable map, pushing stops with an error. The warnings pushed are exactly those built from warnings `0..k-1`, in order, without the `null` and empty ones. Nothing after warning `k` is pushed. |
| Plugin.WarningsPassThrough | src/index.js:79-81 | Without a file name or a usable map, exactly the non-empty warnings are pushed, in order. |
| Plugin.ResultMap | src/index.js:203-207 | The source map is built only for a result with an error or warnings. |
| Plugin.MergeOne | src/index.js:199-288 | An error pushes exactly one built error and changes nothing else. Otherwise the file's asset becomes the minified one, with its banner. The file is marked processed. The assets afterwards are those before, plus the file and its comments file, and no other asset changes. A comments file other than the asset itself gets the extracted comments appended, or is created with them. Built warnings are appended, and a throw halts the loop. |
| Plugin.CleanMerge | src/index.js:199-289 | Results without errors or warnings merge without halting. Every task's file is marked processed, and no error or warning is pushed. |
| Plugin.MergeFrame | src/index.js:236-271 | An asset that no later task writes, as its file or as its comments file, keeps its content to the end of the loop, even when the loop halts. |
| Plugin.CleanMergeAssets | src/index.js:224-271 | For results without errors or warnings, with distinct task files none of which is a comments file, every task's file ends up holding its minified asset, banner included. |
| Plugin.SharedCommentsFile | src/index.js:253-267 | Two assets extracting into the same comments file leave it holding both lists, as one extraction would. A file that did not exist before holds exactly the joined lists. |
| Plugin.MergeGrows | src/index.js:199-289 | The merge loop only appends to the errors and the warnings. |
| Plugin.OptimizePass | src/index.js:112-196 | The pass first appends the task-building errors and warnings. It stalls exactly when the scheduler fails. It then pushes that error and leaves the assets and the other warnings as they were. |
| Plugin.AfterBatch | src/index.js:193-289 | Once the tasks are built, their errors and warnings lead the compilation's new messages. The pass stalls exactly when the scheduler reports an error. The compilation is then the original one plus the building messages and that error. When the scheduler returns results, the outcome's compilation is the one the merge loop leaves, and the pass crashes exactly when the loop halts on a throw. |
| Plugin.MergeResults | src/index.js:199-289 | The callback's compilation is the one the merge loop leaves, and it crashes exactly when the loop halts, with the loop's error. Errors and warnings are only appended to, and the callback never stalls. |
| Plugin.CleanPass | src/index.js:193-289 | Assume the scheduler returns one result per task, none with an error or warnings, for distinct task files none of which is a comments file. Then the pass finishes, and every task's file holds its minified asset, banner included. |

## Left out

- The engine (Terser) itself. It is the `Engine` parameter: the comments it offers to the hook, and its output given the hook's verdicts.
- The scheduler and its cache (`Tersify`, `runTasks`, worker processes, `tersify.exit`). The scheduler's answer is a parameter of the pass.
- Webpack's hook registration (lines 297-320), `buildModuleFn` and the `RequestShortener` construction. `shorten` is a `Host` function.
- `validateOptions` and its schema. Options are assumed to have passed validation.
- `ModuleFilenameHelpers.matchObject` (`test`, `include`, `exclude`). It is the `matches` parameter of the pass.
- `serialize-javascript` and the md4 hash. A cache key is modelled as the object passed to `serialize`, and the digest is a `Host` function.
- Source-map composition. `SourceMapSource`, `ConcatSource` and `SourceMapConsumer` are recorded symbolically (`RawMap`), and `originalPositionFor` is a `Host` function. The comments file is given no source map.
- `JSON.parse` of the engine's map is assumed not to throw.
- The `g` and `y` flags and `lastIndex` on user RegExps. `test` on a user pattern is a `Runtime` function.
- `Js.Assign`: a string's indexed characters are not copied as properties (`Object.assign({...}, "ab")`); strings contribute no keys.
- Inherited and prototype properties. The `in` operator is read as own keys.
- `CommentPolicy.Evaluate`: a condition that is some other object with its own `test` method would have that method called. The model treats every value other than a boolean, function, string or RegExp as throwing at `.test`.
- `Plugin.BuildTask`: the input is the asset's `content` whether it comes from `source()` or from `sourceAndMap().source`. The two are taken to agree.
- User callbacks are modelled as total, pure functions of their arguments. A throwing `filename` or `banner` function, or a throwing warnings filter, is not modelled. Nor is a callback returning a non-boolean value, whose truthiness would be used.
- `Plugin.BannerFor`: a banner function's result is taken as a string, with an empty text standing for every falsy result.
- Numbers are integers. `+match[1]` on a numeral longer than double precision allows is not rounded.
- `Diagnostics.BuildError`: `err.col` is taken as an integer. An undefined column, which would print `undefined`, is not modelled.
- The set of processed assets is keyed by file name, not by the identity of the asset object. Within a pass the two agree, because the set is empty while tasks are built.
- `chunk.files` being undefined is represented by an empty list.
