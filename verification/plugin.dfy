/** One optimisation pass of `TerserPlugin.apply`: the candidate files, one
    task per file, then the merge of the engine's results back into the
    compilation — errors, minified assets, banners, comments files and
    warnings, in the order the plugin writes them. */
module Plugin {
  import opened Optional
  import opened Text
  import opened Js
  import opened Sources
  import opened Config
  import opened Minify
  import opened Diagnostics
  import opened Patterns

  /** The parts of a webpack compilation the plugin reads and writes. Errors
      and warnings are recorded by their message. */
  datatype Compilation = Compilation(assets: map<string, Asset>, errors: seq<string>, warnings: seq<string>)

  /** What the pass receives from webpack besides the compilation: the
      compiler's `outputPath` (`""` when it is falsy) and
      `ModuleFilenameHelpers.matchObject` bound to the plugin's options. */
  datatype Context = Context(host: Host, rt: Runtime, outputPath: string, matches: string -> bool)

  /** The files of all chunks, in chunk order; a chunk without `files`
      contributes none. */
  function Flatten(chunks: seq<seq<string>>): (r: seq<string>)
    ensures forall f :: f in r <==> exists i :: 0 <= i < |chunks| && f in chunks[i]
  {
    if |chunks| == 0 then []
    else
      var prefix := chunks[..|chunks| - 1];
      var r := Flatten(prefix) + chunks[|chunks| - 1];
      assert forall i :: 0 <= i < |prefix| ==> prefix[i] == chunks[i];
      r
  }

  /** One chunk contributes exactly its files. */
  lemma FlattenOne(c: seq<string>)
    ensures Flatten([c]) == c
  {
    assert [c][..0] == [];
  }

  /** Flattening keeps chunk order: the files of two runs of chunks are the
      first run's files followed by the second's, duplicates included. */
  lemma {:induction false} FlattenConcat(a: seq<seq<string>>, b: seq<seq<string>>)
    ensures Flatten(a + b) == Flatten(a) + Flatten(b)
    decreases |b|
  {
    if |b| == 0 {
      assert a + b == a;
    } else {
      var prefix := b[..|b| - 1];
      var last := b[|b| - 1];
      FlattenConcat(a, prefix);
      assert (a + b)[..|a + b| - 1] == a + prefix;
      assert (a + b)[|a + b| - 1] == last;
      assert Flatten(a + b) == Flatten(a + prefix) + last;
      assert Flatten(b) == Flatten(prefix) + last;
    }
  }

  /** `xs.filter(p)`. */
  function Filter(xs: seq<string>, p: string -> bool): (r: seq<string>)
    ensures |r| <= |xs|
    ensures forall f :: f in r <==> f in xs && p(f)
  {
    if |xs| == 0 then []
    else
      var r := Filter(xs[..|xs| - 1], p) + (if p(xs[|xs| - 1]) then [xs[|xs| - 1]] else []);
      assert xs == xs[..|xs| - 1] + [xs[|xs| - 1]];
      r
  }

  /** Every occurrence of a passing element is kept and every other
      dropped. */
  lemma {:induction false} FilterCounts(xs: seq<string>, p: string -> bool)
    ensures forall f :: multiset(Filter(xs, p))[f] == if p(f) then multiset(xs)[f] else 0
  {
    if |xs| > 0 {
      var prefix := xs[..|xs| - 1];
      var last := xs[|xs| - 1];
      FilterCounts(prefix, p);
      assert xs == prefix + [last];
      assert multiset(xs) == multiset(prefix) + multiset{last};
      assert Filter(xs, p) == Filter(prefix, p) + (if p(last) then [last] else []);
    }
  }

  /** Filtering a concatenation filters each part and keeps them in order;
      with `Filter([x], p)` this fixes the order of the kept elements. */
  lemma {:induction false} FilterConcat(xs: seq<string>, ys: seq<string>, p: string -> bool)
    ensures Filter(xs + ys, p) == Filter(xs, p) + Filter(ys, p)
    decreases |ys|
  {
    if |ys| == 0 {
      assert xs + ys == xs;
    } else {
      var prefix := ys[..|ys| - 1];
      var last := ys[|ys| - 1];
      var tail := if p(last) then [last] else [];
      FilterConcat(xs, prefix, p);
      assert (xs + ys)[..|xs + ys| - 1] == xs + prefix;
      assert (xs + ys)[|xs + ys| - 1] == last;
      assert Filter(xs + ys, p) == Filter(xs + prefix, p) + tail;
      assert Filter(ys, p) == Filter(prefix, p) + tail;
    }
  }

  /** A filter that every element passes keeps the whole list, duplicates
      and order included. */
  lemma {:induction false} FilterKeepsAll(xs: seq<string>, p: string -> bool)
    requires forall i :: 0 <= i < |xs| ==> p(xs[i])
    ensures Filter(xs, p) == xs
  {
    if |xs| > 0 {
      var prefix := xs[..|xs| - 1];
      forall i | 0 <= i < |prefix|
        ensures p(prefix[i])
      {
        assert prefix[i] == xs[i];
      }
      FilterKeepsAll(prefix, p);
      assert p(xs[|xs| - 1]);
      SplitLast(xs);
    }
  }

  /** The files the pass works on: every chunk's files, then the additional
      chunk assets, those the `test`/`include`/`exclude` options match. */
  function CandidateFiles(ctx: Context, chunks: seq<seq<string>>, additional: seq<string>): (r: seq<string>)
    ensures forall f :: f in r <==>
              ctx.matches(f) && (f in additional || exists i :: 0 <= i < |chunks| && f in chunks[i])
    ensures r == Filter(Flatten(chunks), ctx.matches) + Filter(additional, ctx.matches)
  {
    FilterConcat(Flatten(chunks), additional, ctx.matches);
    Filter(Flatten(chunks) + additional, ctx.matches)
  }

  /** The comments file of a task: `false` (`None`) unless comments are
      extracted; then `extractComments.filename`, falling back to
      `<file>.LICENSE` when that is absent or empty, and applied to the file
      name when it is a function. */
  function CommentsFileFor(rt: Runtime, e: ExtractComments, file: string): (r: Option<string>)
    ensures r.None? <==> !ExtractEnabled(e)
    ensures ExtractEnabled(e) && (FilenameOf(e).NoFilename? || FilenameOf(e) == FilenameString("")) ==>
              r == Some(file + ".LICENSE")
    ensures ExtractEnabled(e) && FilenameOf(e).FilenameString? && FilenameOf(e).name != "" ==>
              r == Some(FilenameOf(e).name)
    ensures ExtractEnabled(e) && FilenameOf(e).FilenameFunction? ==>
              r == Some(rt.callString(FilenameOf(e).handle, file))
  {
    if !ExtractEnabled(e) then None
    else
      match FilenameOf(e)
      case NoFilename => Some(file + ".LICENSE")
      case FilenameString(name) => if name == "" then Some(file + ".LICENSE") else Some(name)
      case FilenameFunction(h) => Some(rt.callString(h, file))
  }

  /** The path a cache entry is keyed by: under the output directory when
      the compiler has one. */
  function CachePath(outputPath: string, file: string): (r: string)
    ensures outputPath == "" ==> r == file
    ensures outputPath != "" ==> |r| == |outputPath| + 1 + |file| && r[|outputPath|] == '/'
    ensures r[|r| - |file|..] == file
  {
    if outputPath == "" then file else outputPath + "/" + file
  }

  /** The cache identity of a task, present exactly when `cache` is truthy. */
  function CacheKeyFor(ctx: Context, options: PluginOptions, file: string, input: string): (r: Option<CacheKey>)
    ensures r.Some? <==> Truthy(options.cache)
    ensures r.Some? ==> && r.value.path == CachePath(ctx.outputPath, file)
                        && r.value.hash == ctx.host.digest(input)
                        && r.value.options == options
                        && r.value.terserVersion == ctx.host.terserVersion
                        && r.value.pluginVersion == ctx.host.pluginVersion
  {
    if Truthy(options.cache) then
      Some(CacheKey(ctx.host.terserVersion, ctx.host.pluginVersion, options, CachePath(ctx.outputPath, file), ctx.host.digest(input)))
    else None
  }

  /** The input map of an asset is usable when it is present and a source map. */
  predicate ValidInputMap(host: Host, m: Option<RawMap>) {
    m.Some? && host.isSourceMap(m.value)
  }

  /** The warning about an input map that is not a source map. */
  function InvalidMapWarning(file: string): string {
    file + " contains invalid source map"
  }

  /** What the pass makes of one candidate file. */
  datatype TaskOutcome =
    | Skipped
      // the asset was already produced by this pass
    | Built(task: Task, warning: Option<string>)
      // a task, and the invalid-map warning pushed while building it
    | Failed(error: string)
      // building threw; the message pushed onto `compilation.errors`

  /** Building the task for `file`. `processed` is the set of files whose
      asset this pass has already replaced. */
  function BuildTask(ctx: Context, options: PluginOptions, assets: map<string, Asset>, processed: set<string>, file: string)
    : (r: TaskOutcome)
    ensures r.Skipped? <==> file in assets && file in processed
    ensures r.Failed? <==> file !in assets
    ensures r.Failed? ==> r.error == BuildError(ctx.host, Raise(ctx.rt, MissingAsset(file)), file, None)
    ensures r.Failed? ==> var e := Raise(ctx.rt, MissingAsset(file));
                          r.error == Header(file) + (if e.stack != "" then e.stack else e.message)
    ensures r.Built? ==> && r.task.file == file
                         && r.task.input == assets[file].content
                         && r.task.commentsFile == CommentsFileFor(ctx.rt, options.extractComments, file)
                         && r.task.extractComments == options.extractComments
                         && r.task.terserOptions == options.terserOptions
                         && r.task.cacheKey == CacheKeyFor(ctx, options, file, assets[file].content)
    ensures r.Built? && !(options.sourceMap && assets[file].hasSourceAndMap) ==>
              r.task.inputSourceMap.None? && r.warning.None?
    ensures r.Built? && options.sourceMap && assets[file].hasSourceAndMap ==>
                                              && r.task.inputSourceMap == assets[file].sourceMap
                                              && (r.warning.Some? <==> !ValidInputMap(ctx.host, assets[file].sourceMap))
                                              && (r.warning.Some? ==> r.warning.value == InvalidMapWarning(file))
  {
    if file !in assets then
      Failed(BuildError(ctx.host, Raise(ctx.rt, MissingAsset(file)), file, None))
    else if file in processed then Skipped
    else
      var asset := assets[file];
      var withMap := options.sourceMap && asset.hasSourceAndMap;
      var inputSourceMap := if withMap then asset.sourceMap else None;
      var warning := if withMap && !ValidInputMap(ctx.host, asset.sourceMap) then Some(InvalidMapWarning(file)) else None;
      var task := Task(
        file,
        asset.content,
        inputSourceMap,
        CommentsFileFor(ctx.rt, options.extractComments, file),
        options.extractComments,
        options.terserOptions,
        CacheKeyFor(ctx, options, file, asset.content));
      Built(task, warning)
  }

  /** The tasks of a pass and what building them pushed onto the
      compilation. */
  datatype Batch = Batch(tasks: seq<Task>, errors: seq<string>, warnings: seq<string>)

  /** Building the tasks for `files`, in order. */
  function BuildTasks(ctx: Context, options: PluginOptions, assets: map<string, Asset>, processed: set<string>, files: seq<string>)
    : (r: Batch)
    ensures |r.tasks| + |r.errors| <= |files|
    ensures |r.warnings| <= |r.tasks|
    ensures forall i :: 0 <= i < |r.tasks| ==> r.tasks[i].file in files
  {
    if |files| == 0 then Batch([], [], [])
    else
      var prev := BuildTasks(ctx, options, assets, processed, files[..|files| - 1]);
      var file := files[|files| - 1];
      var o := BuildTask(ctx, options, assets, processed, file);
      if o.Skipped? then prev
      else if o.Failed? then prev.(errors := prev.errors + [o.error])
      else Batch(prev.tasks + [o.task], prev.errors, prev.warnings + OptionToSeq(o.warning))
  }

  /** What one outcome contributes to a batch. */
  function OutcomeBatch(o: TaskOutcome): (b: Batch)
    ensures o.Skipped? ==> b == Batch([], [], [])
    ensures o.Failed? ==> b == Batch([], [o.error], [])
    ensures o.Built? ==> b == Batch([o.task], [], OptionToSeq(o.warning))
  {
    match o
    case Skipped => Batch([], [], [])
    case Failed(e) => Batch([], [e], [])
    case Built(t, w) => Batch([t], [], OptionToSeq(w))
  }

  /** Two batches one after the other. */
  function AppendBatch(a: Batch, b: Batch): Batch {
    Batch(a.tasks + b.tasks, a.errors + b.errors, a.warnings + b.warnings)
  }

  /** One more candidate appends its outcome. */
  lemma BuildTasksStep(ctx: Context, options: PluginOptions, assets: map<string, Asset>, processed: set<string>, files: seq<string>)
    requires |files| > 0
    ensures BuildTasks(ctx, options, assets, processed, files)
            == AppendBatch(BuildTasks(ctx, options, assets, processed, files[..|files| - 1]),
                           OutcomeBatch(BuildTask(ctx, options, assets, processed, files[|files| - 1])))
  {
    var prev := BuildTasks(ctx, options, assets, processed, files[..|files| - 1]);
    assert prev.tasks + [] == prev.tasks && prev.errors + [] == prev.errors && prev.warnings + [] == prev.warnings;
  }

  /** A single candidate gives exactly its own outcome. */
  lemma BuildTasksOne(ctx: Context, options: PluginOptions, assets: map<string, Asset>, processed: set<string>, file: string)
    ensures BuildTasks(ctx, options, assets, processed, [file]) == OutcomeBatch(BuildTask(ctx, options, assets, processed, file))
  {
    BuildTasksStep(ctx, options, assets, processed, [file]);
    assert [file][..0] == [];
  }

  /** Building over two lists of candidates is building over each, one after
      the other: tasks, errors and warnings are kept in candidate order. */
  lemma {:induction false} BuildTasksConcat(ctx: Context, options: PluginOptions, assets: map<string, Asset>, processed: set<string>,
                                            xs: seq<string>, ys: seq<string>)
    ensures BuildTasks(ctx, options, assets, processed, xs + ys)
            == AppendBatch(BuildTasks(ctx, options, assets, processed, xs), BuildTasks(ctx, options, assets, processed, ys))
    decreases |ys|
  {
    if |ys| == 0 {
      var a := BuildTasks(ctx, options, assets, processed, xs);
      assert xs + ys == xs;
      assert a.tasks + [] == a.tasks && a.errors + [] == a.errors && a.warnings + [] == a.warnings;
    } else {
      BuildTasksConcat(ctx, options, assets, processed, xs, ys[..|ys| - 1]);
      BuildTasksConcatStep(ctx, options, assets, processed, xs, ys);
    }
  }

  lemma BuildTasksConcatStep(ctx: Context, options: PluginOptions, assets: map<string, Asset>, processed: set<string>,
                             xs: seq<string>, ys: seq<string>)
    requires |ys| > 0
    requires BuildTasks(ctx, options, assets, processed, xs + ys[..|ys| - 1])
             == AppendBatch(BuildTasks(ctx, options, assets, processed, xs), BuildTasks(ctx, options, assets, processed, ys[..|ys| - 1]))
    ensures BuildTasks(ctx, options, assets, processed, xs + ys)
            == AppendBatch(BuildTasks(ctx, options, assets, processed, xs), BuildTasks(ctx, options, assets, processed, ys))
  {
    var a := BuildTasks(ctx, options, assets, processed, xs);
    var prefix := ys[..|ys| - 1];
    var o := OutcomeBatch(BuildTask(ctx, options, assets, processed, ys[|ys| - 1]));
    var p := BuildTasks(ctx, options, assets, processed, prefix);
    DropLastConcat(xs, ys);
    BuildTasksStep(ctx, options, assets, processed, xs + ys);
    BuildTasksStep(ctx, options, assets, processed, ys);
    AppendBatchAssoc(a, p, o);
  }

  /** A non-empty list is its front followed by its last element. */
  lemma SplitLast(xs: seq<string>)
    requires |xs| > 0
    ensures xs == xs[..|xs| - 1] + [xs[|xs| - 1]]
  {
  }

  /** The last element of a concatenation comes from its second part. */
  lemma DropLastConcat(xs: seq<string>, ys: seq<string>)
    requires |ys| > 0
    ensures (xs + ys)[..|xs + ys| - 1] == xs + ys[..|ys| - 1]
    ensures (xs + ys)[|xs + ys| - 1] == ys[|ys| - 1]
  {
  }

  lemma AppendBatchAssoc(a: Batch, b: Batch, c: Batch)
    ensures AppendBatch(AppendBatch(a, b), c) == AppendBatch(a, AppendBatch(b, c))
  {
    assert (a.tasks + b.tasks) + c.tasks == a.tasks + (b.tasks + c.tasks);
    assert (a.errors + b.errors) + c.errors == a.errors + (b.errors + c.errors);
    assert (a.warnings + b.warnings) + c.warnings == a.warnings + (b.warnings + c.warnings);
  }

  /** Within a pass nothing is skipped: each candidate yields a task or an
      error. */
  lemma {:induction false} BuildTasksInPass(ctx: Context, options: PluginOptions, assets: map<string, Asset>, files: seq<string>)
    ensures |BuildTasks(ctx, options, assets, {}, files).tasks| + |BuildTasks(ctx, options, assets, {}, files).errors| == |files|
  {
    if |files| > 0 {
      BuildTasksInPass(ctx, options, assets, files[..|files| - 1]);
      assert !BuildTask(ctx, options, assets, {}, files[|files| - 1]).Skipped?;
    }
  }

  /** A candidate with an asset appends its task. */
  lemma BuildTasksAppend(ctx: Context, options: PluginOptions, assets: map<string, Asset>, files: seq<string>)
    requires |files| > 0 && files[|files| - 1] in assets
    ensures var prev := BuildTasks(ctx, options, assets, {}, files[..|files| - 1]);
            var r := BuildTasks(ctx, options, assets, {}, files);
            && r.errors == prev.errors
            && |r.tasks| == |prev.tasks| + 1
            && (forall i :: 0 <= i < |prev.tasks| ==> r.tasks[i] == prev.tasks[i])
            && r.tasks[|prev.tasks|] == BuildTask(ctx, options, assets, {}, files[|files| - 1]).task
  {
    var o := BuildTask(ctx, options, assets, {}, files[|files| - 1]);
    assert o.Built?;
  }

  /** When every candidate has an asset, the tasks follow the candidates one
      for one and in order, so a file listed twice is minified twice. */
  lemma {:induction false} BuildTasksFollowFiles(ctx: Context, options: PluginOptions, assets: map<string, Asset>, files: seq<string>)
    requires forall i :: 0 <= i < |files| ==> files[i] in assets
    ensures BuildTasks(ctx, options, assets, {}, files).errors == []
    ensures |BuildTasks(ctx, options, assets, {}, files).tasks| == |files|
    ensures forall i :: 0 <= i < |files| ==> BuildTasks(ctx, options, assets, {}, files).tasks[i].file == files[i]
    ensures forall i :: 0 <= i < |files| ==>
              BuildTasks(ctx, options, assets, {}, files).tasks[i] == BuildTask(ctx, options, assets, {}, files[i]).task
  {
    if |files| > 0 {
      var prefix := files[..|files| - 1];
      assert forall i :: 0 <= i < |prefix| ==> prefix[i] == files[i];
      BuildTasksFollowFiles(ctx, options, assets, prefix);
      BuildTasksAppend(ctx, options, assets, files);
      FollowStep(ctx, options, assets, BuildTasks(ctx, options, assets, {}, prefix), BuildTasks(ctx, options, assets, {}, files), files);
    }
  }

  /** One more task for one more file keeps the tasks in step with the files. */
  lemma FollowStep(ctx: Context, options: PluginOptions, assets: map<string, Asset>, prev: Batch, r: Batch, files: seq<string>)
    requires |files| > 0
    requires forall i :: 0 <= i < |files| ==> files[i] in assets
    requires prev.errors == [] && |prev.tasks| == |files| - 1
    requires forall i :: 0 <= i < |files| - 1 ==>
               prev.tasks[i].file == files[i] && prev.tasks[i] == BuildTask(ctx, options, assets, {}, files[i]).task
    requires r.errors == prev.errors && |r.tasks| == |prev.tasks| + 1
    requires forall i :: 0 <= i < |prev.tasks| ==> r.tasks[i] == prev.tasks[i]
    requires r.tasks[|prev.tasks|] == BuildTask(ctx, options, assets, {}, files[|files| - 1]).task
    ensures r.errors == [] && |r.tasks| == |files|
    ensures forall i :: 0 <= i < |files| ==>
              r.tasks[i].file == files[i] && r.tasks[i] == BuildTask(ctx, options, assets, {}, files[i]).task
  {
    forall i | 0 <= i < |files|
      ensures r.tasks[i].file == files[i] && r.tasks[i] == BuildTask(ctx, options, assets, {}, files[i]).task
    {
      if i < |prev.tasks| {
        assert r.tasks[i] == prev.tasks[i];
      }
    }
  }

  /** The banner written above a minified file whose comments were
      extracted: none when `banner` is `false` or a function returning an
      empty text; the default pointing at the comments file when `banner` is
      absent or empty; otherwise the text, the function's result, or `true`. */
  function BannerFor(rt: Runtime, e: ExtractComments, commentsFile: string): (r: Option<string>)
    ensures r.None? <==> BannerOf(e) == BannerFlag(false)
                         || (BannerOf(e).BannerFunction? && rt.callString(BannerOf(e).handle, commentsFile) == "")
    ensures BannerOf(e).NoBanner? || BannerOf(e) == BannerString("") ==>
              r == Some("For license information please see " + Basename(commentsFile))
    ensures BannerOf(e).BannerString? && BannerOf(e).text != "" ==> r == Some(BannerOf(e).text)
    ensures BannerOf(e).BannerFunction? && rt.callString(BannerOf(e).handle, commentsFile) != "" ==>
              r == Some(rt.callString(BannerOf(e).handle, commentsFile))
    ensures BannerOf(e) == BannerFlag(true) ==> r == Some("true")
    ensures r.Some? ==> r.value != ""
  {
    match BannerOf(e)
    case BannerFlag(on) => if on then Some("true") else None
    case NoBanner => Some("For license information please see " + Basename(commentsFile))
    case BannerString(text) =>
      if text == "" then Some("For license information please see " + Basename(commentsFile)) else Some(text)
    case BannerFunction(h) =>
      var b := rt.callString(h, commentsFile);
      if b == "" then None else Some(b)
  }

  /** The banner comment line. */
  function BannerLine(banner: string): string {
    "/*! " + banner + " */\n"
  }

  /** The minified asset: a `SourceMapSource` when the engine produced a
      map, a `RawSource` otherwise. */
  function OutputAsset(task: Task, res: MinifyResult): (a: Asset)
    ensures a.content == res.code
    ensures a.sourceMap.Some? <==> res.outputMap.Some? && res.outputMap.value != ""
  {
    if res.outputMap.Some? && res.outputMap.value != "" then
      Asset(res.code, Some(MinifiedMap(task.file, res.outputMap.value, task.input, task.inputSourceMap)), true)
    else
      Asset(res.code, None, true)
  }

  /** `new ConcatSource(bannerLine, asset)`. */
  function WithBanner(a: Asset, banner: string): (r: Asset)
    ensures r.content == BannerLine(banner) + a.content
    ensures r.sourceMap.Some? <==> a.sourceMap.Some?
  {
    Asset(BannerLine(banner) + a.content,
          if a.sourceMap.Some? then Some(PrefixedMap(BannerLine(banner), a.sourceMap.value)) else None,
          true)
  }

  /** The text appended to the comments file for one asset. */
  function CommentsChunk(extracted: seq<string>): string {
    Join(extracted, "\n\n") + "\n"
  }

  /** Writing extracted comments to `commentsFile`: appended after a
      newline when the file exists, created otherwise. */
  function AppendComments(assets: map<string, Asset>, commentsFile: string, extracted: seq<string>): (r: map<string, Asset>)
    ensures r.Keys == assets.Keys + {commentsFile}
    ensures forall k :: k in assets && k != commentsFile ==> r[k] == assets[k]
    ensures commentsFile in assets ==>
              r[commentsFile].content == assets[commentsFile].content + "\n" + CommentsChunk(extracted)
    ensures commentsFile !in assets ==> r[commentsFile].content == CommentsChunk(extracted)
  {
    if commentsFile in assets then
      assets[commentsFile := Asset(assets[commentsFile].content + "\n" + CommentsChunk(extracted), None, true)]
    else
      assets[commentsFile := Asset(CommentsChunk(extracted), None, true)]
  }

  /** Appending the comments of two assets one after the other leaves the
      comments file as if both lists had been extracted at once. */
  lemma AppendCommentsConcat(assets: map<string, Asset>, commentsFile: string, a: seq<string>, b: seq<string>)
    requires |a| > 0 && |b| > 0
    ensures AppendComments(AppendComments(assets, commentsFile, a), commentsFile, b)[commentsFile]
            == AppendComments(assets, commentsFile, a + b)[commentsFile]
  {
    JoinConcat(a, b, "\n\n");
  }

  /** The warnings pushed for one result, and the error that stopped
      pushing them if `buildWarning` threw. */
  datatype Pushed = Pushed(warnings: seq<string>, error: Option<JsError>)

  /** `warnings.forEach(...)`: each built warning that is neither `null` nor
      empty is pushed; a throw ends the loop. */
  function PushWarnings(ctx: Context, filter: WarningsFilter, ws: seq<string>, file: string, sourceMap: Option<RawMap>)
    : (r: Pushed)
    ensures |r.warnings| <= |ws|
  {
    if |ws| == 0 then Pushed([], None)
    else
      var prev := PushWarnings(ctx, filter, ws[..|ws| - 1], file, sourceMap);
      if prev.error.Some? then prev
      else
        var built := BuildWarning(ctx.host, ctx.rt, filter, ws[|ws| - 1], file, sourceMap);
        if built.Threw? then Pushed(prev.warnings, Some(built.error))
        else if built.value.Some? && built.value.value != "" then Pushed(prev.warnings + [built.value.value], None)
        else prev
  }

  /** The warning names a location the plugin's pattern finds. */
  predicate Located(warning: string) {
    WarningLocation(warning).Some?
  }

  lemma LocatedSplit(ws: seq<string>, prefix: seq<string>)
    requires |ws| > 0 && prefix == ws[..|ws| - 1]
    ensures (forall i :: 0 <= i < |ws| ==> Located(ws[i]))
            <==> (forall i :: 0 <= i < |prefix| ==> Located(prefix[i])) && Located(ws[|ws| - 1])
  {
    assert forall i :: 0 <= i < |prefix| ==> prefix[i] == ws[i];
  }

  /** Pushing stops with an error exactly when there is a file name and a
      usable map and some warning carries no location. */
  lemma {:induction false} PushWarningsStops(ctx: Context, filter: WarningsFilter, ws: seq<string>, file: string, sourceMap: Option<RawMap>)
    ensures PushWarnings(ctx, filter, ws, file, sourceMap).error.None? <==>
              file == "" || sourceMap.None? || forall i :: 0 <= i < |ws| ==> Located(ws[i])
  {
    if |ws| > 0 {
      var prefix := ws[..|ws| - 1];
      PushWarningsStops(ctx, filter, prefix, file, sourceMap);
      var r := PushWarnings(ctx, filter, ws, file, sourceMap);
      var prev := PushWarnings(ctx, filter, prefix, file, sourceMap);
      var last := BuildWarning(ctx.host, ctx.rt, filter, ws[|ws| - 1], file, sourceMap);
      assert r.error.None? <==> prev.error.None? && !last.Threw?;
      assert last.Threw? <==> file != "" && sourceMap.Some? && !Located(ws[|ws| - 1]);
      LocatedSplit(ws, prefix);
    }
  }

  predicate NonEmpty(s: string) { s != "" }

  /** What `buildWarning` makes of one warning when it returns: its text, or
      `""` for `null`. */
  function Shown(ctx: Context, filter: WarningsFilter, warning: string, file: string, sourceMap: Option<RawMap>): string {
    var built := BuildWarning(ctx.host, ctx.rt, filter, warning, file, sourceMap);
    if built.Returned? && built.value.Some? then built.value.value else ""
  }

  /** `Shown` of each warning, in order. */
  function ShownAll(ctx: Context, filter: WarningsFilter, ws: seq<string>, file: string, sourceMap: Option<RawMap>): (r: seq<string>)
    ensures |r| == |ws|
    ensures forall i :: 0 <= i < |ws| ==> r[i] == Shown(ctx, filter, ws[i], file, sourceMap)
  {
    seq(|ws|, i requires 0 <= i < |ws| => Shown(ctx, filter, ws[i], file, sourceMap))
  }

  /** When nothing throws, the pushed warnings are the built ones, in the
      engine's order, with the `null` (rejected) and empty ones left out. */
  lemma {:induction false} PushWarningsKeeps(ctx: Context, filter: WarningsFilter, ws: seq<string>, file: string, sourceMap: Option<RawMap>)
    requires file == "" || sourceMap.None? || forall i :: 0 <= i < |ws| ==> Located(ws[i])
    ensures PushWarnings(ctx, filter, ws, file, sourceMap) == Pushed(Filter(ShownAll(ctx, filter, ws, file, sourceMap), NonEmpty), None)
  {
    if |ws| > 0 {
      var prefix := ws[..|ws| - 1];
      LocatedSplit(ws, prefix);
      PushWarningsKeeps(ctx, filter, prefix, file, sourceMap);
      ShownAllStep(ctx, filter, ws, prefix, file, sourceMap);
      PushWarningsStep(ctx, filter, ws, prefix, file, sourceMap);
    }
  }

  lemma ShownAllStep(ctx: Context, filter: WarningsFilter, ws: seq<string>, prefix: seq<string>, file: string, sourceMap: Option<RawMap>)
    requires |ws| > 0 && prefix == ws[..|ws| - 1]
    ensures var s := Shown(ctx, filter, ws[|ws| - 1], file, sourceMap);
            Filter(ShownAll(ctx, filter, ws, file, sourceMap), NonEmpty)
            == Filter(ShownAll(ctx, filter, prefix, file, sourceMap), NonEmpty) + (if NonEmpty(s) then [s] else [])
  {
    var shown := ShownAll(ctx, filter, ws, file, sourceMap);
    assert shown[..|shown| - 1] == ShownAll(ctx, filter, prefix, file, sourceMap);
  }

  lemma PushWarningsStep(ctx: Context, filter: WarningsFilter, ws: seq<string>, prefix: seq<string>, file: string, sourceMap: Option<RawMap>)
    requires |ws| > 0 && prefix == ws[..|ws| - 1]
    requires PushWarnings(ctx, filter, prefix, file, sourceMap).error.None?
    requires file == "" || sourceMap.None? || Located(ws[|ws| - 1])
    ensures var prev := PushWarnings(ctx, filter, prefix, file, sourceMap);
            var s := Shown(ctx, filter, ws[|ws| - 1], file, sourceMap);
            PushWarnings(ctx, filter, ws, file, sourceMap) == if NonEmpty(s) then Pushed(prev.warnings + [s], None) else prev
  {
  }

  /** Without a file name or a usable map every non-empty warning passes
      through as it is. */
  lemma {:induction false} WarningsPassThrough(ctx: Context, filter: WarningsFilter, ws: seq<string>, file: string, sourceMap: Option<RawMap>)
    requires file == "" || sourceMap.None?
    ensures PushWarnings(ctx, filter, ws, file, sourceMap) == Pushed(Filter(ws, NonEmpty), None)
  {
    if |ws| > 0 {
      WarningsPassThrough(ctx, filter, ws[..|ws| - 1], file, sourceMap);
    }
  }

  /** When warning `k` is the first without a location (and there is a file
      name and a usable map), its throw ends the loop: the warnings before it
      have already been pushed, as built and in order, and none after it. */
  lemma {:induction false} PushWarningsPrefixOnThrow(ctx: Context, filter: WarningsFilter, ws: seq<string>, file: string,
                                                     sourceMap: Option<RawMap>, k: nat)
    requires k < |ws| && file != "" && sourceMap.Some?
    requires !Located(ws[k]) && forall i :: 0 <= i < k ==> Located(ws[i])
    ensures PushWarnings(ctx, filter, ws, file, sourceMap).error.Some?
    ensures PushWarnings(ctx, filter, ws, file, sourceMap).warnings
            == Filter(ShownAll(ctx, filter, ws[..k], file, sourceMap), NonEmpty)
    decreases |ws|
  {
    var prefix := ws[..|ws| - 1];
    if k < |ws| - 1 {
      assert prefix[k] == ws[k];
      forall i | 0 <= i < k ensures Located(prefix[i]) {
        assert prefix[i] == ws[i];
      }
      PushWarningsPrefixOnThrow(ctx, filter, prefix, file, sourceMap, k);
      PushWarningsAfterError(ctx, filter, ws, prefix, file, sourceMap);
      assert prefix[..k] == ws[..k];
    } else {
      assert prefix == ws[..k];
      forall i | 0 <= i < |prefix| ensures Located(prefix[i]) {
        assert prefix[i] == ws[i];
      }
      PushWarningsKeeps(ctx, filter, prefix, file, sourceMap);
      PushWarningsThrowLast(ctx, filter, ws, prefix, file, sourceMap);
    }
  }

  lemma PushWarningsAfterError(ctx: Context, filter: WarningsFilter, ws: seq<string>, prefix: seq<string>, file: string,
                               sourceMap: Option<RawMap>)
    requires |ws| > 0 && prefix == ws[..|ws| - 1]
    requires PushWarnings(ctx, filter, prefix, file, sourceMap).error.Some?
    ensures PushWarnings(ctx, filter, ws, file, sourceMap) == PushWarnings(ctx, filter, prefix, file, sourceMap)
  {
  }

  lemma PushWarningsThrowLast(ctx: Context, filter: WarningsFilter, ws: seq<string>, prefix: seq<string>, file: string,
                              sourceMap: Option<RawMap>)
    requires |ws| > 0 && prefix == ws[..|ws| - 1]
    requires forall i :: 0 <= i < |prefix| ==> Located(prefix[i])
    requires file != "" && sourceMap.Some? && !Located(ws[|ws| - 1])
    ensures PushWarnings(ctx, filter, ws, file, sourceMap).error.Some?
    ensures PushWarnings(ctx, filter, ws, file, sourceMap).warnings == PushWarnings(ctx, filter, prefix, file, sourceMap).warnings
  {
    PushWarningsStops(ctx, filter, prefix, file, sourceMap);
  }

  /** The state the merge loop threads through the results. */
  datatype State = State(comp: Compilation, processed: set<string>)

  /** The merge loop goes on, or a throw ends the callback. */
  datatype Step = Continue(state: State) | Halt(state: State, error: JsError)

  /** The map a result's error or warnings are translated through: built
      only when there is an error or a warning. */
  function ResultMap(host: Host, task: Task, res: MinifyResult): (m: Option<RawMap>)
    ensures m.Some? ==> res.error.Some? || |res.warnings| > 0
    ensures res.error.Some? || |res.warnings| > 0 ==> m == BuildSourceMap(host, task.inputSourceMap)
  {
    if res.error.Some? || |res.warnings| > 0 then BuildSourceMap(host, task.inputSourceMap) else None
  }

  /** Whether a result's comments are written: the task has a non-empty
      comments file and something was extracted. */
  predicate WritesComments(task: Task, res: MinifyResult) {
    task.commentsFile.Some? && task.commentsFile.value != "" && |res.extractedComments| > 0
  }

  /** The asset written for `task.file`: the engine's code, preceded by the
      banner comment exactly when comments were written and a banner
      applies; it keeps a map exactly when the engine produced one. */
  function FinalAsset(ctx: Context, options: PluginOptions, task: Task, res: MinifyResult): (a: Asset)
    ensures !WritesComments(task, res) ==> a.content == res.code
    ensures WritesComments(task, res) ==>
              var banner := BannerFor(ctx.rt, options.extractComments, task.commentsFile.value);
              && (banner.None? ==> a.content == res.code)
              && (banner.Some? ==> a.content == "/*! " + banner.value + " */\n" + res.code)
    ensures a.sourceMap.Some? <==> res.outputMap.Some? && res.outputMap.value != ""
    ensures a.hasSourceAndMap
  {
    var out := OutputAsset(task, res);
    if WritesComments(task, res) then
      var banner := BannerFor(ctx.rt, options.extractComments, task.commentsFile.value);
      if banner.Some? then WithBanner(out, banner.value) else out
    else out
  }

  /** One iteration of `results.forEach`: the error path pushes one error and
      touches nothing else; otherwise comments are written, then the
      minified asset, then the warnings. */
  function MergeOne(ctx: Context, options: PluginOptions, s: State, task: Task, res: MinifyResult): (r: Step)
    ensures res.error.Some? ==>
              r == Continue(s.(comp := s.comp.(errors := s.comp.errors
                   + [BuildError(ctx.host, res.error.value, task.file, BuildSourceMap(ctx.host, task.inputSourceMap))])))
    ensures res.error.None? ==> && r.state.processed == s.processed + {task.file}
                                && r.state.comp.errors == s.comp.errors
                                && task.file in r.state.comp.assets
                                && r.state.comp.assets[task.file] == FinalAsset(ctx, options, task, res)
    ensures res.error.None? ==>
              var pushed := PushWarnings(ctx, options.warningsFilter, res.warnings, task.file, ResultMap(ctx.host, task, res));
              && r.state.comp.warnings == s.comp.warnings + pushed.warnings
              && (r.Halt? <==> pushed.error.Some?)
              && (r.Halt? ==> r.error == pushed.error.value)
    ensures res.error.None? && WritesComments(task, res) && task.commentsFile.value != task.file ==>
              && task.commentsFile.value in r.state.comp.assets
              && r.state.comp.assets[task.commentsFile.value]
                 == AppendComments(s.comp.assets, task.commentsFile.value, res.extractedComments)[task.commentsFile.value]
    ensures res.error.Some? ==> r.state.comp.assets == s.comp.assets
    ensures res.error.None? ==>
              r.state.comp.assets.Keys
              == s.comp.assets.Keys + {task.file} + (if WritesComments(task, res) then {task.commentsFile.value} else {})
    ensures res.error.None? ==>
              forall k :: (k in s.comp.assets && k != task.file
                           && (!WritesComments(task, res) || k != task.commentsFile.value)) ==>
                k in r.state.comp.assets && r.state.comp.assets[k] == s.comp.assets[k]
  {
    var sourceMap := ResultMap(ctx.host, task, res);
    if res.error.Some? then
      var e := BuildError(ctx.host, res.error.value, task.file, sourceMap);
      Continue(s.(comp := s.comp.(errors := s.comp.errors + [e])))
    else
      var assets := if WritesComments(task, res) then
                       AppendComments(s.comp.assets, task.commentsFile.value, res.extractedComments)
                     else s.comp.assets;
      var assets' := assets[task.file := FinalAsset(ctx, options, task, res)];
      var pushed := PushWarnings(ctx, options.warningsFilter, res.warnings, task.file, sourceMap);
      var next := State(s.comp.(assets := assets', warnings := s.comp.warnings + pushed.warnings), s.processed + {task.file});
      if pushed.error.Some? then Halt(next, pushed.error.value) else Continue(next)
  }

  /** `results.forEach` from index `i` on; `tasks[i]` missing makes the
      destructuring throw. */
  function MergeFrom(ctx: Context, options: PluginOptions, tasks: seq<Task>, results: seq<MinifyResult>, i: nat, s: State)
    : (r: Step)
    requires i <= |results|
    ensures r.Halt? ==> i < |results|
    decreases |results| - i
  {
    if i == |results| then Continue(s)
    else if i >= |tasks| then Halt(s, Raise(ctx.rt, MissingTask(i)))
    else
      match MergeOne(ctx, options, s, tasks[i], results[i])
      case Continue(s') => MergeFrom(ctx, options, tasks, results, i + 1, s')
      case Halt(s', e) => Halt(s', e)
  }

  /** One merge step: a halting step ends the merge, a continuing one hands its state on. */
  lemma MergeFromUnfold(ctx: Context, options: PluginOptions, tasks: seq<Task>, results: seq<MinifyResult>, i: nat, s: State)
    requires i < |results| && i < |tasks|
    ensures var step := MergeOne(ctx, options, s, tasks[i], results[i]);
            MergeFrom(ctx, options, tasks, results, i, s)
              == if step.Continue? then MergeFrom(ctx, options, tasks, results, i + 1, step.state) else step
  {
  }

  /** The files of `tasks[i..j]`. */
  function FilesOf(tasks: seq<Task>, i: nat, j: nat): (fs: set<string>)
    requires i <= j <= |tasks|
    ensures forall k :: i <= k < j ==> tasks[k].file in fs
    decreases j - i
  {
    if i == j then {} else {tasks[i].file} + FilesOf(tasks, i + 1, j)
  }

  /** Results without an error or warnings merge without stopping: every
      task's file is marked processed and no error or warning is pushed. */
  lemma {:induction false} CleanMerge(ctx: Context, options: PluginOptions, tasks: seq<Task>, results: seq<MinifyResult>, i: nat, s: State)
    requires i <= |results| <= |tasks|
    requires forall k :: i <= k < |results| ==> results[k].error.None? && results[k].warnings == []
    ensures MergeFrom(ctx, options, tasks, results, i, s).Continue?
    ensures MergeFrom(ctx, options, tasks, results, i, s).state.processed == s.processed + FilesOf(tasks, i, |results|)
    ensures MergeFrom(ctx, options, tasks, results, i, s).state.comp.errors == s.comp.errors
    ensures MergeFrom(ctx, options, tasks, results, i, s).state.comp.warnings == s.comp.warnings
    decreases |results| - i
  {
    if i < |results| {
      var s' := MergeOne(ctx, options, s, tasks[i], results[i]).state;
      assert PushWarnings(ctx, options.warningsFilter, results[i].warnings, tasks[i].file,
                          ResultMap(ctx.host, tasks[i], results[i])) == Pushed([], None);
      CleanMerge(ctx, options, tasks, results, i + 1, s');
    }
  }

  /** An asset that no later task writes, as its file or its comments file,
      keeps its content to the end of the loop, whether or not it halts. */
  lemma {:induction false} MergeFrame(ctx: Context, options: PluginOptions, tasks: seq<Task>, results: seq<MinifyResult>,
                                      i: nat, s: State, key: string)
    requires i <= |results|
    requires key in s.comp.assets
    requires forall j :: i <= j < |results| && j < |tasks| ==>
               key != tasks[j].file && (!WritesComments(tasks[j], results[j]) || key != tasks[j].commentsFile.value)
    ensures key in MergeFrom(ctx, options, tasks, results, i, s).state.comp.assets
    ensures MergeFrom(ctx, options, tasks, results, i, s).state.comp.assets[key] == s.comp.assets[key]
    decreases |results| - i
  {
    if i < |results| && i < |tasks| {
      var step := MergeOne(ctx, options, s, tasks[i], results[i]);
      assert key in step.state.comp.assets && step.state.comp.assets[key] == s.comp.assets[key];
      if step.Continue? {
        MergeFrame(ctx, options, tasks, results, i + 1, step.state, key);
      }
    }
  }

  /** Results without an error or warnings, for tasks with distinct files
      none of which is another task's comments file: every task's file ends
      up holding its minified asset, banner included. */
  lemma {:induction false} CleanMergeAssets(ctx: Context, options: PluginOptions, tasks: seq<Task>, results: seq<MinifyResult>,
                                            i: nat, s: State)
    requires i <= |results| <= |tasks|
    requires forall k :: i <= k < |results| ==> results[k].error.None? && results[k].warnings == []
    requires forall j, k :: i <= j < k < |results| ==> tasks[j].file != tasks[k].file
    requires forall j, k :: i <= j < |results| && i <= k < |results| ==>
               !WritesComments(tasks[j], results[j]) || tasks[j].commentsFile.value != tasks[k].file
    ensures forall k :: i <= k < |results| ==>
              && tasks[k].file in MergeFrom(ctx, options, tasks, results, i, s).state.comp.assets
              && MergeFrom(ctx, options, tasks, results, i, s).state.comp.assets[tasks[k].file]
                 == FinalAsset(ctx, options, tasks[k], results[k])
    decreases |results| - i
  {
    if i < |results| {
      var step := MergeOne(ctx, options, s, tasks[i], results[i]);
      assert PushWarnings(ctx, options.warningsFilter, results[i].warnings, tasks[i].file,
                          ResultMap(ctx.host, tasks[i], results[i])) == Pushed([], None);
      assert step.Continue?;
      var s' := step.state;
      assert MergeFrom(ctx, options, tasks, results, i, s) == MergeFrom(ctx, options, tasks, results, i + 1, s');
      CleanMergeAssets(ctx, options, tasks, results, i + 1, s');
      MergeFrame(ctx, options, tasks, results, i + 1, s', tasks[i].file);
    }
  }

  /** Two assets extracting into the same comments file: the file holds
      both lists as one extraction would, and when it did not exist before,
      exactly that text. */
  lemma SharedCommentsFile(ctx: Context, options: PluginOptions, s: State, t1: Task, r1: MinifyResult, t2: Task, r2: MinifyResult)
    requires r1.error.None? && r2.error.None?
    requires WritesComments(t1, r1) && WritesComments(t2, r2)
    requires t1.commentsFile == t2.commentsFile
    requires t1.file != t1.commentsFile.value && t2.file != t1.commentsFile.value
    ensures var s1 := MergeOne(ctx, options, s, t1, r1).state;
            var s2 := MergeOne(ctx, options, s1, t2, r2).state;
            var cf := t1.commentsFile.value;
            && s2.comp.assets[cf] == AppendComments(s.comp.assets, cf, r1.extractedComments + r2.extractedComments)[cf]
            && (cf !in s.comp.assets ==> s2.comp.assets[cf].content == CommentsChunk(r1.extractedComments + r2.extractedComments))
  {
    var cf := t1.commentsFile.value;
    var s1 := MergeOne(ctx, options, s, t1, r1).state;
    assert s1.comp.assets[cf] == AppendComments(s.comp.assets, cf, r1.extractedComments)[cf];
    var s2 := MergeOne(ctx, options, s1, t2, r2).state;
    assert s2.comp.assets[cf] == AppendComments(s1.comp.assets, cf, r2.extractedComments)[cf];
    AppendCommentsConcat(s.comp.assets, cf, r1.extractedComments, r2.extractedComments);
  }

  /** What the scheduler reports: an error for the whole batch, or one
      result per task. */
  datatype RunOutcome = TasksFailed(error: JsError) | Ran(results: seq<MinifyResult>)

  /** How a pass ends: the callback is invoked; the callback is never
      invoked (the batch failed); or a throw escapes the merge loop. */
  datatype PassOutcome =
    | Finished(comp: Compilation)
    | Stalled(comp: Compilation)
    | Crashed(comp: Compilation, error: JsError)

  /** `optimizeFn(compilation, chunks, callback)`, with the scheduler's
      answer for the batch as a parameter. */
  function OptimizePass(ctx: Context, options: PluginOptions, comp: Compilation, chunks: seq<seq<string>>,
                        additional: seq<string>, run: seq<Task> -> RunOutcome): (r: PassOutcome)
    ensures var batch := BuildTasks(ctx, options, comp.assets, {}, CandidateFiles(ctx, chunks, additional));
            && |r.comp.errors| >= |comp.errors| + |batch.errors|
            && r.comp.errors[..|comp.errors| + |batch.errors|] == comp.errors + batch.errors
            && |r.comp.warnings| >= |comp.warnings| + |batch.warnings|
            && r.comp.warnings[..|comp.warnings| + |batch.warnings|] == comp.warnings + batch.warnings
            && (r.Stalled? <==> run(batch.tasks).TasksFailed?)
            && (r.Stalled? ==> r.comp.errors == comp.errors + batch.errors + [run(batch.tasks).error.message])
            && (r.Stalled? ==> r.comp.assets == comp.assets && r.comp.warnings == comp.warnings + batch.warnings)
  {
    var batch := BuildTasks(ctx, options, comp.assets, {}, CandidateFiles(ctx, chunks, additional));
    AfterBatch(ctx, options, comp, batch, run(batch.tasks))
  }

  /** The pass once its tasks are built: the building errors and warnings
      are pushed, then the scheduler's answer is handled. */
  function AfterBatch(ctx: Context, options: PluginOptions, comp: Compilation, batch: Batch, outcome: RunOutcome): (r: PassOutcome)
    ensures |r.comp.errors| >= |comp.errors| + |batch.errors|
    ensures r.comp.errors[..|comp.errors| + |batch.errors|] == comp.errors + batch.errors
    ensures |r.comp.warnings| >= |comp.warnings| + |batch.warnings|
    ensures r.comp.warnings[..|comp.warnings| + |batch.warnings|] == comp.warnings + batch.warnings
    ensures r.Stalled? <==> outcome.TasksFailed?
    ensures r.Stalled? ==> r.comp == comp.(errors := comp.errors + batch.errors + [outcome.error.message],
                                           warnings := comp.warnings + batch.warnings)
    ensures outcome.Ran? ==>
              var m := MergeFrom(ctx, options, batch.tasks, outcome.results, 0,
                                 State(comp.(errors := comp.errors + batch.errors, warnings := comp.warnings + batch.warnings), {}));
              r.comp == m.state.comp && (r.Crashed? <==> m.Halt?)
  {
    var built := comp.(errors := comp.errors + batch.errors, warnings := comp.warnings + batch.warnings);
    match outcome
    case TasksFailed(e) => Stalled(built.(errors := built.errors + [e.message]))
    case Ran(results) => MergeResults(ctx, options, built, batch.tasks, results)
  }

  /** The callback given the scheduler's results: the merge loop from a
      fresh set of processed files, which only appends errors and warnings. */
  function MergeResults(ctx: Context, options: PluginOptions, comp: Compilation, tasks: seq<Task>, results: seq<MinifyResult>)
    : (r: PassOutcome)
    ensures !r.Stalled?
    ensures |comp.errors| <= |r.comp.errors| && r.comp.errors[..|comp.errors|] == comp.errors
    ensures |comp.warnings| <= |r.comp.warnings| && r.comp.warnings[..|comp.warnings|] == comp.warnings
    ensures var m := MergeFrom(ctx, options, tasks, results, 0, State(comp, {}));
            r.comp == m.state.comp && (r.Crashed? <==> m.Halt?) && (r.Crashed? ==> r.error == m.error)
  {
    MergeGrows(ctx, options, tasks, results, 0, State(comp, {}));
    match MergeFrom(ctx, options, tasks, results, 0, State(comp, {}))
    case Continue(s) => Finished(s.comp)
    case Halt(s, e) => Crashed(s.comp, e)
  }

  /** A pass whose scheduler returns one clean result per task, for tasks
      with distinct files none of which is another task's comments file,
      finishes, and each task's file holds its minified asset. */
  lemma CleanPass(ctx: Context, options: PluginOptions, comp: Compilation, batch: Batch, results: seq<MinifyResult>)
    requires |results| == |batch.tasks|
    requires forall k :: 0 <= k < |results| ==> results[k].error.None? && results[k].warnings == []
    requires forall j, k :: 0 <= j < k < |results| ==> batch.tasks[j].file != batch.tasks[k].file
    requires forall j, k :: 0 <= j < |results| && 0 <= k < |results| ==>
               !WritesComments(batch.tasks[j], results[j]) || batch.tasks[j].commentsFile.value != batch.tasks[k].file
    ensures AfterBatch(ctx, options, comp, batch, Ran(results)).Finished?
    ensures forall k :: 0 <= k < |results| ==>
              && batch.tasks[k].file in AfterBatch(ctx, options, comp, batch, Ran(results)).comp.assets
              && AfterBatch(ctx, options, comp, batch, Ran(results)).comp.assets[batch.tasks[k].file]
                 == FinalAsset(ctx, options, batch.tasks[k], results[k])
  {
    var built := comp.(errors := comp.errors + batch.errors, warnings := comp.warnings + batch.warnings);
    CleanMerge(ctx, options, batch.tasks, results, 0, State(built, {}));
    CleanMergeAssets(ctx, options, batch.tasks, results, 0, State(built, {}));
  }

  /** The merge loop only appends errors and warnings. */
  lemma {:induction false} MergeGrows(ctx: Context, options: PluginOptions, tasks: seq<Task>, results: seq<MinifyResult>, i: nat, s: State)
    requires i <= |results|
    ensures var r := MergeFrom(ctx, options, tasks, results, i, s).state;
            && |s.comp.errors| <= |r.comp.errors| && r.comp.errors[..|s.comp.errors|] == s.comp.errors
            && |s.comp.warnings| <= |r.comp.warnings| && r.comp.warnings[..|s.comp.warnings|] == s.comp.warnings
  {
    MergeErrorsGrow(ctx, options, tasks, results, i, s);
    MergeWarningsGrow(ctx, options, tasks, results, i, s);
  }

  /** The errors half of `MergeGrows`. */
  lemma {:induction false} MergeErrorsGrow(ctx: Context, options: PluginOptions, tasks: seq<Task>, results: seq<MinifyResult>, i: nat, s: State)
    requires i <= |results|
    ensures var r := MergeFrom(ctx, options, tasks, results, i, s).state;
            |s.comp.errors| <= |r.comp.errors| && r.comp.errors[..|s.comp.errors|] == s.comp.errors
    decreases |results| - i
  {
    if i < |results| && i < |tasks| {
      var step := MergeOne(ctx, options, s, tasks[i], results[i]);
      MergeOneGrows(ctx, options, s, tasks[i], results[i]);
      MergeFromUnfold(ctx, options, tasks, results, i, s);
      if step.Continue? {
        MergeErrorsGrow(ctx, options, tasks, results, i + 1, step.state);
        var r := MergeFrom(ctx, options, tasks, results, i + 1, step.state).state;
        PrefixTrans(s.comp.errors, step.state.comp.errors, r.comp.errors);
      }
    }
  }

  /** The warnings half of `MergeGrows`. */
  lemma {:induction false} MergeWarningsGrow(ctx: Context, options: PluginOptions, tasks: seq<Task>, results: seq<MinifyResult>, i: nat, s: State)
    requires i <= |results|
    ensures var r := MergeFrom(ctx, options, tasks, results, i, s).state;
            |s.comp.warnings| <= |r.comp.warnings| && r.comp.warnings[..|s.comp.warnings|] == s.comp.warnings
    decreases |results| - i
  {
    if i < |results| && i < |tasks| {
      var step := MergeOne(ctx, options, s, tasks[i], results[i]);
      MergeOneGrows(ctx, options, s, tasks[i], results[i]);
      MergeFromUnfold(ctx, options, tasks, results, i, s);
      if step.Continue? {
        MergeWarningsGrow(ctx, options, tasks, results, i + 1, step.state);
        var r := MergeFrom(ctx, options, tasks, results, i + 1, step.state).state;
        PrefixTrans(s.comp.warnings, step.state.comp.warnings, r.comp.warnings);
      }
    }
  }

  /** One merge step only appends errors and warnings. */
  lemma MergeOneGrows(ctx: Context, options: PluginOptions, s: State, task: Task, res: MinifyResult)
    ensures var r := MergeOne(ctx, options, s, task, res).state;
            && |s.comp.errors| <= |r.comp.errors| && r.comp.errors[..|s.comp.errors|] == s.comp.errors
            && |s.comp.warnings| <= |r.comp.warnings| && r.comp.warnings[..|s.comp.warnings|] == s.comp.warnings
  {
  }

  /** A prefix of a prefix is a prefix. */
  lemma PrefixTrans(a: seq<string>, b: seq<string>, c: seq<string>)
    requires |a| <= |b| && b[..|a|] == a
    requires |b| <= |c| && c[..|b|] == b
    ensures |a| <= |c| && c[..|a|] == a
  {
    assert c[..|a|] == c[..|b|][..|a|];
  }
}
