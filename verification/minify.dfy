/** `minify`: one task through the engine, with the comment hook installed
    when comments are extracted. The engine itself stays abstract. */
module Minify {
  import opened Optional
  import opened Js
  import opened Sources
  import opened Config
  import opened TerserOptions
  import opened CommentPolicy

  /** A cache identity: the object `serialize` is applied to, with the md4
      digest of the input as `hash`. */
  datatype CacheKey = CacheKey(
    terserVersion: string,
    pluginVersion: string,
    options: PluginOptions,
    path: string,
    hash: string)

  /** One file's transform request. `commentsFile` is `None` for `false`. */
  datatype Task = Task(
    file: string,
    input: string,
    inputSourceMap: Option<RawMap>,
    commentsFile: Option<string>,
    extractComments: ExtractComments,
    terserOptions: map<string, Value>,
    cacheKey: Option<CacheKey>)

  /** What the engine returns: `{ error, map, code, warnings }`. */
  datatype EngineOutput = EngineOutput(error: Option<JsError>, outputMap: Option<string>, code: string, warnings: seq<string>)

  /** The minifier. `comments` lists the comments its printer offers to the
      comment hook, in source order; `run` is its output given the hook's
      verdicts on them, or given `None` when no hook is installed and the
      configured `output.comments` decides. */
  datatype Engine = Engine(
    comments: (string, string, EngineOptions) -> seq<CommentSite>,
    run: (string, string, EngineOptions, Option<seq<bool>>) -> EngineOutput)

  /** `{ error, map, code, warnings, extractedComments }`. */
  datatype MinifyResult = MinifyResult(
    error: Option<JsError>,
    outputMap: Option<string>,
    code: string,
    warnings: seq<string>,
    extractedComments: seq<string>)

  /** The engine options for a task: the built options plus
      `{ content: inputSourceMap }` when there is an input map. */
  function EngineOptionsFor(task: Task): (o: EngineOptions)
    ensures o.sourceMap == task.inputSourceMap
    ensures o.(sourceMap := None) == BuildTerserOptions(task.terserOptions)
  {
    var built := BuildTerserOptions(task.terserOptions);
    if task.inputSourceMap.Some? then built.(sourceMap := task.inputSourceMap) else built
  }

  /** The comment hook of a task: built from `extractComments` and the
      engine's `output.comments`. */
  function HookFor(task: Task): Hook {
    BuildComments(task.extractComments, Get(EngineOptionsFor(task).output, "comments"))
  }

  /** The hook run over the comments the engine offers for this task. */
  function HookRunFor(rt: Runtime, engine: Engine, task: Task): HookRun {
    RunHook(rt, HookFor(task), engine.comments(task.file, task.input, EngineOptionsFor(task)))
  }

  function Minify(rt: Runtime, engine: Engine, task: Task): (r: MinifyResult)
    ensures !ExtractEnabled(task.extractComments) ==>
              && r.extractedComments == []
              && EngineOutput(r.error, r.outputMap, r.code, r.warnings)
                 == engine.run(task.file, task.input, EngineOptionsFor(task), None)
    ensures ExtractEnabled(task.extractComments) ==>
              r.extractedComments == HookRunFor(rt, engine, task).extracted
    ensures ExtractEnabled(task.extractComments) && HookRunFor(rt, engine, task).error.Some? ==>
              r.error == HookRunFor(rt, engine, task).error && r.outputMap.None? && r.warnings == []
    ensures ExtractEnabled(task.extractComments) && HookRunFor(rt, engine, task).error.None? ==>
              EngineOutput(r.error, r.outputMap, r.code, r.warnings)
              == engine.run(task.file, task.input, EngineOptionsFor(task), Some(HookRunFor(rt, engine, task).keeps))
  {
    var options := EngineOptionsFor(task);
    if !ExtractEnabled(task.extractComments) then
      var out := engine.run(task.file, task.input, options, None);
      MinifyResult(out.error, out.outputMap, out.code, out.warnings, [])
    else
      var hookRun := HookRunFor(rt, engine, task);
      if hookRun.error.Some? then
        MinifyResult(hookRun.error, None, "", [], hookRun.extracted)
      else
        var out := engine.run(task.file, task.input, options, Some(hookRun.keeps));
        MinifyResult(out.error, out.outputMap, out.code, out.warnings, hookRun.extracted)
  }

  /** The engine's `output.comments` after the constructor and
      `buildTerserOptions`: the constructor's default survives only when the
      user gave no `output`; a user `output` without `comments` leaves
      `comments: false`, and with `comments` that value. */
  lemma OutputCommentsAfterConstruction(u: UserOptions, task: Task)
    requires task.terserOptions == Construct(u).terserOptions
    ensures var user := u.terserOptions.GetOr(map[]);
            var comments := Get(EngineOptionsFor(task).output, "comments");
            && ("output" !in user ==> comments == DefaultOutputComments(Construct(u).extractComments))
            && ("output" in user && user["output"].Obj? && "comments" !in user["output"].fields ==> comments == Bool(false))
            && ("output" in user && user["output"].Obj? && "comments" in user["output"].fields ==>
                  comments == user["output"].fields["comments"])
  {
  }

  /** With comments extracted and no user `output.comments`, the hook keeps no
      comment in the output: every comment it extracts leaves the code. */
  lemma ExtractionStripsComments(rt: Runtime, engine: Engine, u: UserOptions, task: Task)
    requires task.terserOptions == Construct(u).terserOptions
    requires task.extractComments == Construct(u).extractComments && ExtractEnabled(task.extractComments)
    requires var user := u.terserOptions.GetOr(map[]);
             "output" !in user || (user["output"].Obj? && "comments" !in user["output"].fields)
    ensures forall i :: 0 <= i < |HookRunFor(rt, engine, task).keeps| ==> !HookRunFor(rt, engine, task).keeps[i]
  {
    OutputCommentsAfterConstruction(u, task);
    var sites := engine.comments(task.file, task.input, EngineOptionsFor(task));
    RunHookVerdicts(rt, HookFor(task), sites);
    forall i | 0 <= i < |HookRunFor(rt, engine, task).keeps|
      ensures !HookRunFor(rt, engine, task).keeps[i]
    {
      ShapeDispatch(rt, task.extractComments, Bool(false), sites[i]);
    }
  }

  /** Every comment `minify` reports as extracted is the rendering of a
      comment the engine offered that the hook's `extract` condition
      accepted; nothing is reported when extraction is off. */
  lemma ExtractedCommentsAreOffered(rt: Runtime, engine: Engine, task: Task)
    ensures var r := Minify(rt, engine, task);
            var sites := engine.comments(task.file, task.input, EngineOptionsFor(task));
            && (!ExtractEnabled(task.extractComments) ==> r.extractedComments == [])
            && (ExtractEnabled(task.extractComments) && r.error.None? ==>
                  r.extractedComments == Accepted(rt, HookFor(task), sites))
            && forall j :: 0 <= j < |r.extractedComments| ==>
                 ExtractedFrom(rt, HookFor(task), sites, r.extractedComments[j])
  {
    var sites := engine.comments(task.file, task.input, EngineOptionsFor(task));
    RunHookExtracts(rt, HookFor(task), sites);
    RunHookExtractsAll(rt, HookFor(task), sites);
    var r := Minify(rt, engine, task);
    if ExtractEnabled(task.extractComments) {
      assert r.extractedComments == RunHook(rt, HookFor(task), sites).extracted;
    }
  }
}
