/** `buildComments`: the `extractComments` option and the engine's
    `output.comments` turned into one comment hook that decides, for each
    comment the engine prints, whether to keep it and whether to extract it. */
module CommentPolicy {
  import opened Optional
  import opened Js
  import opened Config
  import Patterns
  import Text

  /** A condition after normalisation: what each raw condition value is
      turned into, by its JavaScript type. */
  datatype Condition =
    | Always(verdict: bool)     // a boolean: a constant predicate
    | Callback(handle: nat)     // a function: called as it is
    | AllComments               // the string 'all'
    | SomeComments              // the string 'some'
    | Pattern(source: string)   // any other string: `new RegExp(source)` at each call
    | Tester(target: Value)     // anything else: `target.test(value)` at each call

  /** The raw `preserve` and `extract` conditions, before normalisation. */
  datatype RawConditions = RawConditions(preserve: Value, extract: Value)

  /** The shape dispatch on `extractComments`; `commentsOpts` is the engine's
      `output.comments`. */
  function SelectConditions(e: ExtractComments, commentsOpts: Value): RawConditions {
    match e
    case ExtractFlag(_) => RawConditions(commentsOpts, Re(LicenseRegex))
    case ExtractPattern(source) => RawConditions(commentsOpts, Str(source))
    case ExtractRegExp(re) => RawConditions(commentsOpts, Re(re))
    case ExtractFunction(h) => RawConditions(Bool(false), Fn(h))
    case ExtractObject(condition, _, _) =>
      if condition.Some? then RawConditions(commentsOpts, condition.value)
      else RawConditions(Bool(false), commentsOpts)
  }

  /** Normalisation by `typeof`; it does not recurse into objects. */
  function Normalize(v: Value): Condition {
    match v
    case Bool(b) => Always(b)
    case Fn(h) => Callback(h)
    case Str(s) =>
      if s == "all" then AllComments
      else if s == "some" then SomeComments
      else Pattern(s)
    case _ => Tester(v)
  }

  /** Calling a normalised condition on a comment. */
  function Evaluate(rt: Runtime, c: Condition, site: CommentSite): Result<bool> {
    match c
    case Always(b) => Returned(b)
    case Callback(h) => Returned(rt.callComment(h, site.node, site.comment))
    case AllComments => Returned(true)
    case SomeComments => Returned(IsBlock(site.comment) && Test(rt, SomeRegex, site.comment.value))
    case Pattern(source) => TestSource(rt, source, site.comment.value)
    case Tester(target) =>
      if target.Re? then Returned(Test(rt, target.re, site.comment.value))
      else Threw(Raise(rt, NotAFunction("test")))
  }

  /** What a normalised condition answers, by the type of the raw value. */
  lemma NormalizeTable(rt: Runtime, v: Value, site: CommentSite)
    ensures v.Bool? ==> Evaluate(rt, Normalize(v), site) == Returned(v.b)
    ensures v.Fn? ==> Evaluate(rt, Normalize(v), site) == Returned(rt.callComment(v.handle, site.node, site.comment))
    ensures v == Str("all") ==> Evaluate(rt, Normalize(v), site) == Returned(true)
    ensures v == Str("some") ==>
              Evaluate(rt, Normalize(v), site)
              == Returned(site.comment.kind == "comment2" && Patterns.SomeMatch(site.comment.value))
    ensures v.Str? && v.s != "all" && v.s != "some" ==>
              Evaluate(rt, Normalize(v), site) == TestSource(rt, v.s, site.comment.value)
    ensures v.Re? ==> Evaluate(rt, Normalize(v), site) == Returned(Test(rt, v.re, site.comment.value))
    ensures (v.Undefined? || v.Null? || v.Num? || v.Obj?) ==> Evaluate(rt, Normalize(v), site).Threw?
  {
  }

  /** `'some'` only ever extracts block comments. */
  lemma SomeIgnoresLineComments(rt: Runtime, site: CommentSite)
    requires site.comment.kind != "comment2"
    ensures Evaluate(rt, Normalize(Str("some")), site) == Returned(false)
  {
  }

  /** `'some'` accepts every block comment the license pattern accepts through
      one of its markers, in any letter case. */
  lemma SomeAcceptsLicenseMarkers(rt: Runtime, site: CommentSite)
    requires IsBlock(site.comment)
    requires Patterns.LicenseMatch(site.comment.value) && !Patterns.StarsThenBang(site.comment.value)
    ensures Evaluate(rt, Normalize(Str("some")), site) == Returned(true)
  {
    Patterns.LicenseMarkersAreSomeMarkers(site.comment.value);
  }

  /** The two normalised conditions of the comment hook. */
  datatype Hook = Hook(preserve: Condition, extract: Condition)

  function BuildComments(e: ExtractComments, commentsOpts: Value): Hook {
    var raw := SelectConditions(e, commentsOpts);
    Hook(Normalize(raw.preserve), Normalize(raw.extract))
  }

  /** The shape dispatch of `buildComments`, stated by what the hook's
      conditions answer. */
  lemma ShapeDispatch(rt: Runtime, e: ExtractComments, commentsOpts: Value, site: CommentSite)
    ensures e.ExtractFlag? ==>
              && BuildComments(e, commentsOpts).preserve == Normalize(commentsOpts)
              && Evaluate(rt, BuildComments(e, commentsOpts).extract, site)
                 == Returned(Patterns.LicenseMatch(site.comment.value))
    ensures e.ExtractPattern? || e.ExtractRegExp? ==>
              BuildComments(e, commentsOpts).preserve == Normalize(commentsOpts)
    ensures e.ExtractPattern? ==> BuildComments(e, commentsOpts).extract == Normalize(Str(e.source))
    ensures e.ExtractRegExp? ==>
              Evaluate(rt, BuildComments(e, commentsOpts).extract, site)
              == Returned(Test(rt, e.re, site.comment.value))
    ensures e.ExtractFunction? ==>
              && Evaluate(rt, BuildComments(e, commentsOpts).preserve, site) == Returned(false)
              && Evaluate(rt, BuildComments(e, commentsOpts).extract, site)
                 == Returned(rt.callComment(e.handle, site.node, site.comment))
    ensures e.ExtractObject? && e.condition.Some? ==>
              && BuildComments(e, commentsOpts).preserve == Normalize(commentsOpts)
              && BuildComments(e, commentsOpts).extract == Normalize(e.condition.value)
    ensures e.ExtractObject? && e.condition.None? ==>
              && Evaluate(rt, BuildComments(e, commentsOpts).preserve, site) == Returned(false)
              && BuildComments(e, commentsOpts).extract == Normalize(commentsOpts)
  {
  }

  /** Normalisation is not recursive: `{ condition: true }` extracts every
      comment, while `true` extracts only license comments. */
  lemma ConditionIsNotRecursive(rt: Runtime, commentsOpts: Value)
    ensures forall site :: Evaluate(rt, BuildComments(ExtractObject(Some(Bool(true)), NoFilename, NoBanner), commentsOpts).extract, site) == Returned(true)
    ensures var plain := CommentSite(AstNode(0), Comment("comment2", "x"));
            Evaluate(rt, BuildComments(ExtractFlag(true), commentsOpts).extract, plain) == Returned(false)
  {
    var plain := CommentSite(AstNode(0), Comment("comment2", "x"));
    Text.OccursMeans("x", "@preserve", false);
    Text.OccursMeans("x", "@license", false);
    Text.OccursMeans("x", "@cc_on", false);
    assert !Patterns.StarsThenBang("x");
  }

  /** How an extracted comment is written: `/*value*/` for a block comment,
      `//value` otherwise. */
  function Render(c: Comment): (r: string)
    ensures IsBlock(c) ==> r == "/*" + c.value + "*/"
    ensures !IsBlock(c) ==> r == "//" + c.value
  {
    if IsBlock(c) then "/*" + c.value + "*/" else "//" + c.value
  }

  /** Rendering loses nothing the comments file needs: the text and whether
      the comment was a block comment can be read back. */
  lemma RenderInjective(a: Comment, b: Comment)
    requires Render(a) == Render(b)
    ensures IsBlock(a) == IsBlock(b) && a.value == b.value
  {
    var r := Render(a);
    assert r[1] == (if IsBlock(a) then '*' else '/');
    assert r[1] == (if IsBlock(b) then '*' else '/');
    if IsBlock(a) {
      assert a.value == r[2..|r| - 2] == b.value;
    } else {
      assert a.value == r[2..] == b.value;
    }
  }

  /** One call of the hook: the rendered comment if it was extracted, and the
      hook's return value. */
  datatype HookCall = HookCall(extracted: Option<string>, keep: Result<bool>)

  /** The hook: `extract` first, appending the rendered comment when it holds;
      the return value is the `preserve` verdict alone. */
  function Invoke(rt: Runtime, h: Hook, site: CommentSite): (r: HookCall)
    ensures Evaluate(rt, h.extract, site).Threw? ==> r.keep == Evaluate(rt, h.extract, site) && r.extracted.None?
    ensures Evaluate(rt, h.extract, site).Returned? ==> r.keep == Evaluate(rt, h.preserve, site)
    ensures r.extracted.Some? <==> Evaluate(rt, h.extract, site) == Returned(true)
    ensures r.extracted.Some? ==> r.extracted.value == Render(site.comment)
  {
    match Evaluate(rt, h.extract, site)
    case Threw(e) => HookCall(None, Threw(e))
    case Returned(x) => HookCall(if x then Some(Render(site.comment)) else None, Evaluate(rt, h.preserve, site))
  }

  /** The outcome of running the hook over a stream of comments. */
  datatype HookRun = HookRun(keeps: seq<bool>, extracted: seq<string>, error: Option<JsError>)

  /** The hook's calls, one per comment the engine offers, in order. */
  function Calls(rt: Runtime, h: Hook, sites: seq<CommentSite>): (r: seq<HookCall>)
    ensures |r| == |sites|
    ensures forall i :: 0 <= i < |sites| ==> r[i] == Invoke(rt, h, sites[i])
  {
    seq(|sites|, i requires 0 <= i < |sites| => Invoke(rt, h, sites[i]))
  }

  /** The effect of a sequence of hook calls, stopping at the first one that
      throws: the verdicts returned and the entries appended. */
  function Collect(calls: seq<HookCall>): (r: HookRun)
    ensures |r.keeps| <= |calls| && |r.extracted| <= |calls|
    ensures r.error.None? ==> |r.keeps| == |calls|
    ensures r.error.Some? ==> |r.keeps| < |calls|
  {
    if |calls| == 0 then HookRun([], [], None)
    else if calls[0].keep.Threw? then HookRun([], OptionToSeq(calls[0].extracted), Some(calls[0].keep.error))
    else
      var rest := Collect(calls[1..]);
      HookRun([calls[0].keep.value] + rest.keeps, OptionToSeq(calls[0].extracted) + rest.extracted, rest.error)
  }

  /** Collecting keeps call order: two runs one after the other are one run
      over the concatenated calls. */
  lemma {:induction false} CollectConcat(a: seq<HookCall>, b: seq<HookCall>)
    requires Collect(a).error.None?
    ensures Collect(a + b)
            == HookRun(Collect(a).keeps + Collect(b).keeps, Collect(a).extracted + Collect(b).extracted, Collect(b).error)
  {
    if |a| == 0 {
      assert a + b == b;
    } else {
      assert (a + b)[0] == a[0];
      assert (a + b)[1..] == a[1..] + b;
      assert a[0].keep.Returned?;
      CollectConcat(a[1..], b);
      var head := OptionToSeq(a[0].extracted);
      var rest := Collect(a[1..]);
      var tail := Collect(b);
      assert Collect(a) == HookRun([a[0].keep.value] + rest.keeps, head + rest.extracted, rest.error);
      assert Collect(a + b) == HookRun([a[0].keep.value] + Collect(a[1..] + b).keeps, head + Collect(a[1..] + b).extracted, tail.error);
      assert [a[0].keep.value] + (rest.keeps + tail.keeps) == ([a[0].keep.value] + rest.keeps) + tail.keeps;
      assert head + (rest.extracted + tail.extracted) == (head + rest.extracted) + tail.extracted;
    }
  }

  /** Each collected verdict is what its call returned; a run that stops
      stops at a call that threw. */
  lemma {:induction false} CollectVerdicts(calls: seq<HookCall>)
    ensures forall i :: 0 <= i < |Collect(calls).keeps| ==> calls[i].keep == Returned(Collect(calls).keeps[i])
    ensures Collect(calls).error.Some? ==> calls[|Collect(calls).keeps|].keep == Threw(Collect(calls).error.value)
  {
    if |calls| > 0 && calls[0].keep.Returned? {
      CollectVerdicts(calls[1..]);
    }
  }

  /** Every collected entry is the entry of one of the calls. */
  lemma {:induction false} CollectExtractedFrom(calls: seq<HookCall>)
    ensures forall j :: 0 <= j < |Collect(calls).extracted| ==>
              exists i :: 0 <= i < |calls| && calls[i].extracted == Some(Collect(calls).extracted[j])
  {
    if |calls| > 0 {
      var head := OptionToSeq(calls[0].extracted);
      var ex := Collect(calls).extracted;
      if calls[0].keep.Returned? {
        CollectExtractedFrom(calls[1..]);
        var rest := Collect(calls[1..]).extracted;
        assert ex == head + rest;
        forall j | 0 <= j < |ex|
          ensures exists i :: 0 <= i < |calls| && calls[i].extracted == Some(ex[j])
        {
          if j < |head| {
            assert calls[0].extracted == Some(ex[j]);
          } else {
            var i :| 0 <= i < |calls[1..]| && calls[1..][i].extracted == Some(rest[j - |head|]);
            assert calls[i + 1].extracted == Some(ex[j]);
          }
        }
        assert forall j :: 0 <= j < |Collect(calls).extracted| ==>
              exists i :: 0 <= i < |calls| && calls[i].extracted == Some(Collect(calls).extracted[j]);
      } else {
        assert ex == head;
        forall j | 0 <= j < |ex|
          ensures exists i :: 0 <= i < |calls| && calls[i].extracted == Some(ex[j])
        {
          assert calls[0].extracted == Some(ex[j]);
        }
        assert forall j :: 0 <= j < |Collect(calls).extracted| ==>
              exists i :: 0 <= i < |calls| && calls[i].extracted == Some(Collect(calls).extracted[j]);
      }
    } else {
      assert |Collect(calls).extracted| == 0;
    }
  }

  /** The hook run over the comments the engine offers. */
  function RunHook(rt: Runtime, h: Hook, sites: seq<CommentSite>): (r: HookRun)
    ensures r.error.None? ==> |r.keeps| == |sites|
    ensures r.error.Some? ==> |r.keeps| < |sites|
  {
    Collect(Calls(rt, h, sites))
  }

  /** The hook's return values are the `preserve` verdicts alone, one per
      comment; a run that stops does so at a comment whose call threw. */
  lemma RunHookVerdicts(rt: Runtime, h: Hook, sites: seq<CommentSite>)
    ensures forall i :: 0 <= i < |RunHook(rt, h, sites).keeps| ==>
              Evaluate(rt, h.preserve, sites[i]) == Returned(RunHook(rt, h, sites).keeps[i])
    ensures RunHook(rt, h, sites).error.Some? ==>
              Invoke(rt, h, sites[|RunHook(rt, h, sites).keeps|]).keep == Threw(RunHook(rt, h, sites).error.value)
  {
    CollectVerdicts(Calls(rt, h, sites));
  }

  /** The hook keeps call order: running it over two streams one after the
      other is running it over their concatenation. */
  lemma RunHookConcat(rt: Runtime, h: Hook, a: seq<CommentSite>, b: seq<CommentSite>)
    requires RunHook(rt, h, a).error.None?
    ensures RunHook(rt, h, a + b)
            == HookRun(RunHook(rt, h, a).keeps + RunHook(rt, h, b).keeps,
                       RunHook(rt, h, a).extracted + RunHook(rt, h, b).extracted,
                       RunHook(rt, h, b).error)
  {
    assert Calls(rt, h, a + b) == Calls(rt, h, a) + Calls(rt, h, b);
    CollectConcat(Calls(rt, h, a), Calls(rt, h, b));
  }

  /** `entry` is the rendering of one of the offered comments that the
      `extract` condition accepted. */
  predicate ExtractedFrom(rt: Runtime, h: Hook, sites: seq<CommentSite>, entry: string) {
    exists i :: 0 <= i < |sites| && Evaluate(rt, h.extract, sites[i]) == Returned(true)
                && entry == Render(sites[i].comment)
  }

  /** Every extracted entry is the rendering of an offered comment that the
      `extract` condition accepted. */
  lemma RunHookExtracts(rt: Runtime, h: Hook, sites: seq<CommentSite>)
    ensures forall j :: 0 <= j < |RunHook(rt, h, sites).extracted| ==>
              ExtractedFrom(rt, h, sites, RunHook(rt, h, sites).extracted[j])
  {
    var calls := Calls(rt, h, sites);
    CollectExtractedFrom(calls);
    forall j | 0 <= j < |RunHook(rt, h, sites).extracted|
      ensures ExtractedFrom(rt, h, sites, RunHook(rt, h, sites).extracted[j])
    {
      var entry := RunHook(rt, h, sites).extracted[j];
      var i :| 0 <= i < |calls| && calls[i].extracted == Some(entry);
      assert calls[i] == Invoke(rt, h, sites[i]);
      assert Evaluate(rt, h.extract, sites[i]) == Returned(true) && entry == Render(sites[i].comment);
    }
  }

  /** The renderings of the offered comments that `extract` accepts, in the
      order they are offered. */
  function Accepted(rt: Runtime, h: Hook, sites: seq<CommentSite>): (r: seq<string>)
    ensures |r| <= |sites|
  {
    if |sites| == 0 then []
    else
      (if Evaluate(rt, h.extract, sites[0]) == Returned(true) then [Render(sites[0].comment)] else [])
      + Accepted(rt, h, sites[1..])
  }

  /** The hook extracts every accepted comment, once each and in order: all
      of them when no call throws, and up to and including the comment whose
      call threw otherwise (its `extract` ran before `preserve` threw). */
  lemma {:induction false} RunHookExtractsAll(rt: Runtime, h: Hook, sites: seq<CommentSite>)
    ensures var run := RunHook(rt, h, sites);
            && (run.error.None? ==> run.extracted == Accepted(rt, h, sites))
            && (run.error.Some? ==> run.extracted == Accepted(rt, h, sites[..|run.keeps| + 1]))
  {
    if |sites| > 0 {
      var calls := Calls(rt, h, sites);
      var c := Invoke(rt, h, sites[0]);
      var tail := sites[1..];
      assert calls[0] == c;
      assert calls[1..] == Calls(rt, h, tail);
      var head := if Evaluate(rt, h.extract, sites[0]) == Returned(true) then [Render(sites[0].comment)] else [];
      assert OptionToSeq(c.extracted) == head;
      var run := RunHook(rt, h, sites);
      if c.keep.Threw? {
        assert run == HookRun([], head, Some(c.keep.error));
        assert sites[..1][1..] == [];
        assert Accepted(rt, h, sites[..1]) == head + Accepted(rt, h, []);
      } else {
        RunHookExtractsAll(rt, h, tail);
        var rest := RunHook(rt, h, tail);
        assert run == HookRun([c.keep.value] + rest.keeps, head + rest.extracted, rest.error);
        assert Accepted(rt, h, sites) == head + Accepted(rt, h, tail);
        if rest.error.Some? {
          var n := |run.keeps| + 1;
          assert sites[..n][1..] == tail[..|rest.keeps| + 1];
          assert Accepted(rt, h, sites[..n]) == head + Accepted(rt, h, sites[..n][1..]);
        }
      }
    }
  }

  /** Under the function shape and the fallback shape the hook keeps no
      comment in the output. */
  lemma NothingKeptWithoutPreserve(rt: Runtime, e: ExtractComments, commentsOpts: Value, sites: seq<CommentSite>)
    requires e.ExtractFunction? || (e.ExtractObject? && e.condition.None?)
    ensures forall i :: 0 <= i < |RunHook(rt, BuildComments(e, commentsOpts), sites).keeps| ==>
              !RunHook(rt, BuildComments(e, commentsOpts), sites).keeps[i]
  {
    RunHookVerdicts(rt, BuildComments(e, commentsOpts), sites);
  }
}
