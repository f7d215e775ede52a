/**
 * The template marker injector of the render pipeline (`applyMetaData` and
 * `applyRendererMetaData` in `SsrResponseHandler`): fixed markers in the rendered HTML
 * are replaced, all occurrences at once, by the environment script, the vue-meta
 * fragments and, in development, the renderer's script and state tags.
 * Replacement strings are taken literally (`$` patterns of JavaScript are not modelled).
 */
module MetaInjector {
  import opened Common
  import opened Text
  import opened Environment

  const HeadOutlet := "<!--vue-head-outlet-->"
  const RendererHeadOutlet := "<!--vue-renderer-head-outlet-->"
  const PbodyOutlet := "<!--vue-pbody-outlet-->"
  const BodyOutlet := "<!--vue-body-outlet-->"
  const HtmlAttrMarker := "data-vue-template-html"
  const HeadAttrMarker := "data-vue-template-head"
  const BodyAttrMarker := "data-vue-template-body"
  const NewLine := "\r\n"

  /**
   * The texts vue-meta's `inject()` yields: `text()` of each group, and the
   * `text({pbody: true})` / `text({body: true})` variants of the style, script and
   * noscript groups.
   */
  datatype MetaInjection = MetaInjection(
    title: string, htmlAttrs: string, headAttrs: string, bodyAttrs: string, link: string,
    style: string, script: string, noscript: string, meta: string,
    stylePbody: string, scriptPbody: string, noscriptPbody: string,
    styleBody: string, scriptBody: string, noscriptBody: string)

  /** The context's `afterRendering` entry: not a function, the default no-op, or a user hook that resolves (`rejection == None`) or rejects with an error. */
  datatype AfterRenderingHook = NotAFunction | NoOpHook | UserHook(rejection: Option<string>)

  /**
   * The render context. `meta` is absent when the context has no `meta` field;
   * `renderScripts`/`renderState` hold what those callbacks return and are absent when
   * the entry is not a function.
   */
  datatype VueContext = VueContext(
    url: string, env: Env, meta: Option<MetaInjection>,
    renderScripts: Option<string>, renderState: Option<string>,
    afterRendering: AfterRenderingHook)

  /** The inline script that publishes the environment map, given its JSON text. */
  function EnvScript(json: string): string
  {
    "<script type='text/javascript'>window.VUE_ENV = " + json + ";</script>"
  }

  /** What the head outlet finally becomes when vue-meta data is present. */
  function HeadBlock(m: MetaInjection): string
  {
    m.meta + NewLine + m.title + NewLine + m.link + NewLine + m.style + NewLine + m.script + NewLine + m.noscript
  }

  /** The last three vue-meta substitutions: body attributes, pre-body and body outlets. */
  function BodyPlaceholders(m: MetaInjection, s: string): string
  {
    var withBodyAttrs := ReplaceAll(s, BodyAttrMarker, m.bodyAttrs);
    var withPbody := ReplaceAll(withBodyAttrs, PbodyOutlet, m.stylePbody + NewLine + m.scriptPbody + m.noscriptPbody);
    ReplaceAll(withPbody, BodyOutlet, m.styleBody + NewLine + m.scriptBody + m.noscriptBody)
  }

  /** What follows the head outlet once the environment script is inserted. */
  function EnvSuffix(json: string): string
  {
    NewLine + EnvScript(json)
  }

  /** The vue-meta substitutions of `applyMetaData`, in the source's order. */
  function MetaPlaceholders(m: MetaInjection, s: string): string
  {
    var withHtmlAttrs := ReplaceAll(s, HtmlAttrMarker, "data-vue-meta-server-rendered " + m.htmlAttrs);
    var withHeadAttrs := ReplaceAll(withHtmlAttrs, HeadAttrMarker, m.headAttrs);
    var withHead := ReplaceAll(withHeadAttrs, HeadOutlet, HeadBlock(m));
    BodyPlaceholders(m, withHead)
  }

  /**
   * `applyMetaData`: the head outlet is re-inserted followed by the environment script;
   * without vue-meta data that is all; otherwise the vue-meta markers are replaced.
   * `stringify` stands for `JSON.stringify`.
   */
  function ApplyMetaData(ctx: VueContext, chunk: string, stringify: Env -> string): string
  {
    var withEnv := ReplaceAll(chunk, HeadOutlet, HeadOutlet + EnvSuffix(stringify(ctx.env)));
    if ctx.meta.None? then withEnv else MetaPlaceholders(ctx.meta.value, withEnv)
  }

  /** What the renderer head outlet becomes: nothing in production, else the callbacks' output, each followed by a space. */
  function RendererHeadText(isDev: bool, ctx: VueContext): string
  {
    if !isDev then ""
    else
      (if ctx.renderScripts.Some? then ctx.renderScripts.value + " " else "")
      + (if ctx.renderState.Some? then ctx.renderState.value + " " else "")
  }

  /** `applyRendererMetaData`. */
  function ApplyRendererMetaData(isDev: bool, ctx: VueContext, chunk: string): string
  {
    ReplaceAll(chunk, RendererHeadOutlet, RendererHeadText(isDev, ctx))
  }

  /** A rendered page as the handler writes it: meta data first, renderer data second. */
  function RenderedPage(isDev: bool, ctx: VueContext, html: string, stringify: Env -> string): string
  {
    ApplyRendererMetaData(isDev, ctx, ApplyMetaData(ctx, html, stringify))
  }

  /** None of the markers `applyMetaData` looks for occurs in `s`. */
  predicate NoMetaMarkers(s: string)
  {
    && !Occurs(s, HeadOutlet) && !Occurs(s, HtmlAttrMarker) && !Occurs(s, HeadAttrMarker)
    && !Occurs(s, BodyAttrMarker) && !Occurs(s, PbodyOutlet) && !Occurs(s, BodyOutlet)
  }

  /** Text that carries no marker passes through `applyMetaData` unchanged, with or without vue-meta data. */
  lemma ApplyMetaDataWithoutMarkers(ctx: VueContext, chunk: string, stringify: Env -> string)
    requires NoMetaMarkers(chunk)
    ensures ApplyMetaData(ctx, chunk, stringify) == chunk
  {
    var json := stringify(ctx.env);
    ReplaceAllWithoutMatch(chunk, HeadOutlet, HeadOutlet + EnvSuffix(json));
    if ctx.meta.Some? {
      var m := ctx.meta.value;
      ReplaceAllWithoutMatch(chunk, HtmlAttrMarker, "data-vue-meta-server-rendered " + m.htmlAttrs);
      ReplaceAllWithoutMatch(chunk, HeadAttrMarker, m.headAttrs);
      ReplaceAllWithoutMatch(chunk, HeadOutlet, HeadBlock(m));
      ReplaceAllWithoutMatch(chunk, BodyAttrMarker, m.bodyAttrs);
      ReplaceAllWithoutMatch(chunk, PbodyOutlet, m.stylePbody + NewLine + m.scriptPbody + m.noscriptPbody);
      ReplaceAllWithoutMatch(chunk, BodyOutlet, m.styleBody + NewLine + m.scriptBody + m.noscriptBody);
    }
  }

  /**
   * Without vue-meta data the head outlet stays and is followed by the environment
   * script: each outlet grows the text by exactly that script and a line break.
   */
  lemma EnvScriptFollowsHeadOutlet(ctx: VueContext, chunk: string, stringify: Env -> string)
    requires ctx.meta.None?
    ensures var out := ApplyMetaData(ctx, chunk, stringify);
            && |out| == |chunk| + MatchCount(chunk, HeadOutlet) * |EnvSuffix(stringify(ctx.env))|
            && (Occurs(chunk, HeadOutlet) ==> Occurs(out, HeadOutlet + EnvSuffix(stringify(ctx.env))))
            && (!Occurs(chunk, HeadOutlet) ==> out == chunk)
  {
    var q := EnvSuffix(stringify(ctx.env));
    ReplaceAllLength(chunk, HeadOutlet, HeadOutlet + q);
    assert |HeadOutlet + q| - |HeadOutlet| == |q|;
    if Occurs(chunk, HeadOutlet) {
      ReplacementAppears(chunk, HeadOutlet, HeadOutlet + q);
    } else {
      ReplaceAllWithoutMatch(chunk, HeadOutlet, HeadOutlet + q);
    }
  }

  /**
   * Without vue-meta data the first head outlet of a chunk stays in place and is followed
   * by a line break and the environment script; the text before it is kept and the text
   * after it is processed on its own.
   */
  lemma EnvScriptAtOutlet(ctx: VueContext, before: string, after: string, stringify: Env -> string)
    requires ctx.meta.None? && !Occurs(before, HeadOutlet)
    ensures ApplyMetaData(ctx, before + HeadOutlet + after, stringify)
         == before + HeadOutlet + NewLine + EnvScript(stringify(ctx.env)) + ApplyMetaData(ctx, after, stringify)
  {
    HeadOutletShape();
    ReplaceAllAtFirstMatch(before, after, HeadOutlet, HeadOutlet + EnvSuffix(stringify(ctx.env)));
  }

  lemma HeadOutletShape()
    ensures FirstCharUnique(HeadOutlet) && LastCharUnique(HeadOutlet)
    ensures HeadOutlet[0] == '<' && HeadOutlet[|HeadOutlet| - 1] == '>'
  {
  }

  lemma AttrMarkersShape()
    ensures Lacks(HtmlAttrMarker, '<') && Lacks(HtmlAttrMarker, '>')
    ensures Lacks(HeadAttrMarker, '<') && Lacks(HeadAttrMarker, '>')
  {
  }

  lemma HeadOutletLacksAttrMarkers()
    ensures !Occurs(HeadOutlet, HtmlAttrMarker) && !Occurs(HeadOutlet, HeadAttrMarker)
  {
    ShortTextLacksPattern(HeadOutlet, HtmlAttrMarker);
    ShortTextLacksPattern(HeadOutlet, HeadAttrMarker);
  }

  /**
   * With vue-meta data, the head outlet is first re-inserted with the environment script
   * and then consumed: for a chunk without attribute markers the outcome is the same as
   * replacing each outlet once by the meta block followed by the environment script.
   * The environment script must not itself spell a marker.
   */
  lemma HeadOutletReinsertedThenConsumed(ctx: VueContext, chunk: string, stringify: Env -> string)
    requires ctx.meta.Some?
    requires !Occurs(chunk, HtmlAttrMarker) && !Occurs(chunk, HeadAttrMarker)
    requires var q := EnvSuffix(stringify(ctx.env));
             !Occurs(q, HeadOutlet) && !Occurs(q, HtmlAttrMarker) && !Occurs(q, HeadAttrMarker)
    ensures ApplyMetaData(ctx, chunk, stringify)
         == BodyPlaceholders(ctx.meta.value,
              ReplaceAll(chunk, HeadOutlet, HeadBlock(ctx.meta.value) + EnvSuffix(stringify(ctx.env))))
  {
    var m := ctx.meta.value;
    var json := stringify(ctx.env);
    var q := EnvSuffix(json);
    EnvScriptEndsTag(json);
    var withEnv := ReplaceAll(chunk, HeadOutlet, HeadOutlet + q);
    WithEnvLacksAttrMarkers(chunk, q);
    var s1 := ReplaceAll(withEnv, HtmlAttrMarker, "data-vue-meta-server-rendered " + m.htmlAttrs);
    ReplaceAllWithoutMatch(withEnv, HtmlAttrMarker, "data-vue-meta-server-rendered " + m.htmlAttrs);
    assert s1 == withEnv;
    var s2 := ReplaceAll(s1, HeadAttrMarker, m.headAttrs);
    ReplaceAllWithoutMatch(withEnv, HeadAttrMarker, m.headAttrs);
    assert s2 == withEnv;
    var s3 := ReplaceAll(s2, HeadOutlet, HeadBlock(m));
    HeadOutletShape();
    ReinsertThenConsume(chunk, HeadOutlet, q, HeadBlock(m));
    assert s3 == ReplaceAll(chunk, HeadOutlet, HeadBlock(m) + q);
    assert ApplyMetaData(ctx, chunk, stringify) == BodyPlaceholders(m, s3);
  }

  lemma EnvScriptEndsTag(json: string)
    ensures var q := EnvSuffix(json); |q| > 0 && q[|q| - 1] == '>'
  {
  }

  /** The first pass of `applyMetaData` adds no attribute marker. */
  lemma WithEnvLacksAttrMarkers(chunk: string, q: string)
    requires |q| > 0 && q[|q| - 1] == '>'
    requires !Occurs(chunk, HtmlAttrMarker) && !Occurs(chunk, HeadAttrMarker)
    requires !Occurs(q, HtmlAttrMarker) && !Occurs(q, HeadAttrMarker)
    ensures !Occurs(ReplaceAll(chunk, HeadOutlet, HeadOutlet + q), HtmlAttrMarker)
    ensures !Occurs(ReplaceAll(chunk, HeadOutlet, HeadOutlet + q), HeadAttrMarker)
  {
    HeadOutletShape();
    AttrMarkersShape();
    HeadOutletLacksAttrMarkers();
    ReinsertIntroducesNothing(chunk, HeadOutlet, q, HtmlAttrMarker);
    ReinsertIntroducesNothing(chunk, HeadOutlet, q, HeadAttrMarker);
  }

  /**
   * In production every renderer head outlet is deleted: the text shrinks by one marker
   * per outlet, and text without the outlet is unchanged.
   */
  lemma ProductionDeletesRendererHead(ctx: VueContext, chunk: string)
    ensures var out := ApplyRendererMetaData(false, ctx, chunk);
            && |out| == |chunk| - MatchCount(chunk, RendererHeadOutlet) * |RendererHeadOutlet|
            && (!Occurs(chunk, RendererHeadOutlet) ==> out == chunk)
  {
    ReplaceAllLength(chunk, RendererHeadOutlet, "");
    if !Occurs(chunk, RendererHeadOutlet) {
      ReplaceAllWithoutMatch(chunk, RendererHeadOutlet, "");
    }
  }

  lemma RendererHeadOutletShape()
    ensures FirstCharUnique(RendererHeadOutlet)
  {
  }

  /**
   * In production the first renderer head outlet of a chunk is cut out: the text before
   * it is kept and the text after it is processed on its own.
   */
  lemma ProductionDeletesAtOutlet(ctx: VueContext, before: string, after: string)
    requires !Occurs(before, RendererHeadOutlet)
    ensures ApplyRendererMetaData(false, ctx, before + RendererHeadOutlet + after)
         == before + ApplyRendererMetaData(false, ctx, after)
  {
    RendererHeadOutletShape();
    ReplaceAllAtFirstMatch(before, after, RendererHeadOutlet, "");
  }

  /**
   * In development the first renderer head outlet of a chunk is replaced by the output of
   * each callback that exists, scripts before state, each followed by a space (a missing
   * callback contributes nothing); the text before the outlet is kept and the text after
   * it is processed on its own.
   */
  lemma DevelopmentInjectsAtOutlet(ctx: VueContext, before: string, after: string)
    requires !Occurs(before, RendererHeadOutlet)
    ensures ApplyRendererMetaData(true, ctx, before + RendererHeadOutlet + after)
         == before
            + (if ctx.renderScripts.Some? then ctx.renderScripts.value + " " else "")
            + (if ctx.renderState.Some? then ctx.renderState.value + " " else "")
            + ApplyRendererMetaData(true, ctx, after)
  {
    RendererHeadOutletShape();
    ReplaceAllAtFirstMatch(before, after, RendererHeadOutlet, RendererHeadText(true, ctx));
  }

  /**
   * In development every renderer head outlet gives way to the callbacks' output: the
   * text changes in length by that difference per outlet, and text without the outlet
   * is unchanged.
   */
  lemma DevelopmentReplacesEachOutlet(ctx: VueContext, chunk: string)
    ensures var out := ApplyRendererMetaData(true, ctx, chunk);
            && |out| == |chunk| + MatchCount(chunk, RendererHeadOutlet) * (|RendererHeadText(true, ctx)| - |RendererHeadOutlet|)
            && (!Occurs(chunk, RendererHeadOutlet) ==> out == chunk)
  {
    ReplaceAllLength(chunk, RendererHeadOutlet, RendererHeadText(true, ctx));
    if !Occurs(chunk, RendererHeadOutlet) {
      ReplaceAllWithoutMatch(chunk, RendererHeadOutlet, RendererHeadText(true, ctx));
    }
  }

  /** A page whose rendered HTML has no marker is written exactly as rendered. */
  lemma PageWithoutMarkersIsUnchanged(isDev: bool, ctx: VueContext, html: string, stringify: Env -> string)
    requires NoMetaMarkers(html) && !Occurs(html, RendererHeadOutlet)
    ensures RenderedPage(isDev, ctx, html, stringify) == html
  {
    ApplyMetaDataWithoutMarkers(ctx, html, stringify);
    ReplaceAllWithoutMatch(html, RendererHeadOutlet, RendererHeadText(isDev, ctx));
  }
}
