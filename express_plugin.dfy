/**
 * The legacy streaming plugin (`expressSsrPlugin`): it normalises its options, builds
 * the renderer once in production or installs the update closure otherwise, computes
 * the environment map once, and serves every request by streaming the rendered page
 * chunk by chunk through the marker injector and the stream wrapper.
 *
 * Its mode for rendering (`isDevMode`, from `NODE_ENV`) is independent of the express
 * context's `isProd`, which chooses between building once and the update closure.
 */
module LegacySsrPlugin {
  import opened Common
  import opened Text
  import opened Environment
  import opened MetaInjector
  import opened RendererLifecycle
  import opened Http

  /** The stream wrapper: called on every processed chunk with the render context. */
  type StreamWrapper = (string, VueContext) -> string

  /**
   * The options argument as given: not a plain object at all, or an object whose
   * entries are `None` when missing or of the wrong kind.
   */
  datatype RawOptions =
    | NotPlainObject
    | PlainOptions(envVars: Option<seq<string>>, additionalEnvVars: Option<map<string, EnvValue>>,
                   vueContextFilter: Option<VueContext -> VueContext>, streamWrapper: Option<StreamWrapper>)

  /** The options after defaulting: the stream wrapper is always a function. */
  datatype LegacyOptions = LegacyOptions(
    envVars: Option<seq<string>>, additionalEnvVars: Option<map<string, EnvValue>>,
    vueContextFilter: Option<VueContext -> VueContext>, streamWrapper: StreamWrapper)

  function IdentityWrapper(): StreamWrapper
  {
    (c: string, ctx: VueContext) => c
  }

  /** Options that are not a plain object become `{}`; a missing stream wrapper becomes the identity. */
  function NormalizeOptions(raw: RawOptions): LegacyOptions
  {
    match raw
    case NotPlainObject => LegacyOptions(None, None, None, IdentityWrapper())
    case PlainOptions(envVars, additional, filter, wrapper) =>
      LegacyOptions(envVars, additional, filter, if wrapper.Some? then wrapper.value else IdentityWrapper())
  }

  /**
   * Without a stream wrapper of its own, the normalised options pass every chunk through
   * untouched; a given wrapper is kept; nothing else of a plain object changes.
   */
  lemma NormalizeOptionsDefaults(raw: RawOptions, chunk: string, ctx: VueContext)
    ensures var o := NormalizeOptions(raw);
            && (raw.NotPlainObject? ==> o.envVars.None? && o.additionalEnvVars.None? && o.vueContextFilter.None?)
            && (raw.PlainOptions? ==>
                  o.envVars == raw.envVars && o.additionalEnvVars == raw.additionalEnvVars
                  && o.vueContextFilter == raw.vueContextFilter)
            && (raw.PlainOptions? && raw.streamWrapper.Some? ==> o.streamWrapper == raw.streamWrapper.value)
            && (raw.NotPlainObject? || raw.streamWrapper.None? ==> o.streamWrapper(chunk, ctx) == chunk)
  {
  }

  /** An express context, kept opaque. */
  datatype ExpressContextRef = ExpressContextRef(id: nat)

  /** What `expressSsrPlugin` is applied to: an express context and the options. */
  datatype Invocation = Invocation(context: ExpressContextRef, options: RawOptions)

  /** `configure(options)`: a function that applies the plugin to its context argument with these options. */
  function Configure(options: RawOptions): (apply: ExpressContextRef -> Invocation)
  {
    context => Invocation(context, options)
  }

  /**
   * The legacy renderer head text: nothing in production, otherwise the two callbacks'
   * output joined by a space. Both are called unconditionally, so a missing callback
   * throws (`None`).
   */
  function LegacyRendererHeadText(isDevMode: bool, ctx: VueContext): Option<string>
  {
    if !isDevMode then Some("")
    else if ctx.renderScripts.Some? && ctx.renderState.Some? then Some(ctx.renderScripts.value + " " + ctx.renderState.value)
    else None
  }

  /**
   * The legacy `applyRendererMetaData`. The head text is computed once per outlet, so it
   * throws only when the chunk holds an outlet.
   */
  function LegacyApplyRendererMetaData(isDevMode: bool, ctx: VueContext, chunk: string): Option<string>
  {
    var text := LegacyRendererHeadText(isDevMode, ctx);
    if text.None? && Occurs(chunk, RendererHeadOutlet) then None
    else Some(ReplaceAll(chunk, RendererHeadOutlet, if text.Some? then text.value else ""))
  }

  /**
   * The legacy injector fails exactly when a development chunk holds the outlet and a
   * callback is missing; in production it agrees with the class-based injector, and in
   * development its result is one character shorter per outlet (where the space goes is
   * stated by `LegacyDevelopmentInjectsAtOutlet`).
   */
  lemma LegacyRendererMetaDataComparison(isDevMode: bool, ctx: VueContext, chunk: string)
    ensures LegacyApplyRendererMetaData(isDevMode, ctx, chunk).None? <==>
              isDevMode && Occurs(chunk, RendererHeadOutlet) && (ctx.renderScripts.None? || ctx.renderState.None?)
    ensures !isDevMode ==> LegacyApplyRendererMetaData(isDevMode, ctx, chunk) == Some(ApplyRendererMetaData(false, ctx, chunk))
    ensures isDevMode && ctx.renderScripts.Some? && ctx.renderState.Some? ==>
              LegacyApplyRendererMetaData(isDevMode, ctx, chunk).Some?
              && |ApplyRendererMetaData(true, ctx, chunk)|
                 == |LegacyApplyRendererMetaData(isDevMode, ctx, chunk).value| + MatchCount(chunk, RendererHeadOutlet)
  {
    if isDevMode && ctx.renderScripts.Some? && ctx.renderState.Some? {
      var legacy := ctx.renderScripts.value + " " + ctx.renderState.value;
      assert RendererHeadText(true, ctx) == legacy + " ";
      ReplaceAllLength(chunk, RendererHeadOutlet, legacy);
      ReplaceAllLength(chunk, RendererHeadOutlet, legacy + " ");
    }
  }

  /**
   * In development, with both callbacks present, the legacy injector replaces the first
   * outlet by the scripts, a space and the state; the class-based injector puts one more
   * space after the state. The text before the outlet is kept and the rest is processed
   * on its own by each.
   */
  lemma LegacyDevelopmentInjectsAtOutlet(ctx: VueContext, before: string, after: string)
    requires ctx.renderScripts.Some? && ctx.renderState.Some?
    requires !Occurs(before, RendererHeadOutlet)
    ensures var t := ctx.renderScripts.value + " " + ctx.renderState.value;
            && LegacyApplyRendererMetaData(true, ctx, after).Some?
            && LegacyApplyRendererMetaData(true, ctx, before + RendererHeadOutlet + after)
               == Some(before + t + LegacyApplyRendererMetaData(true, ctx, after).value)
            && ApplyRendererMetaData(true, ctx, before + RendererHeadOutlet + after)
               == before + t + " " + ApplyRendererMetaData(true, ctx, after)
  {
    var t := ctx.renderScripts.value + " " + ctx.renderState.value;
    assert RendererHeadText(true, ctx) == t + " ";
    RendererHeadOutletShape();
    ReplaceAllAtFirstMatch(before, after, RendererHeadOutlet, t);
    ReplaceAllAtFirstMatch(before, after, RendererHeadOutlet, t + " ");
  }

  /** One stream chunk as written: meta data, renderer data, then the stream wrapper; `None` when the injector throws. */
  function ProcessChunk(isDevMode: bool, wrapper: StreamWrapper, ctx: VueContext, chunk: string,
                        stringify: Env -> string): Option<string>
  {
    var injected := LegacyApplyRendererMetaData(isDevMode, ctx, ApplyMetaData(ctx, chunk, stringify));
    if injected.None? then None else Some(wrapper(injected.value, ctx))
  }

  /**
   * `process` is the processing of one stream's chunks. The trigger keeps the
   * definition of `ProcessChunk` out of proofs that only pass `process` along.
   */
  ghost predicate Processes(process: string -> Option<string>, isDevMode: bool, wrapper: StreamWrapper, ctx: VueContext,
                            stringify: Env -> string)
  {
    forall c {:trigger ProcessChunk(isDevMode, wrapper, ctx, c, stringify)} ::
      process(c) == ProcessChunk(isDevMode, wrapper, ctx, c, stringify)
  }

  /** The processing of one stream's chunks exists as a function of the chunk. */
  lemma ProcessorFor(isDevMode: bool, wrapper: StreamWrapper, ctx: VueContext, stringify: Env -> string)
    returns (process: string -> Option<string>)
    ensures Processes(process, isDevMode, wrapper, ctx, stringify)
  {
    process := c => ProcessChunk(isDevMode, wrapper, ctx, c, stringify);
  }

  /** Each chunk of a stream processed on its own, in order. */
  function ChunkResults(process: string -> Option<string>, chunks: seq<string>): (rs: seq<Option<string>>)
    ensures |rs| == |chunks|
    ensures forall i :: 0 <= i < |chunks| ==> rs[i] == process(chunks[i])
  {
    seq(|chunks|, i requires 0 <= i < |chunks| => process(chunks[i]))
  }

  /** What reaches the response: the processed chunks up to the first one whose processing threw. */
  function Written(rs: seq<Option<string>>): seq<string>
  {
    if rs == [] || rs[0].None? then [] else [rs[0].value] + Written(rs[1..])
  }

  predicate NoneThrew(rs: seq<Option<string>>)
  {
    forall i :: 0 <= i < |rs| ==> rs[i].Some?
  }

  /**
   * Chunks reach the response in order and independently of each other: when no chunk
   * of `xs` threw, every one of them is written, unchanged and in order, before
   * whatever `ys` writes.
   */
  lemma {:induction false} WrittenSplits(xs: seq<Option<string>>, ys: seq<Option<string>>)
    requires NoneThrew(xs)
    ensures Written(xs + ys) == Written(xs) + Written(ys)
    ensures |Written(xs)| == |xs|
    ensures forall i :: 0 <= i < |xs| ==> Written(xs)[i] == xs[i].value
  {
    if xs == [] {
      assert xs + ys == ys;
    } else {
      assert (xs + ys)[0] == xs[0];
      assert (xs + ys)[1..] == xs[1..] + ys;
      assert NoneThrew(xs[1..]) by {
        forall i | 0 <= i < |xs[1..]|
          ensures xs[1..][i].Some?
        {
          assert xs[1..][i] == xs[i + 1];
        }
      }
      WrittenSplits(xs[1..], ys);
      assert xs[0].Some?;
      assert Written(xs) == [xs[0].value] + Written(xs[1..]);
      forall i | 0 <= i < |xs|
        ensures Written(xs)[i] == xs[i].value
      {
        if i > 0 {
          assert Written(xs)[i] == Written(xs[1..])[i - 1];
          assert xs[1..][i - 1] == xs[i];
        }
      }
    }
  }

  /** Writing one more chunk that did not throw extends what was written by that chunk. */
  lemma WrittenStep(rs: seq<Option<string>>, i: nat)
    requires i < |rs| && NoneThrew(rs[..i]) && rs[i].Some?
    ensures NoneThrew(rs[..i + 1])
    ensures Written(rs[..i + 1]) == Written(rs[..i]) + Written([rs[i]])
  {
    assert rs[..i + 1] == rs[..i] + [rs[i]];
    WrittenSplits(rs[..i], [rs[i]]);
  }

  /** Writing stops at the first chunk whose processing throws. */
  lemma WrittenStopsAtThrow(rs: seq<Option<string>>, i: nat)
    requires i < |rs| && NoneThrew(rs[..i]) && rs[i].None?
    ensures Written(rs) == Written(rs[..i])
    ensures !NoneThrew(rs)
  {
    assert rs == rs[..i] + rs[i..];
    WrittenSplits(rs[..i], rs[i..]);
    assert rs[i..][0] == rs[i];
  }

  /** How the render stream finishes. */
  datatype StreamEnding = Ended | Errored(error: string)

  /**
   * `renderToStream` is an external engine: it yields the chunks, the context as the app
   * left it, and how the stream finishes.
   */
  datatype RenderStream = RenderStream(chunks: seq<string>, context: VueContext, ending: StreamEnding)

  /** The legacy request context: the URL and the environment map, no `afterRendering`. */
  function LegacyContext(url: string, env: Env): VueContext
  {
    VueContext(url, env, None, None, None, NotAFunction)
  }

  /** The legacy request context after `vueContextFilter`, when that option is a function. */
  function FilteredLegacyContext(options: LegacyOptions, url: string, env: Env): VueContext
  {
    if options.vueContextFilter.Some? then options.vueContextFilter.value(LegacyContext(url, env)) else LegacyContext(url, env)
  }

  class ExpressSsrPlugin {
    /** `NODE_ENV === "development"`. */
    const isDevMode: bool
    /** The express context's `isProd`. */
    const isProd: bool
    /** The express context the plugin was applied to. */
    const context: ExpressContextRef
    const options: LegacyOptions
    var renderer: Option<Renderer>
    var updaterRegistered: bool
    var routeRegistered: bool
    var template: Option<string>
    var bundle: Option<Json>
    var clientManifest: Option<Json>
    var exitCode: Option<int>
    var environmentVariables: Env
    /**
     * The module-level `preparedMetaData`, `None` for its initial `null`. The model keeps
     * one copy per plugin instead of one shared by every plugin of the module.
     */
    var preparedMetaData: Option<seq<(string, string)>>

    function Slots(): RendererLifecycle.Slots
      reads this
    {
      RendererLifecycle.Slots(template, bundle, clientManifest, renderer, exitCode)
    }

    /** The update closure exists only outside production, and then the renderer matches the stored template and bundle. */
    predicate Valid()
      reads this
    {
      && (updaterRegistered ==> !isProd && Consistent(Slots(), isDevMode))
    }

    /**
     * The synchronous part of `expressSsrPlugin`, applied to a context and the options
     * as given, directly or through `Configure(options)`: option defaulting.
     */
    constructor(inv: Invocation, isDevMode: bool, isProd: bool)
      ensures this.context == inv.context && this.options == NormalizeOptions(inv.options)
      ensures this.isDevMode == isDevMode && this.isProd == isProd
      ensures Slots() == Initial && !updaterRegistered && !routeRegistered
      ensures environmentVariables == map[] && preparedMetaData.None?
      ensures Valid()
    {
      this.context := inv.context;
      this.options := NormalizeOptions(inv.options);
      this.isDevMode := isDevMode;
      this.isProd := isProd;
      renderer := None;
      updaterRegistered := false;
      routeRegistered := false;
      template, bundle, clientManifest, exitCode := None, None, None, None;
      environmentVariables := map[];
      preparedMetaData := None;
    }

    /**
     * The asynchronous part, once the webpack config is known: in production the
     * renderer is built from the artifacts (`None` for a file that cannot be read, which
     * rejects the start-up), otherwise the update closure is installed; then the
     * environment map is computed and the route registered.
     */
    method Start(bundleFile: Option<Json>, manifestFile: Option<Json>, indexFile: Option<string>,
                 processEnv: map<string, string>)
      returns (ok: bool)
      requires Slots() == Initial && !updaterRegistered && !routeRegistered
      modifies this
      ensures ok <==> !isProd || (bundleFile.Some? && manifestFile.Some? && indexFile.Some?)
      ensures isProd && ok ==>
                renderer == Some(CreateRenderer(bundleFile.value, indexFile.value, manifestFile, isDevMode))
      ensures !(isProd && ok) ==> renderer.None?
      ensures updaterRegistered <==> !isProd
      ensures routeRegistered == ok
      ensures ok ==> ResolvedEnv(environmentVariables, options.envVars, processEnv, options.additionalEnvVars)
      ensures template.None? && bundle.None? && clientManifest.None? && exitCode.None?
      ensures preparedMetaData == old(preparedMetaData)
      ensures Valid()
    {
      if isProd {
        if bundleFile.None? || manifestFile.None? || indexFile.None? {
          return false;
        }
        renderer := Some(CreateRenderer(bundleFile.value, indexFile.value, manifestFile, isDevMode));
      } else {
        updaterRegistered := true;
      }
      environmentVariables := EnvironmentVariables(options.envVars, processEnv, options.additionalEnvVars);
      routeRegistered := true;
      return true;
    }

    /** One call of the update closure; the renderer is built with the rendering mode `isDevMode`. */
    method RendererUpdate(u: Update)
      requires updaterRegistered && Valid()
      modifies this
      ensures Slots() == Step(old(Slots()), u, isDevMode)
      ensures updaterRegistered && routeRegistered == old(routeRegistered)
      ensures environmentVariables == old(environmentVariables) && preparedMetaData == old(preparedMetaData)
      ensures Valid()
    {
      StepKeepsConsistent(Slots(), u, isDevMode);
      if exitCode.Some? {
        // the process has already ended
        return;
      }
      match u
      case TemplateUpdate(t) =>
        template := Some(t);
        if bundle.Some? {
          renderer := Some(CreateRenderer(bundle.value, t, clientManifest, isDevMode));
        }
      case BundleUpdate(b) =>
        bundle := b;
        if template.Some? {
          if b.None? {
            exitCode := Some(ExitFailure);
          } else {
            renderer := Some(CreateRenderer(b.value, template.value, clientManifest, isDevMode));
          }
        }
      case ManifestUpdate(m) =>
        if m.None? {
          exitCode := Some(ExitFailure);
        } else {
          clientManifest := m;
        }
    }

    /** The compiler's done hook: the manifest first, then the template, each when its file exists. */
    method CompilerDone(manifestText: Option<string>, indexText: Option<string>, parse: string -> Option<Json>)
      requires updaterRegistered && Valid()
      modifies this
      ensures Slots() == Run(old(Slots()), DoneHookUpdates(manifestText, indexText, parse), isDevMode)
      ensures updaterRegistered && routeRegistered == old(routeRegistered)
      ensures environmentVariables == old(environmentVariables) && preparedMetaData == old(preparedMetaData)
      ensures Valid()
    {
      ghost var start := Slots();
      if manifestText.Some? {
        RendererUpdate(ManifestUpdate(parse(manifestText.value)));
      }
      if indexText.Some? {
        RendererUpdate(TemplateUpdate(indexText.value));
      }
      DoneHookSteps(start, manifestText, indexText, parse, isDevMode);
    }

    /** The module-level `applyMetaData`: the shared injector, which also resets `preparedMetaData` when vue-meta data is present. */
    method ApplyMetaDataChunk(ctx: VueContext, chunk: string, stringify: Env -> string) returns (out: string)
      modifies this`preparedMetaData
      ensures out == ApplyMetaData(ctx, chunk, stringify)
      ensures preparedMetaData == if ctx.meta.Some? then Some([]) else old(preparedMetaData)
    {
      if ctx.meta.Some? {
        preparedMetaData := Some([]);
      }
      out := ApplyMetaData(ctx, chunk, stringify);
    }

    /**
     * One `data` event: the chunk is processed and written, unless its processing
     * throws (`threw`), in which case nothing is written.
     */
    method WriteChunk(res: Response, ctx: VueContext, chunk: string, stringify: Env -> string,
                      ghost process: string -> Option<string>)
      returns (threw: bool)
      requires Processes(process, isDevMode, options.streamWrapper, ctx, stringify)
      modifies this`preparedMetaData, res
      ensures (threw <==> process(chunk).None?) && res.chunks == old(res.chunks) + Written([process(chunk)])
      ensures res.endCount == old(res.endCount) && res.statusCode == old(res.statusCode) && res.headers == old(res.headers)
      ensures preparedMetaData == if ctx.meta.Some? then Some([]) else old(preparedMetaData)
    {
      assert process(chunk) == ProcessChunk(isDevMode, options.streamWrapper, ctx, chunk, stringify);
      var withMeta := ApplyMetaDataChunk(ctx, chunk, stringify);
      var injected := LegacyApplyRendererMetaData(isDevMode, ctx, withMeta);
      if injected.None? {
        return true;
      }
      var out := options.streamWrapper(injected.value, ctx);
      res.Write(out);
      assert Written([Some(out)]) == [out] + Written([]);
      return false;
    }

    /**
     * Writes the stream's chunks in order, each processed on its own by `process`, up to
     * a chunk whose processing throws (`threw`).
     */
    method WriteChunks(res: Response, ctx: VueContext, chunks: seq<string>, stringify: Env -> string,
                       ghost process: string -> Option<string>)
      returns (threw: bool)
      requires Processes(process, isDevMode, options.streamWrapper, ctx, stringify)
      modifies this`preparedMetaData, res
      ensures (threw <==> !NoneThrew(ChunkResults(process, chunks)))
              && res.chunks == old(res.chunks) + Written(ChunkResults(process, chunks))
      ensures res.endCount == old(res.endCount) && res.statusCode == old(res.statusCode) && res.headers == old(res.headers)
      ensures preparedMetaData == if ctx.meta.Some? && |chunks| > 0 then Some([]) else old(preparedMetaData)
    {
      ghost var results := ChunkResults(process, chunks);
      ghost var start := res.chunks;
      var i := 0;
      while i < |chunks|
        invariant 0 <= i <= |chunks|
        invariant NoneThrew(results[..i])
        invariant res.chunks == start + Written(results[..i])
        invariant res.endCount == old(res.endCount) && res.statusCode == old(res.statusCode) && res.headers == old(res.headers)
        invariant preparedMetaData == if ctx.meta.Some? && i > 0 then Some([]) else old(preparedMetaData)
      {
        var stop := WriteChunk(res, ctx, chunks[i], stringify, process);
        if stop {
          WrittenStopsAtThrow(results, i);
          return true;
        }
        WrittenStep(results, i);
        i := i + 1;
      }
      assert results[..i] == results;
      return false;
    }

    /**
     * The catch-all route for `url`: the waiting message without a renderer; otherwise
     * the chunks are written as processed, and the response is ended when the stream
     * ends or answered with 500 when it fails. After a chunk throws nothing more happens.
     */
    method Route(url: string, res: Response, render: (Renderer, VueContext) -> RenderStream, stringify: Env -> string)
      returns (threw: bool, log: seq<string>, ghost process: string -> Option<string>)
      modifies this`preparedMetaData, res
      ensures renderer.None? ==>
                && res.chunks == old(res.chunks) + [WaitingMessage] && res.endCount == old(res.endCount) + 1
                && res.statusCode == old(res.statusCode) && res.headers == old(res.headers)
                && !threw && log == []
      ensures renderer.Some? ==>
                var stream := render(renderer.value, FilteredLegacyContext(options, url, environmentVariables));
                var results := ChunkResults(process, stream.chunks);
                && Processes(process, isDevMode, options.streamWrapper, stream.context, stringify)
                && res.headers == old(res.headers)["Content-Type" := "text/html"]
                && (threw <==> !NoneThrew(results))
                && (threw || stream.ending.Ended? ==>
                      res.chunks == old(res.chunks) + Written(results) && res.statusCode == old(res.statusCode) && log == [])
                && (threw ==> res.endCount == old(res.endCount))
                && (!threw && stream.ending.Ended? ==> res.endCount == old(res.endCount) + 1)
                && (!threw && stream.ending.Errored? ==>
                      res.chunks == old(res.chunks) + Written(results) + [InternalErrorBody]
                      && res.endCount == old(res.endCount) + 1 && res.statusCode == 500
                      && log == ["Error during render : " + url, stream.ending.error])
                && (preparedMetaData == if stream.context.meta.Some? && |stream.chunks| > 0 then Some([]) else old(preparedMetaData))
      ensures Slots() == old(Slots()) && environmentVariables == old(environmentVariables)
      ensures updaterRegistered == old(updaterRegistered) && routeRegistered == old(routeRegistered)
    {
      log := [];
      process := c => None;
      if renderer.None? {
        res.EndWith(WaitingMessage);
        return false, log, process;
      }
      res.SetHeader("Content-Type", "text/html");
      var vueContext := LegacyContext(url, environmentVariables);
      if options.vueContextFilter.Some? {
        vueContext := options.vueContextFilter.value(vueContext);
      }
      var stream := render(renderer.value, vueContext);
      process := ProcessorFor(isDevMode, options.streamWrapper, stream.context, stringify);
      threw := WriteChunks(res, stream.context, stream.chunks, stringify, process);
      if threw {
        return;
      }
      if stream.ending.Ended? {
        res.End();
      } else {
        res.Status(500);
        res.EndWith(InternalErrorBody);
        log := ["Error during render : " + url, stream.ending.error];
      }
    }
  }

  /**
   * `configure(options)(context)`: the plugin applied through the wrapper holds that
   * context and exactly these options, normalised, and starts with nothing registered.
   */
  method ApplyConfigured(options: RawOptions, context: ExpressContextRef, isDevMode: bool, isProd: bool)
    returns (plugin: ExpressSsrPlugin)
    ensures fresh(plugin) && plugin.context == context && plugin.options == NormalizeOptions(options)
    ensures plugin.isDevMode == isDevMode && plugin.isProd == isProd
    ensures plugin.Slots() == Initial && !plugin.updaterRegistered && !plugin.routeRegistered
    ensures plugin.Valid()
  {
    plugin := new ExpressSsrPlugin(Configure(options)(context), isDevMode, isProd);
  }
}
