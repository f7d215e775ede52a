# SSR pipeline of asset-building-env-vuejs, modelled in Dafny

This project models the server-side rendering pipeline of the Vue.js environment for
LABOR.digital's asset-building:

- **The environment resolver.** It builds the public map of environment variables.
  Requested names the process does not define become `null`. `PROJECT_ENV` is included
  when the process defines it. The overrides from `additionalEnvVars` win.
- **The renderer lifecycle.** In development, an update closure keeps the last template,
  server bundle and client manifest. It rebuilds the bundle renderer whenever both a
  template and a bundle are stored, and ends the process on an exception. In production,
  the renderer is built once from the build output.
- **The template marker injector.** It replaces the fixed markers of the index template:
  the environment script after the head outlet, the vue-meta fragments, and the
  renderer's script and state tags in development.
- **The request handlers, in both revisions:**
  - the class-based `SsrPluginHandler`/`SsrResponseHandler`, which renders to a string;
  - the legacy `expressSsrPlugin`, which streams chunk by chunk through a stream wrapper.
- **The Vue.js extension hooks:**
  - the scope guard;
  - the loader filter, which inserts the deep-remover loader and turns the CSS extractor
    into `vue-style-loader`;
  - the SSR start-up hook, which defaults `htmlTemplate`, derives the server-build app
    definition and spawns the server worker under a temporarily changed mode;
  - the filter that forwards the server worker's bundle messages.
- **The environment plugin.** It registers the environment, the ESLint exclude pattern
  and the development loader rewrite.

Modules, leaf first:

- `Common` has `Option` and `Result`.
- `Text` covers literal global replacement and the lemmas about it.
- `Environment`, `MetaInjector` and `RendererLifecycle` are the specifications the
  classes are proved against.
- `Http` is the response object.
- `SsrPlugin` and `SsrResponse` form the class-based revision.
- `LegacySsrPlugin` is the streaming revision.
- `Loaders`, `VueJsExtension` and `VueJsEnvPlugin` cover the build hooks.

Objects whose fields the source updates are classes: the plugin handler, the response,
the loader rule, the worker and parent contexts, and the handler registry. Each method
is proved against a pure function of the old state. For example,
`RendererUpdate` ensures `Slots() == Step(old(Slots()), u, IsDev())`, and the lemmas
about `Step` and `Run` carry the properties.

Behaviour of the code worth noting:

- A renderer exists as soon as a template and a bundle are stored; the client manifest
  is optional (`SsrPluginHandler.ts:138-147`).
- An exception in the development update closure ends the process with
  `process.exit(1)` (`SsrPluginHandler.ts:151-154`).
- Markers are replaced at every occurrence. The head outlet is replaced twice:
  re-inserted with the environment script, then consumed by the meta block
  (`SsrResponseHandler.ts:149-178`).
- The streaming revision never calls `afterRendering`. On a stream error it logs the URL
  and the error unsanitised, in every mode (`expressSsrPlugin.ts:261-266`).
- A rejected `afterRendering` hook is caught like a render failure: the page is already
  written, then status 500 and the error body follow (`SsrResponseHandler.ts:66-88`).

## Model

| member | source | states |
|---|---|---|
| Environment.EnvironmentVariables | src/Ssr/SsrPluginHandler.ts:89-110 | the result has exactly the requested names, `PROJECT_ENV` when the process defines it, and the override keys. Overrides carry their own value; every other key carries the process value or `Null` when unset |
| Environment.ResolvedEnvUnique | src/expressSsrPlugin.ts:218-230 | at most one map satisfies the resolver's specification, so the legacy inline loop and the class getter yield the same map |
| Text.ReplaceAllWithoutMatch | src/Ssr/SsrResponseHandler.ts:155 | a global replace of a marker that does not occur leaves the text unchanged |
| Text.ReplacementAppears | src/Ssr/SsrResponseHandler.ts:155 | when the marker occurs, the replacement text occurs in the result |
| Text.ReplaceAllLength | src/Ssr/SsrResponseHandler.ts:123 | the result's length is the input's length plus, per match, the length difference between replacement and marker |
| Text.MatchCountPositive | src/Ssr/SsrResponseHandler.ts:123 | the number of matches is positive exactly when the marker occurs |
| Text.ReplaceAllConcat | src/expressSsrPlugin.ts:244-252 | when no match straddles the boundary, replacing in a concatenation is replacing in each part |
| Text.ReinsertThenConsume | src/Ssr/SsrResponseHandler.ts:155-171 | re-inserting a marker followed by a suffix and then replacing the marker by r is the same as replacing it once by r followed by the suffix |
| Text.ReplaceAllIntroducesNothing | src/Ssr/SsrResponseHandler.ts:168-169 | a replacement that starts like the marker and does not contain pattern a creates no new occurrence of a |
| Text.ReinsertIntroducesNothing | src/Ssr/SsrResponseHandler.ts:155 | re-inserting the head outlet with the environment script creates no occurrence of a pattern absent from the text, the outlet and the script |
| MetaInjector.ApplyMetaDataWithoutMarkers | src/Ssr/SsrResponseHandler.ts:149-178 | text without any of the six markers passes through `applyMetaData` unchanged, with or without vue-meta data |
| MetaInjector.EnvScriptFollowsHeadOutlet | src/Ssr/SsrResponseHandler.ts:153-160 | without vue-meta data, the text grows by exactly a line break and the environment script per head outlet, outlet and script appear together, and text without an outlet is unchanged |
| MetaInjector.EnvScriptAtOutlet | src/Ssr/SsrResponseHandler.ts:153-160 | without vue-meta data, the first head outlet stays in place and is directly followed by a line break and the environment script; the text before it is kept and the rest is processed on its own |
| MetaInjector.HeadOutletReinsertedThenConsumed | src/Ssr/SsrResponseHandler.ts:155-174 | with vue-meta data and no attribute markers (see Left out), the two head-outlet passes equal replacing each outlet once by the meta block followed by the environment script, then filling the body markers |
| MetaInjector.WithEnvLacksAttrMarkers | src/Ssr/SsrResponseHandler.ts:155-169 | the environment pass adds no attribute marker for the following passes to find |
| MetaInjector.ProductionDeletesRendererHead | src/Ssr/SsrResponseHandler.ts:121-127 | in production the text shrinks by one marker per renderer head outlet and is unchanged without one |
| MetaInjector.ProductionDeletesAtOutlet | src/Ssr/SsrResponseHandler.ts:121-127 | in production the first renderer head outlet is cut out in place: the text before it is kept and the rest is processed on its own |
| MetaInjector.DevelopmentInjectsAtOutlet | src/Ssr/SsrResponseHandler.ts:128-138 | in development, for every combination of callbacks, the first outlet is replaced by each present callback's output followed by a space, scripts before state; the text before it is kept and the rest is processed on its own |
| MetaInjector.DevelopmentReplacesEachOutlet | src/Ssr/SsrResponseHandler.ts:128-138 | in development the length changes by the head text's length minus the outlet's per outlet, and text without the outlet is unchanged |
| MetaInjector.PageWithoutMarkersIsUnchanged | src/Ssr/SsrResponseHandler.ts:63-64 | a rendered page without markers is written exactly as rendered |
| RendererLifecycle.RendererOptionsFor | src/Ssr/SsrPluginHandler.ts:263-277 | development renders in a fresh context, without injection and without cache. Production runs once, injects, and caches 1000 entries for 15 minutes (900000 ms) |
| RendererLifecycle.StepKeepsConsistent | src/Ssr/SsrPluginHandler.ts:136-155 | every update keeps the renderer present exactly when template and bundle are stored, and built from them with the mode's options |
| RendererLifecycle.RunKeepsConsistent | src/Ssr/SsrPluginHandler.ts:131-155 | from the initial empty state, any sequence of updates keeps that invariant |
| RendererLifecycle.RunKeepsLastValues | src/Ssr/SsrPluginHandler.ts:136-150 | while the process runs, each slot holds the last value sent to it (last write wins) |
| RendererLifecycle.ReadyAfterTemplateAndBundle | src/Ssr/SsrPluginHandler.ts:138-147 | while the process runs, the renderer exists exactly when a template and a non-null bundle were sent, and it renders the last ones |
| RendererLifecycle.ExitIsFinal | src/Ssr/SsrPluginHandler.ts:151-154 | after the process exited, no update changes anything |
| RendererLifecycle.ManifestUpdateNeverRebuilds | src/Ssr/SsrPluginHandler.ts:148-150 | a manifest update never rebuilds the renderer: it stores the parsed manifest, or exits with code 1 when parsing fails |
| RendererLifecycle.RebuildUsesLatestManifest | src/Ssr/SsrPluginHandler.ts:138-147 | whenever an update replaces the renderer, it is built from the stored template, the stored bundle and the latest manifest, and the update was no manifest update |
| RendererLifecycle.RunPair | src/Ssr/SsrPluginHandler.ts:136 | two updates in a row are two steps |
| RendererLifecycle.ArrivalOrderIrrelevant | src/Ssr/SsrPluginHandler.ts:138-147 | template then bundle and bundle then template give the same renderer |
| RendererLifecycle.DoneHookRebuildsWithFreshManifest | src/Ssr/SsrPluginHandler.ts:158-170 | because the done hook sends the manifest before the template, the renderer it produces uses this build's manifest |
| RendererLifecycle.DoneHookSteps | src/Ssr/SsrPluginHandler.ts:158-170 | running the done hook's updates is the manifest step (when its file exists) followed by the template step (when the index exists) |
| SsrPlugin.SsrPluginHandler.constructor | src/Ssr/SsrPluginHandler.ts:45-49 | stores context and options; no worker context, no renderer, empty slots |
| SsrPlugin.SsrPluginHandler.RegisterGlobalRendererUpdate | src/Ssr/SsrPluginHandler.ts:126-136 | the update closure is installed in development only; nothing else changes |
| SsrPlugin.SsrPluginHandler.RendererUpdate | src/Ssr/SsrPluginHandler.ts:136-155 | one closure call moves the slots by `Step` and keeps the handler consistent |
| SsrPlugin.SsrPluginHandler.CompilerDone | src/Ssr/SsrPluginHandler.ts:158-170 | the done hook sends the manifest (when its file exists), then the template (when the index exists), in that order |
| SsrPlugin.SsrPluginHandler.InitializeWorkerContext | src/Ssr/SsrPluginHandler.ts:178-187 | the worker context becomes the parent context in development and the factory's context otherwise |
| SsrPlugin.SsrPluginHandler.GetWorkerContext | src/Ssr/SsrPluginHandler.ts:79-84 | succeeds exactly when the context is initialised; otherwise fails with the source's message |
| SsrPlugin.SsrPluginHandler.GetRenderer | src/Ssr/SsrPluginHandler.ts:115-120 | succeeds exactly when a renderer exists; otherwise fails with the source's message |
| SsrPlugin.SsrPluginHandler.InitializeProductionRenderer | src/Ssr/SsrPluginHandler.ts:227-235 | in production the renderer is built from bundle, index and manifest, and start-up fails when a file cannot be read. Development changes nothing |
| SsrResponse.SanitizeLogLine | src/Ssr/SsrResponseHandler.ts:83 | the result has no carriage return or line feed, and text without line breaks is unchanged |
| SsrResponse.SsrResponseHandler.constructor | src/Ssr/SsrResponseHandler.ts:27-29 | stores the plugin handler |
| SsrResponse.SsrResponseHandler.HasRenderer | src/Ssr/SsrResponseHandler.ts:96-103 | true exactly when the renderer getter would succeed |
| SsrResponse.SsrResponseHandler.Handle | src/Ssr/SsrResponseHandler.ts:36-90 | without a renderer: the waiting message and end. Otherwise: HTML content type and the resolved environment; a render failure gives 500, the error body and the mode's log; a redirect gives no write and no end; a rejected `afterRendering` gives page, 500 and error body; otherwise the injected page and one end |
| SsrResponse.SsrResponseHandler.Respond | src/Ssr/SsrResponseHandler.ts:61-89 | after the engine answers: a failure gives 500, the error body and the mode's log; a redirect writes nothing and does not end; otherwise the page with both injections is written, followed by 500 and the error body when `afterRendering` rejects, else one end |
| LegacySsrPlugin.NormalizeOptionsDefaults | src/expressSsrPlugin.ts:132-133 | non-object options become empty, given options are kept, and a missing stream wrapper passes every chunk through |
| LegacySsrPlugin.ApplyConfigured | src/expressSsrPlugin.ts:278-280 | the plugin that `configure(options)` applies to a context holds that context and exactly these options, normalised, with nothing registered yet |
| LegacySsrPlugin.LegacyRendererMetaDataComparison | src/expressSsrPlugin.ts:78-84 | the legacy injector throws exactly for a development chunk with the outlet and a missing callback. In production it equals the class-based injector; in development, with both callbacks, its result is one character shorter per outlet |
| LegacySsrPlugin.LegacyDevelopmentInjectsAtOutlet | src/expressSsrPlugin.ts:78-84 | in development, with both callbacks, the legacy injector puts scripts, a space and the state at the first outlet, and the class-based injector the same followed by one more space; the text before is kept and the rest is processed on its own |
| LegacySsrPlugin.WrittenSplits | src/expressSsrPlugin.ts:244-252 | chunks that do not throw are written in order and unchanged, before whatever follows |
| LegacySsrPlugin.WrittenStopsAtThrow | src/expressSsrPlugin.ts:244-252 | writing stops at the first chunk whose processing throws |
| LegacySsrPlugin.ExpressSsrPlugin.constructor | src/expressSsrPlugin.ts:129-133 | applied to a context and options, it keeps the context and the normalised options (a non-object becomes `{}`, a missing stream wrapper the identity); nothing is registered yet |
| LegacySsrPlugin.ExpressSsrPlugin.Start | src/expressSsrPlugin.ts:166-233 | production builds the renderer from the artifacts or fails; otherwise the update closure is installed. Then the environment map is resolved and the route registered |
| LegacySsrPlugin.ExpressSsrPlugin.RendererUpdate | src/expressSsrPlugin.ts:181-196 | one closure call moves the slots by `Step` with the rendering mode `isDevMode` |
| LegacySsrPlugin.ExpressSsrPlugin.CompilerDone | src/expressSsrPlugin.ts:199-211 | manifest first, then template, each when its file exists |
| LegacySsrPlugin.ExpressSsrPlugin.ApplyMetaDataChunk | src/expressSsrPlugin.ts:92-121 | the shared injector; the module-level prepared meta data is reset to empty when vue-meta data is present |
| LegacySsrPlugin.ExpressSsrPlugin.WriteChunk | src/expressSsrPlugin.ts:244-252 | one `data` event: the chunk goes through meta data, renderer data and the stream wrapper and is written, or nothing is written when that processing throws |
| LegacySsrPlugin.ExpressSsrPlugin.WriteChunks | src/expressSsrPlugin.ts:244-252 | every chunk is processed on its own, and the response receives exactly the processed chunks, in order, up to the first whose processing throws; `threw` says whether one did |
| LegacySsrPlugin.ExpressSsrPlugin.Route | src/expressSsrPlugin.ts:233-267 | waiting message without a renderer. Otherwise HTML content type, then the chunks each processed on its own (`process` is that processing: meta data, renderer data, stream wrapper); end on stream end; on a stream error, 500, the error body and a two-line log; nothing more after a chunk throws |
| Loaders.VueStyleRewriteProperties | plugins/VueJsEnvPlugin.js:24-31 | after the rewrite no entry uses the extractor; rewriting is idempotent; exactly the non-extractor entries are kept |
| Loaders.SsrStyleRewriteProperties | src/VueJs.ts:323-340 | removes every extractor, turning it into `vue-style-loader`; keeps other loader names; switches off `esModule` on `css-loader` entries with plain options; idempotent |
| Loaders.RewriteInPlace | src/VueJs.ts:342-357 | the in-place `forEach` rewrites each position on its own and adds or removes no entry |
| Loaders.RewrittenListHasNoExtractor | src/VueJs.ts:323-357 | after either rewrite no entry uses the extractor, and applying it again changes nothing |
| VueJsExtension.CheckScope | src/VueJs.ts:32 | succeeds exactly on the "app" scope; otherwise fails with the source's message |
| VueJsExtension.InsertDeepRemoverLoop | src/VueJs.ts:298-310 | the insertion loop as written: the result and the throw are those of the pass over the original list with slices of the current list |
| VueJsExtension.TwoExtractorsMisplaceDeepRemover | src/VueJs.ts:298-310 | with two extractor entries, the code as written yields `[e, deep, deep, e]`, not the intended `[e, deep, e, deep]` |
| VueJsExtension.SingleExtractorAsIntended | src/VueJs.ts:298-310 | with at most one extractor, and objects with loaders only, the code as written yields the intended list |
| VueJsExtension.InsertDeepRemoverProperties | src/VueJs.ts:298-310 | in the intended list every extractor is directly followed by the deep remover, and removing the deep remover gives the original list back |
| VueJsExtension.CorrectedPassProperties | src/VueJs.ts:298-310 | the corrected pass completes exactly when no entry lacks a loader, and then yields the intended list. It throws on the same lists as the code as written |
| VueJsExtension.AsWrittenThrowsIff | src/VueJs.ts:300 | the pass as written throws exactly when a string entry or an object without a loader is still to be visited |
| VueJsExtension.CorrectedPassThrowsAt | src/VueJs.ts:300 | the corrected pass stops at the first throwing entry, with the entries before it handled |
| VueJsExtension.InsertDeepRemoverAfterExtractors | src/VueJs.ts:298-310 | the corrected loop yields the corrected pass: the deep remover right after every extractor, and a throw at the first entry without a loader |
| VueJsExtension.DerivedServerConfigProperties | src/VueJs.ts:226-241 | the server definition never spawns a worker itself and is an SSR build; its name and id give back the app's; template and extractor settings are kept |
| VueJsExtension.WithHtmlTemplateDefault | src/VueJs.ts:222-223 | a `null` or undefined `htmlTemplate` becomes `true`; a set one and all other fields are kept |
| VueJsExtension.ApplyHtmlTemplateDefault | src/VueJs.ts:222-223 | the worker context's app becomes its `htmlTemplate`-defaulted definition, changed in place |
| VueJsExtension.AfterWorkerInitDone | src/VueJs.ts:216-267 | outside SSR nothing happens. In SSR the template default is applied, and a server worker is spawned exactly for an app without `ssrWorker` outside express production, with the derived definition and mode "build"/"watch". The parent mode is restored afterwards |
| VueJsExtension.SpawnServerWorker | src/VueJs.ts:253-265 | the worker starts with the derived definition under mode "build" in production and "watch" otherwise, and the parent's previous mode is back afterwards |
| VueJsExtension.ForwardedMessagesAreBundleUpdates | src/VueJs.ts:244-249 | a message is forwarded exactly when it has a bundle field and the closure is registered. It becomes a bundle update that never touches template or manifest, and a `null` bundle with a stored template ends the process |
| VueJsExtension.FilterLoaderConfig | src/VueJs.ts:291-357 | sass/less rules get the deep remover first, by the corrected insertion (see Left out and Findings), and stop on a throw. The rewrite is skipped for non-SSR production apps and for apps that keep the extractor; otherwise sass/less entries get the SSR-aware rewrite |
| VueJsEnvPlugin.GetEnvironmentHandlers | plugins/VueJsEnvPlugin.js:8-10 | sets the "vuejs" handler and keeps every other one |
| VueJsEnvPlugin.FilterExcludePattern | plugins/VueJsEnvPlugin.js:12-16 | the base pattern exactly for ESLint in the "vuejs" environment; otherwise the given pattern |
| VueJsEnvPlugin.FilterLoaderConfig | plugins/VueJsEnvPlugin.js:18-45 | production returns the rule untouched. Development rewrites every extractor entry of sass/less rules to `vue-style-loader` in place, leaves other rules alone, and returns undefined |

## Left out

- `$` patterns in replacement strings (`$&`, `$1`, ...): replacements are taken literally. The source passes a function for every replacement except `headAttrs.text()`, so only that one could differ.
- JSON: `JSON.stringify` of the environment map is a function parameter. `JSON.parse` and `require` of the artifacts are `Option` inputs (`None` when they throw). Key order and the deep copy's dropping of undefined fields are not modelled. Environment values are `null`, strings or numbers; an `additionalEnvVars` override holding a boolean, array or object is not represented.
- External engines are modelled by what they return:
  - `createBundleRenderer`: the renderer is the record of its inputs. A non-null but malformed bundle is taken not to throw.
  - `renderToString` and `renderToStream`: a function from renderer and context to an outcome.
  - vue-meta's `inject()`: the fifteen fragment texts.
- Time and console output: the request-duration log lines are not modelled. Other console output is modelled only as the returned `log` lines.
- Asynchrony: `handle()`'s promise chain, `setUpGeneratorConfig`, `initializeConfiguration`, `registerAssetRoute` and `registerContentRoute` (the webpack-config lookups and express registration) are left out. Their effects on the modelled state are the route flag, or none.
- Interleaving of rebuilds with requests in flight is not modelled.
- The external allow-list option (`SsrPluginHandler.ts:197-201`, `expressSsrPlugin.ts:136-142`) only binds an event listener and is left out.
- LegacySsrPlugin.ExpressSsrPlugin.Route: after a chunk's processing throws inside the `data` listener, what the event emitter and the stream do next is not modelled; the route simply stops. One context is taken per stream, as the engine returns it. On a stream error the chunks may already be written with status 200, so the later status 500 only sets the `statusCode` property; `Status` records that assigned value.
- SsrResponse.SsrResponseHandler.Handle: `vueContextFilter` mutates the context in place. The model takes the mutated context as the filter's result. Throws from the filter or from `meta.inject()` are not modelled.
- Loaders.RewriteInPlace: the `esModule` flag is written into the options object shared with the original entry. The model builds a new entry, so aliasing of that options object is not captured.
- MetaInjector.HeadOutletReinsertedThenConsumed: proved only for chunks without the `data-vue-template-html` and `data-vue-template-head` markers, which the index template carries. For the general case the environment pass would have to commute with the two attribute passes. It does not always: with empty `headAttrs`, a chunk that holds a head-attribute marker inside a spelled-out outlet (`<!--vue-hea` + marker + `d-outlet-->`) gains a head outlet only when that marker is removed, after the environment pass, so the outlet receives the meta block without the environment script. Stating the general case would need a condition on the chunk that excludes this, and that condition is not modelled.
- VueJsExtension.FilterLoaderConfig: the deep remover is inserted by the corrected loop, directly after every extractor. The loop as written (`InsertDeepRemoverLoop`) puts the second of two extractors' removers in the wrong place (see Findings); the two agree, and both throw on the same lists, when a rule has at most one extractor (`SingleExtractorAsIntended`, `CorrectedPassProperties`).
- SsrResponse.SsrResponseHandler.Respond: when `afterRendering` rejects, the page is already written with status 200, so the later status 500 only sets the `statusCode` property. `Status` records that assigned value; headers already sent are not modelled.
- VueJsExtension.AfterWorkerInitDone: the `PROCESS_CREATED` listener is bound and unbound around the spawn. The spawn itself is asynchronous, as is rethrowing its failure; the hook returns the spawn request instead.
- Other `src/VueJs.ts` hooks left out as build configuration, not pipeline logic: webpack merges, md5 naming, polyfills, TypeScript, PostCSS and cssnano, the plugin-config filters, the HTML-template hook, and the server compiler's done hook that sends `VUE_SSR_BUNDLE`.
- `VueJs.js`, `src/ServerBundle.ts` and the demo application are not part of this model.

## Findings

| source | as written | input that shows it | evidently intended | confidence | as-written member | corrected member |
|---|---|---|---|---|---|---|
| src/VueJs.ts:298-310 | `forEach` walks the original `use` list but slices the reassigned list at the original index `k + 1`, so each earlier insertion shifts the later cut by one | a sass rule whose `use` is `[e, e]`, with `e = {loader: "mini-css-extract-plugin"}`: the result is `[e, deep, deep, e]` | `[e, deep, e, deep]`: the deep remover directly after every extractor | not executed; high | VueJsExtension.TwoExtractorsMisplaceDeepRemover | VueJsExtension.InsertDeepRemoverAfterExtractors |
