/**
 * The hooks of the Vue.js extension (`src/VueJs.ts`) with behaviour of their own: the
 * scope guard, the loader-config filter for sass and less rules, the SSR start-up hook
 * that defaults `htmlTemplate`, derives the server-build app definition and spawns the
 * server worker with a temporary mode, and the filter that forwards the server
 * worker's bundle messages to the update closure.
 */
module VueJsExtension {
  import opened Common
  import opened Text
  import opened Loaders
  import opened RendererLifecycle

  const ScopeError := "The vue extension cannot be defined on a global scope!"

  /** The extension may only be registered on the "app" scope. */
  function CheckScope(scope: string): (r: Result<bool>)
    ensures r.Success? <==> scope == "app"
    ensures r.Failure? ==> r.error == ScopeError
  {
    if scope != "app" then Failure(ScopeError) else Success(true)
  }

  // ---------------------------------------------------------------------------
  // Deep-remover insertion

  /** How the insertion pass ends: it ran over every entry, or an entry made it throw; with the list as it then was. */
  datatype PassOutcome = Completed(use: seq<UseEntry>) | Threw(use: seq<UseEntry>)

  /** JavaScript's `slice(from, to)` for `0 <= from`: both ends are clamped to the length. */
  function Slice(s: seq<UseEntry>, from: nat, to: nat): seq<UseEntry>
  {
    var hi := if to <= |s| then to else |s|;
    var lo := if from <= hi then from else hi;
    s[lo..hi]
  }

  /** Reading `v.loader.match` throws: a string entry, or an object without a loader. */
  predicate MatchThrows(e: UseEntry)
  {
    e.Named? || e.loader.None?
  }

  /**
   * The insertion loop as written: `forEach` walks the ORIGINAL list, while each
   * insertion rebuilds `config.use` from the CURRENT list cut at the original index
   * `k`. Reading `v.loader.match` throws for a string entry and for an entry without a
   * loader.
   */
  function DeepRemoverPassAsWritten(original: seq<UseEntry>, k: nat, current: seq<UseEntry>, path: string): PassOutcome
    requires k <= |original|
    decreases |original| - k
  {
    if k == |original| then Completed(current)
    else
      var v := original[k];
      if MatchThrows(v) then Threw(current)
      else if Occurs(v.loader.value, MiniCssExtractPlugin) then
        DeepRemoverPassAsWritten(original, k + 1, Slice(current, 0, k + 1) + [Named(path)] + Slice(current, k + 1, |current|), path)
      else DeepRemoverPassAsWritten(original, k + 1, current, path)
  }

  /** An entry, followed by the deep remover when it is an extractor. */
  function WithDeepRemover(e: UseEntry, path: string): seq<UseEntry>
  {
    [e] + (if UsesExtractor(e) then [Named(path)] else [])
  }

  /** The evidently intended insertion: the deep remover directly after every extractor entry. */
  function InsertDeepRemover(use: seq<UseEntry>, path: string): seq<UseEntry>
  {
    if use == [] then [] else WithDeepRemover(use[0], path) + InsertDeepRemover(use[1..], path)
  }

  /**
   * The corrected pass: entries are handled in order as before and a throwing entry
   * still stops it, but every deep remover lands right after its extractor.
   */
  function CorrectedPass(use: seq<UseEntry>, path: string): PassOutcome
  {
    if use == [] then Completed([])
    else if MatchThrows(use[0]) then Threw(use)
    else
      var head := WithDeepRemover(use[0], path);
      var rest := CorrectedPass(use[1..], path);
      if rest.Completed? then Completed(head + rest.use) else Threw(head + rest.use)
  }

  /**
   * The corrected pass completes exactly when no entry throws, and then yields the
   * intended list; the pass as written throws for the same lists.
   */
  lemma {:induction false} CorrectedPassProperties(use: seq<UseEntry>, path: string)
    ensures CorrectedPass(use, path).Completed? <==> forall j :: 0 <= j < |use| ==> !MatchThrows(use[j])
    ensures CorrectedPass(use, path).Completed? ==> CorrectedPass(use, path).use == InsertDeepRemover(use, path)
    ensures DeepRemoverPassAsWritten(use, 0, use, path).Threw? <==> CorrectedPass(use, path).Threw?
  {
    if use != [] {
      CorrectedPassProperties(use[1..], path);
      if !MatchThrows(use[0]) {
        forall j | 1 <= j < |use|
          ensures use[j] == use[1..][j - 1]
        {
        }
      }
    }
    AsWrittenThrowsIff(use, 0, use, path);
  }

  /** The pass as written throws exactly when an entry it has still to visit throws. */
  lemma {:induction false} AsWrittenThrowsIff(original: seq<UseEntry>, k: nat, current: seq<UseEntry>, path: string)
    requires k <= |original|
    ensures DeepRemoverPassAsWritten(original, k, current, path).Threw?
            <==> exists j :: k <= j < |original| && MatchThrows(original[j])
    decreases |original| - k
  {
    if k < |original| && !MatchThrows(original[k]) {
      var v := original[k];
      var next := if Occurs(v.loader.value, MiniCssExtractPlugin)
                  then Slice(current, 0, k + 1) + [Named(path)] + Slice(current, k + 1, |current|) else current;
      AsWrittenThrowsIff(original, k + 1, next, path);
      assert DeepRemoverPassAsWritten(original, k, current, path) == DeepRemoverPassAsWritten(original, k + 1, next, path);
    }
  }

  /** Removes the deep-remover entries again. */
  function WithoutEntry(use: seq<UseEntry>, e: UseEntry): seq<UseEntry>
  {
    if use == [] then [] else (if use[0] == e then [] else [use[0]]) + WithoutEntry(use[1..], e)
  }

  /**
   * The intended insertion puts the deep remover directly after every extractor entry
   * and adds nothing else: removing the deep remover gives the original list back.
   */
  lemma InsertDeepRemoverProperties(use: seq<UseEntry>, path: string)
    requires !Occurs(path, MiniCssExtractPlugin)
    requires forall j :: 0 <= j < |use| ==> use[j] != Named(path)
    ensures var r := InsertDeepRemover(use, path);
            && (forall i :: 0 <= i < |r| && UsesExtractor(r[i]) ==> i + 1 < |r| && r[i + 1] == Named(path))
            && WithoutEntry(r, Named(path)) == use
  {
    DeepRemoverFollowsExtractors(use, path);
    RemovingDeepRemoverRestores(use, path);
  }

  /** Every extractor entry of `r` is directly followed by the deep remover. */
  predicate DeepRemoverFollows(r: seq<UseEntry>, path: string)
  {
    forall i :: 0 <= i < |r| && UsesExtractor(r[i]) ==> i + 1 < |r| && r[i + 1] == Named(path)
  }

  lemma {:induction false} DeepRemoverFollowsExtractors(use: seq<UseEntry>, path: string)
    requires !Occurs(path, MiniCssExtractPlugin)
    ensures DeepRemoverFollows(InsertDeepRemover(use, path), path)
  {
    if use != [] {
      var rest := InsertDeepRemover(use[1..], path);
      DeepRemoverFollowsExtractors(use[1..], path);
      var head := [use[0]] + (if UsesExtractor(use[0]) then [Named(path)] else []);
      var r := InsertDeepRemover(use, path);
      assert r == head + rest;
      forall i | 0 <= i < |r| && UsesExtractor(r[i])
        ensures i + 1 < |r| && r[i + 1] == Named(path)
      {
        if i >= |head| {
          var j := i - |head|;
          assert r[i] == rest[j];
          assert j + 1 < |rest| && rest[j + 1] == Named(path);
          assert r[i + 1] == rest[j + 1];
        } else {
          assert r[i] == head[i];
        }
      }
    }
  }

  lemma {:induction false} RemovingDeepRemoverRestores(use: seq<UseEntry>, path: string)
    requires forall j :: 0 <= j < |use| ==> use[j] != Named(path)
    ensures WithoutEntry(InsertDeepRemover(use, path), Named(path)) == use
  {
    if use != [] {
      var rest := InsertDeepRemover(use[1..], path);
      RemovingDeepRemoverRestores(use[1..], path);
      var head := WithDeepRemover(use[0], path);
      assert InsertDeepRemover(use, path) == head + rest;
      WithoutEntryConcat(head, rest, Named(path));
      if UsesExtractor(use[0]) {
        assert WithoutEntry(head, Named(path)) == [use[0]] by {
          assert head[1..] == [Named(path)];
          assert head[1..][1..] == [];
        }
      } else {
        assert WithoutEntry(head, Named(path)) == [use[0]] by {
          assert head[1..] == [];
        }
      }
      assert use == [use[0]] + use[1..];
    }
  }

  lemma {:induction false} WithoutEntryConcat(a: seq<UseEntry>, b: seq<UseEntry>, e: UseEntry)
    ensures WithoutEntry(a + b, e) == WithoutEntry(a, e) + WithoutEntry(b, e)
  {
    if a == [] {
      assert a + b == b;
    } else {
      assert (a + b)[0] == a[0];
      assert (a + b)[1..] == a[1..] + b;
      WithoutEntryConcat(a[1..], b, e);
    }
  }

  /** An object entry whose loader name matches `/mini-css-extract-plugin/`. */
  predicate IsExtractorObject(e: UseEntry)
  {
    e.LoaderObject? && e.loader.Some? && Occurs(e.loader.value, MiniCssExtractPlugin)
  }

  /**
   * With two extractor entries the pass as written puts the second deep remover BEFORE
   * the second extractor instead of after it.
   */
  lemma TwoExtractorsMisplaceDeepRemover(path: string)
    ensures var e := LoaderObject(Some(MiniCssExtractPlugin), NoOptions);
            && DeepRemoverPassAsWritten([e, e], 0, [e, e], path) == Completed([e, Named(path), Named(path), e])
            && InsertDeepRemover([e, e], path) == [e, Named(path), e, Named(path)]
            && DeepRemoverPassAsWritten([e, e], 0, [e, e], path).use != InsertDeepRemover([e, e], path)
  {
    var e := LoaderObject(Some(MiniCssExtractPlugin), NoOptions);
    assert StartsWith(MiniCssExtractPlugin, MiniCssExtractPlugin);
    assert UsesExtractor(e) && IsExtractorObject(e);
    var afterFirst := Slice([e, e], 0, 1) + [Named(path)] + Slice([e, e], 1, 2);
    assert afterFirst == [e, Named(path), e];
    var afterSecond := Slice(afterFirst, 0, 2) + [Named(path)] + Slice(afterFirst, 2, 3);
    assert afterSecond == [e, Named(path), Named(path), e];
    assert DeepRemoverPassAsWritten([e, e], 2, afterSecond, path) == Completed(afterSecond);
    assert DeepRemoverPassAsWritten([e, e], 1, afterFirst, path) == Completed(afterSecond);
    assert DeepRemoverPassAsWritten([e, e], 0, [e, e], path) == Completed(afterSecond);
    assert [e, e][1..] == [e];
    assert [e][1..] == [];
    assert InsertDeepRemover([e], path) == [e, Named(path)];
  }

  /** Entries that are objects with a loader, at most one of them an extractor. */
  predicate AtMostOneExtractor(use: seq<UseEntry>)
  {
    && (forall j :: 0 <= j < |use| ==> use[j].LoaderObject? && use[j].loader.Some?)
    && (forall i, j :: 0 <= i < j < |use| && IsExtractorObject(use[i]) ==> !IsExtractorObject(use[j]))
  }

  /**
   * With at most one extractor, every entry an object with a loader, the pass as written
   * completes with the intended list.
   */
  lemma {:induction false} SingleExtractorAsIntended(use: seq<UseEntry>, path: string)
    requires AtMostOneExtractor(use)
    ensures DeepRemoverPassAsWritten(use, 0, use, path) == Completed(InsertDeepRemover(use, path))
  {
    if m :| 0 <= m < |use| && IsExtractorObject(use[m]) {
      OnlyExtractor(use, m);
      var next := PassReachesExtractor(use, m, path);
      PassSkipsPlainEntries(use, m + 1, |use|, next, path);
      InsertAroundExtractor(use[..m], use[m], use[m + 1..], path);
      assert use == use[..m] + [use[m]] + use[m + 1..];
    } else {
      PassSkipsPlainEntries(use, 0, |use|, use, path);
      InsertWithoutExtractor(use, path);
    }
  }

  /** Every entry but the only extractor is an object with a loader that is no extractor. */
  lemma OnlyExtractor(use: seq<UseEntry>, m: nat)
    requires AtMostOneExtractor(use) && m < |use| && IsExtractorObject(use[m])
    ensures forall i :: 0 <= i < |use| && i != m ==> use[i].LoaderObject? && use[i].loader.Some? && !IsExtractorObject(use[i])
  {
    forall i | 0 <= i < |use| && i != m
      ensures !IsExtractorObject(use[i])
    {
      if i < m {
        assert 0 <= i < m < |use|;
      } else {
        assert 0 <= m < i < |use|;
      }
    }
  }

  /** The pass runs unchanged up to the only extractor and inserts the deep remover right after it. */
  lemma PassReachesExtractor(use: seq<UseEntry>, m: nat, path: string) returns (next: seq<UseEntry>)
    requires m < |use| && IsExtractorObject(use[m])
    requires forall i :: 0 <= i < |use| && i != m ==> use[i].LoaderObject? && use[i].loader.Some? && !IsExtractorObject(use[i])
    ensures next == use[..m + 1] + [Named(path)] + use[m + 1..]
    ensures DeepRemoverPassAsWritten(use, 0, use, path) == DeepRemoverPassAsWritten(use, m + 1, next, path)
  {
    PassSkipsPlainEntries(use, 0, m, use, path);
    next := Slice(use, 0, m + 1) + [Named(path)] + Slice(use, m + 1, |use|);
  }

  /** The intended insertion around the only extractor. */
  lemma {:induction false} InsertAroundExtractor(before: seq<UseEntry>, x: UseEntry, after: seq<UseEntry>, path: string)
    requires UsesExtractor(x)
    requires forall i :: 0 <= i < |before| ==> !UsesExtractor(before[i])
    requires forall i :: 0 <= i < |after| ==> !UsesExtractor(after[i])
    ensures InsertDeepRemover(before + [x] + after, path) == before + [x, Named(path)] + after
  {
    InsertWithoutExtractor(before, path);
    InsertWithoutExtractor(after, path);
    InsertExtractorCons(x, after, path);
    assert before + [x] + after == before + ([x] + after);
    InsertConcat(before, [x] + after, path);
  }

  lemma {:induction false} InsertExtractorCons(x: UseEntry, rest: seq<UseEntry>, path: string)
    requires UsesExtractor(x)
    ensures InsertDeepRemover([x] + rest, path) == [x, Named(path)] + InsertDeepRemover(rest, path)
  {
    assert ([x] + rest)[1..] == rest;
  }

  /** Over object entries without an extractor, the pass leaves the list alone. */
  lemma {:induction false} PassSkipsPlainEntries(original: seq<UseEntry>, k: nat, j: nat, current: seq<UseEntry>, path: string)
    requires k <= j <= |original|
    requires forall i :: k <= i < j ==> original[i].LoaderObject? && original[i].loader.Some? && !IsExtractorObject(original[i])
    ensures DeepRemoverPassAsWritten(original, k, current, path) == DeepRemoverPassAsWritten(original, j, current, path)
    decreases j - k
  {
    if k < j {
      PassSkipsPlainEntries(original, k + 1, j, current, path);
    }
  }

  lemma {:induction false} InsertWithoutExtractor(use: seq<UseEntry>, path: string)
    requires forall i :: 0 <= i < |use| ==> !UsesExtractor(use[i])
    ensures InsertDeepRemover(use, path) == use
  {
    if use != [] {
      InsertWithoutExtractor(use[1..], path);
      assert use == [use[0]] + use[1..];
    }
  }

  lemma {:induction false} InsertConcat(a: seq<UseEntry>, b: seq<UseEntry>, path: string)
    ensures InsertDeepRemover(a + b, path) == InsertDeepRemover(a, path) + InsertDeepRemover(b, path)
  {
    if a == [] {
      assert a + b == b;
    } else {
      assert (a + b)[0] == a[0];
      assert (a + b)[1..] == a[1..] + b;
      InsertConcat(a[1..], b, path);
    }
  }

  // ---------------------------------------------------------------------------
  // App definitions

  /** `htmlTemplate`: undefined, `null`, a flag, or a template configuration. */
  datatype HtmlTemplate = Unset | NullTemplate | Flag(enabled: bool) | Custom(config: string)

  /** `polyfills`: not given, switched off, or a list of extra polyfills. */
  datatype Polyfills = DefaultPolyfills | PolyfillsOff | PolyfillList(names: seq<string>)

  /**
   * The app definition fields the extension reads or writes; the flags hold whether
   * the option is exactly `true`.
   */
  datatype AppDefinition = AppDefinition(
    appName: string, id: int, minChunkSize: int, polyfills: Polyfills,
    keepOutputDirectory: bool, disableGitAdd: bool, verboseResult: bool,
    useSsr: bool, useCssExtractPlugin: bool, ssrWorker: Option<string>, htmlTemplate: HtmlTemplate)

  const ServerGeneratorSuffix := " - Server Generator"
  const ServerWorker := "server"

  /** The app definition of the server build, derived from a copy of the app's. */
  function DeriveServerAppConfig(app: AppDefinition): AppDefinition
  {
    app.(appName := app.appName + ServerGeneratorSuffix, id := app.id + 1000, minChunkSize := 999999999,
         polyfills := PolyfillsOff, keepOutputDirectory := true, disableGitAdd := true, verboseResult := true,
         useSsr := true, ssrWorker := Some(ServerWorker))
  }

  /** Whether the start-up hook spawns a server worker for an app (after the `htmlTemplate` default). */
  predicate SpawnsServerWorker(app: AppDefinition, globalSsrMode: bool, environment: string, isProd: bool)
  {
    && (app.useSsr || globalSsrMode)
    && app.ssrWorker.None?
    && !(environment == "express" && isProd)
  }

  /**
   * The server build never spawns a server worker of its own; its definition keeps the
   * app's name and id recoverable, is an SSR build, and keeps the app's template and
   * style settings.
   */
  lemma DerivedServerConfigProperties(app: AppDefinition, globalSsrMode: bool, environment: string, isProd: bool)
    ensures var server := DeriveServerAppConfig(app);
            && !SpawnsServerWorker(server, globalSsrMode, environment, isProd)
            && server.useSsr && server.ssrWorker == Some("server")
            && |server.appName| == |app.appName| + |ServerGeneratorSuffix|
            && server.appName[..|app.appName|] == app.appName
            && server.id - 1000 == app.id
            && server.htmlTemplate == app.htmlTemplate && server.useCssExtractPlugin == app.useCssExtractPlugin
  {
    assert (app.appName + ServerGeneratorSuffix)[..|app.appName|] == app.appName;
  }

  /** In SSR mode a `null` or undefined `htmlTemplate` becomes `true`. */
  function WithHtmlTemplateDefault(app: AppDefinition): (r: AppDefinition)
    ensures !r.htmlTemplate.Unset? && !r.htmlTemplate.NullTemplate?
    ensures app.htmlTemplate.Flag? || app.htmlTemplate.Custom? ==> r == app
    ensures app.htmlTemplate.Unset? || app.htmlTemplate.NullTemplate? ==> r.htmlTemplate == Flag(true)
    ensures r == app.(htmlTemplate := r.htmlTemplate)
  {
    if app.htmlTemplate.Unset? || app.htmlTemplate.NullTemplate? then app.(htmlTemplate := Flag(true)) else app
  }

  /** The express parent context; the start-up hook changes its mode while it spawns. */
  class ParentContext {
    var mode: string
    const isProd: bool
    const environment: string

    constructor(mode: string, isProd: bool, environment: string)
      ensures this.mode == mode && this.isProd == isProd && this.environment == environment
    {
      this.mode := mode;
      this.isProd := isProd;
      this.environment := environment;
    }
  }

  /** The worker context of the app being built. */
  class WorkerContext {
    var app: AppDefinition
    const parentContext: ParentContext

    constructor(app: AppDefinition, parentContext: ParentContext)
      ensures this.app == app && this.parentContext == parentContext
    {
      this.app := app;
      this.parentContext := parentContext;
    }
  }

  /** A request to start the server worker: its app definition and the parent mode it starts under. */
  datatype SpawnRequest = SpawnRequest(config: AppDefinition, mode: string)

  /**
   * The `AFTER_WORKER_INIT_DONE` hook. Outside SSR nothing happens. In SSR mode the
   * `htmlTemplate` default is applied; then, unless the app is itself a server worker
   * or the express environment runs in production, the server worker is started with
   * the derived definition and the mode "build" (production) or "watch", and the
   * previous mode is restored afterwards.
   */
  method AfterWorkerInitDone(context: WorkerContext, globalSsrMode: bool) returns (spawn: Option<SpawnRequest>)
    modifies context, context.parentContext
    ensures context.app == if old(context.app).useSsr || globalSsrMode then WithHtmlTemplateDefault(old(context.app)) else old(context.app)
    ensures spawn.Some? <==> SpawnsServerWorker(old(context.app), globalSsrMode, context.parentContext.environment, context.parentContext.isProd)
    ensures spawn.Some? ==> spawn.value == SpawnRequest(DeriveServerAppConfig(context.app), if context.parentContext.isProd then "build" else "watch")
    ensures context.parentContext.mode == old(context.parentContext.mode)
  {
    var isSsr := context.app.useSsr || globalSsrMode;
    if !isSsr {
      return None;
    }
    ApplyHtmlTemplateDefault(context);
    assert context.app.ssrWorker == old(context.app).ssrWorker;
    if context.app.ssrWorker.Some? {
      return None;
    }
    if context.parentContext.environment == "express" && context.parentContext.isProd {
      return None;
    }
    var request := SpawnServerWorker(context.parentContext, context.app);
    return Some(request);
  }

  /** The `htmlTemplate` default of the hook, applied to the worker context's app in place. */
  method ApplyHtmlTemplateDefault(context: WorkerContext)
    modifies context
    ensures context.app == WithHtmlTemplateDefault(old(context.app))
  {
    if context.app.htmlTemplate.NullTemplate? || context.app.htmlTemplate.Unset? {
      context.app := context.app.(htmlTemplate := Flag(true));
    }
  }

  /**
   * The spawning part of the hook: the parent mode is backed up, set to "build"
   * (production) or "watch" while the worker starts with the derived definition, and
   * restored afterwards.
   */
  method SpawnServerWorker(parent: ParentContext, app: AppDefinition) returns (request: SpawnRequest)
    modifies parent
    ensures request == SpawnRequest(DeriveServerAppConfig(app), if parent.isProd then "build" else "watch")
    ensures parent.mode == old(parent.mode)
  {
    var serverAppConfig := DeriveServerAppConfig(app);
    var modeBackup := parent.mode;
    parent.mode := if parent.isProd then "build" else "watch";
    request := SpawnRequest(serverAppConfig, parent.mode);
    parent.mode := modeBackup;
  }

  // ---------------------------------------------------------------------------
  // Server worker messages

  /** The `VUE_SSR_BUNDLE` field of a message from the server worker. */
  datatype BundleField = Absent | NullBundle | Payload(bundle: Json)

  /**
   * The message listener: a message with a `VUE_SSR_BUNDLE` field is forwarded as a
   * bundle update, provided the update closure is registered; anything else is ignored.
   */
  function ForwardServerMessage(message: BundleField, updaterRegistered: bool): Option<Update>
  {
    if message.Absent? || !updaterRegistered then None
    else Some(BundleUpdate(if message.Payload? then Some(message.bundle) else None))
  }

  /**
   * Only bundle messages reach the closure, and only while it is registered; a
   * forwarded message never touches the template or the manifest, and a `null` bundle
   * with a stored template ends the process.
   */
  lemma ForwardedMessagesAreBundleUpdates(message: BundleField, updaterRegistered: bool, s: Slots, isDev: bool)
    ensures ForwardServerMessage(message, updaterRegistered).Some? <==> !message.Absent? && updaterRegistered
    ensures var u := ForwardServerMessage(message, updaterRegistered);
            u.Some? ==>
              && u.value.BundleUpdate?
              && Step(s, u.value, isDev).template == s.template
              && Step(s, u.value, isDev).clientManifest == s.clientManifest
              && (s.exitCode.None? ==> Step(s, u.value, isDev).bundle == (if message.Payload? then Some(message.bundle) else None))
              && (s.exitCode.None? && s.template.Some? && message.NullBundle? ==> Step(s, u.value, isDev).exitCode == Some(ExitFailure))
  {
  }

  // ---------------------------------------------------------------------------
  // Loader-config filter

  /**
   * The insertion loop of the loader filter, as written: walks the original list and
   * reassigns `use`; stops with `threw` at an entry that makes `v.loader.match` throw.
   */
  method InsertDeepRemoverLoop(rule: LoaderRule, path: string) returns (threw: bool)
    modifies rule
    ensures var outcome := DeepRemoverPassAsWritten(old(rule.use), 0, old(rule.use), path);
            rule.use == outcome.use && (threw <==> outcome.Threw?)
  {
    var original := rule.use;
    var k := 0;
    while k < |original|
      invariant 0 <= k <= |original|
      invariant DeepRemoverPassAsWritten(original, k, rule.use, path) == DeepRemoverPassAsWritten(original, 0, original, path)
    {
      var v := original[k];
      if MatchThrows(v) {
        return true;
      }
      if Occurs(v.loader.value, MiniCssExtractPlugin) {
        var before := Slice(rule.use, 0, k + 1);
        var after := Slice(rule.use, k + 1, |rule.use|);
        rule.use := before + [Named(path)] + after;
      }
      k := k + 1;
    }
    return false;
  }

  /**
   * The insertion loop with each deep remover placed right after its extractor: the
   * cut is taken in the current list, past the entries inserted so far.
   */
  method InsertDeepRemoverAfterExtractors(rule: LoaderRule, path: string) returns (threw: bool)
    modifies rule
    ensures var outcome := CorrectedPass(old(rule.use), path);
            rule.use == outcome.use && (threw <==> outcome.Threw?)
  {
    var original := rule.use;
    var use := original;
    var k, cut := 0, 0;
    ghost var done: seq<UseEntry> := [];
    while k < |original|
      invariant 0 <= k <= |original|
      invariant done == InsertDeepRemover(original[..k], path) && cut == |done|
      invariant use == done + original[k..]
      invariant forall j :: 0 <= j < k ==> !MatchThrows(original[j])
    {
      var v := original[k];
      if MatchThrows(v) {
        CorrectedPassThrowsAt(original, k, path);
        rule.use := use;
        return true;
      }
      CorrectedStep(original, k, path);
      LoopStepInserts(original, k, path);
      if Occurs(v.loader.value, MiniCssExtractPlugin) {
        use := use[..cut + 1] + [Named(path)] + use[cut + 1..];
        cut := cut + 2;
      } else {
        cut := cut + 1;
      }
      done := done + WithDeepRemover(v, path);
      k := k + 1;
    }
    assert original[..k] == original && original[k..] == [];
    CorrectedPassProperties(original, path);
    rule.use := use;
    return false;
  }

  /** The corrected pass stops at the first throwing entry, with the entries before it handled. */
  lemma {:induction false} CorrectedPassThrowsAt(use: seq<UseEntry>, k: nat, path: string)
    requires k < |use| && MatchThrows(use[k])
    requires forall j :: 0 <= j < k ==> !MatchThrows(use[j])
    ensures CorrectedPass(use, path) == Threw(InsertDeepRemover(use[..k], path) + use[k..])
  {
    if k == 0 {
      assert use[..0] == [] && use[0..] == use;
    } else {
      CorrectedPassThrowsAt(use[1..], k - 1, path);
      assert use[1..][..k - 1] == use[..k][1..];
      assert use[1..][k - 1..] == use[k..];
      var head := WithDeepRemover(use[0], path);
      var done := InsertDeepRemover(use[..k][1..], path);
      assert CorrectedPass(use[1..], path) == Threw(done + use[k..]);
      assert CorrectedPass(use, path) == Threw(head + (done + use[k..]));
      assert use[..k][0] == use[0];
      assert InsertDeepRemover(use[..k], path) == head + done;
      assert head + (done + use[k..]) == (head + done) + use[k..];
    }
  }

  /** The intended insertion of one more entry. */
  lemma CorrectedStep(original: seq<UseEntry>, k: nat, path: string)
    requires k < |original|
    ensures InsertDeepRemover(original[..k + 1], path) == InsertDeepRemover(original[..k], path) + WithDeepRemover(original[k], path)
    ensures original[k..] == [original[k]] + original[k + 1..]
  {
    InsertConcat(original[..k], [original[k]], path);
    assert original[..k + 1] == original[..k] + [original[k]];
    assert original[k..][1..] == original[k + 1..];
    assert [original[k]][1..] == [];
  }

  /** What one entry of the corrected loop does to the list, as the intended insertion of one more entry. */
  lemma LoopStepInserts(original: seq<UseEntry>, k: nat, path: string)
    requires k < |original| && !MatchThrows(original[k])
    requires InsertDeepRemover(original[..k + 1], path) == InsertDeepRemover(original[..k], path) + WithDeepRemover(original[k], path)
    requires original[k..] == [original[k]] + original[k + 1..]
    ensures var done := InsertDeepRemover(original[..k], path);
            var use := done + original[k..];
            var extractor := Occurs(original[k].loader.value, MiniCssExtractPlugin);
            && (extractor ==> use[..|done| + 1] + [Named(path)] + use[|done| + 1..] == InsertDeepRemover(original[..k + 1], path) + original[k + 1..])
            && (!extractor ==> use == InsertDeepRemover(original[..k + 1], path) + original[k + 1..])
            && |InsertDeepRemover(original[..k + 1], path)| == |done| + if extractor then 2 else 1
  {
    var done := InsertDeepRemover(original[..k], path);
    var v := original[k];
    if Occurs(v.loader.value, MiniCssExtractPlugin) {
      assert WithDeepRemover(v, path) == [v, Named(path)];
      SpliceAfterFirst(done, original[k..], Named(path));
    } else {
      assert WithDeepRemover(v, path) == [v];
    }
  }

  /** Inserting `x` after the first entry of `rest`, cut at the position `|prefix| + 1`. */
  lemma SpliceAfterFirst(prefix: seq<UseEntry>, rest: seq<UseEntry>, x: UseEntry)
    requires |rest| > 0
    ensures var s := prefix + rest;
            s[..|prefix| + 1] + [x] + s[|prefix| + 1..] == prefix + [rest[0], x] + rest[1..]
  {
    var s := prefix + rest;
    assert s[..|prefix| + 1] == prefix + [rest[0]];
    assert s[|prefix| + 1..] == rest[1..];
  }

  /**
   * The `FILTER_LOADER_CONFIG` hook. For sass and less rules the deep remover is first
   * inserted after the extractor entries (the corrected insertion; `InsertDeepRemoverLoop`
   * is the loop as written); the rewrite then stops when the app is no SSR app in
   * production or insists on the extractor; otherwise every entry of a sass or less
   * rule gets the SSR-aware rewrite.
   */
  method FilterLoaderConfig(rule: LoaderRule, identifier: LoaderIdentifier, app: AppDefinition, isProd: bool,
                            deepRemoverPath: string)
    returns (threw: bool)
    modifies rule
    ensures var styleRule := identifier == SassLoader || identifier == LessLoader;
            var pass := if styleRule then CorrectedPass(old(rule.use), deepRemoverPath) else Completed(old(rule.use));
            && (threw <==> pass.Threw?)
            && (threw || !styleRule || (!app.useSsr && isProd) || app.useCssExtractPlugin ==> rule.use == pass.use)
            && (!threw && styleRule && !(!app.useSsr && isProd) && !app.useCssExtractPlugin ==> RewrittenBy(pass.use, rule.use, true))
  {
    if identifier == SassLoader || identifier == LessLoader {
      threw := InsertDeepRemoverAfterExtractors(rule, deepRemoverPath);
      if threw {
        return;
      }
    } else {
      threw := false;
    }
    if !app.useSsr && isProd {
      return;
    }
    if app.useCssExtractPlugin {
      return;
    }
    if identifier == SassLoader || identifier == LessLoader {
      RewriteInPlace(rule, true);
    }
  }
}
