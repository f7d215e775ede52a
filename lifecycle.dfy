/**
 * The renderer lifecycle shared by both plugin revisions: the update closure
 * (`EXPRESS_VUE_SSR_UPDATE_RENDERER`) keeps a template, a server bundle and a client
 * manifest, and replaces the bundle renderer whenever a template or bundle update
 * arrives while the other one is stored. An exception inside the closure ends the
 * process with exit code 1.
 *
 * `createBundleRenderer` is an external engine: the renderer is modelled as the record
 * of what it was created from, which is all the pipeline relies on.
 */
module RendererLifecycle {
  import opened Common

  /** A parsed JSON document (server bundle or client manifest), kept opaque. */
  datatype Json = Json(text: string)

  /** `runInNewContext`: `true` in development, `"once"` in production. */
  datatype RunMode = FreshContextPerRender | Once

  /** The bounds of the LRU render cache. */
  datatype LruCache = LruCache(max: nat, maxAgeMs: nat)

  datatype RendererOptions = RendererOptions(runInNewContext: RunMode, inject: bool, cache: Option<LruCache>)

  /** A bundle renderer, described by its inputs. */
  datatype Renderer = BundleRenderer(bundle: Json, template: string, clientManifest: Option<Json>, options: RendererOptions)

  /**
   * The options `createRenderer` passes along: development renders in a fresh context,
   * does not inject styles and does not cache; production runs the bundle once, injects
   * and caches up to 1000 pages for 15 minutes.
   */
  function RendererOptionsFor(isDev: bool): (o: RendererOptions)
    ensures o.runInNewContext == FreshContextPerRender <==> isDev
    ensures o.inject <==> !isDev
    ensures o.cache.Some? <==> !isDev
    ensures o.cache.Some? ==> o.cache.value == LruCache(1000, 900000)
  {
    if isDev then RendererOptions(FreshContextPerRender, false, None)
    else RendererOptions(Once, true, Some(LruCache(1000, 1000 * 60 * 15)))
  }

  /** `createRenderer(bundle, template, clientManifest)`. */
  function CreateRenderer(bundle: Json, template: string, clientManifest: Option<Json>, isDev: bool): Renderer
  {
    BundleRenderer(bundle, template, clientManifest, RendererOptionsFor(isDev))
  }

  const ExitFailure := 1

  /**
   * A call of the update closure. `BundleUpdate(None)` is a bundle message carrying
   * `null` (no bundle file was produced); `ManifestUpdate(None)` is a manifest text
   * `JSON.parse` rejects.
   */
  datatype Update =
    | TemplateUpdate(template: string)
    | BundleUpdate(bundle: Option<Json>)
    | ManifestUpdate(manifest: Option<Json>)

  /** The closure's three variables, the renderer it assigns, and the exit code once the process ended. */
  datatype Slots = Slots(
    template: Option<string>, bundle: Option<Json>, clientManifest: Option<Json>,
    renderer: Option<Renderer>, exitCode: Option<int>)

  const Initial := Slots(None, None, None, None, None)

  /**
   * One call of the update closure. Rebuilding from a `null` bundle makes
   * `createBundleRenderer` throw, and so does a manifest that does not parse; both end
   * the process. Once ended, nothing changes any more.
   */
  function Step(s: Slots, u: Update, isDev: bool): Slots
  {
    if s.exitCode.Some? then s
    else match u
      case TemplateUpdate(t) =>
        if s.bundle.Some? then s.(template := Some(t), renderer := Some(CreateRenderer(s.bundle.value, t, s.clientManifest, isDev)))
        else s.(template := Some(t))
      case BundleUpdate(b) =>
        if s.template.None? then s.(bundle := b)
        else if b.None? then s.(bundle := b, exitCode := Some(ExitFailure))
        else s.(bundle := b, renderer := Some(CreateRenderer(b.value, s.template.value, s.clientManifest, isDev)))
      case ManifestUpdate(m) =>
        if m.None? then s.(exitCode := Some(ExitFailure)) else s.(clientManifest := m)
  }

  /** The updates applied in order, the last one last. */
  function Run(s: Slots, us: seq<Update>, isDev: bool): Slots
  {
    if us == [] then s else Step(Run(s, us[..|us| - 1], isDev), us[|us| - 1], isDev)
  }

  /**
   * While the process runs, a renderer exists exactly when both a template and a bundle
   * are stored, and it was built from the stored template and bundle with the options
   * of the current mode.
   */
  predicate Consistent(s: Slots, isDev: bool)
  {
    s.exitCode.None? ==>
      && (s.renderer.Some? <==> s.template.Some? && s.bundle.Some?)
      && (s.renderer.Some? ==>
            && s.renderer.value.template == s.template.value
            && s.renderer.value.bundle == s.bundle.value
            && s.renderer.value.options == RendererOptionsFor(isDev))
  }

  /** The template of the last template update, if any. */
  function LastTemplate(us: seq<Update>): Option<string>
  {
    if us == [] then None
    else if us[|us| - 1].TemplateUpdate? then Some(us[|us| - 1].template)
    else LastTemplate(us[..|us| - 1])
  }

  /** The value of the last bundle update, `None` when there was none or it carried `null`. */
  function LastBundle(us: seq<Update>): Option<Json>
  {
    if us == [] then None
    else if us[|us| - 1].BundleUpdate? then us[|us| - 1].bundle
    else LastBundle(us[..|us| - 1])
  }

  /** The manifest of the last manifest update, if any. */
  function LastManifest(us: seq<Update>): Option<Json>
  {
    if us == [] then None
    else if us[|us| - 1].ManifestUpdate? then us[|us| - 1].manifest
    else LastManifest(us[..|us| - 1])
  }

  /** Every update keeps the renderer consistent with the stored template and bundle. */
  lemma StepKeepsConsistent(s: Slots, u: Update, isDev: bool)
    requires Consistent(s, isDev)
    ensures Consistent(Step(s, u, isDev), isDev)
  {
  }

  /** From the start, any sequence of updates leaves the slots consistent. */
  lemma {:induction false} RunKeepsConsistent(us: seq<Update>, isDev: bool)
    ensures Consistent(Run(Initial, us, isDev), isDev)
  {
    if us != [] {
      RunKeepsConsistent(us[..|us| - 1], isDev);
      StepKeepsConsistent(Run(Initial, us[..|us| - 1], isDev), us[|us| - 1], isDev);
    }
  }

  /** Updates are last-write-wins: while the process runs, each slot holds the last value sent to it. */
  lemma {:induction false} RunKeepsLastValues(us: seq<Update>, isDev: bool)
    ensures var s := Run(Initial, us, isDev);
            s.exitCode.None? ==>
              && s.template == LastTemplate(us)
              && s.bundle == LastBundle(us)
              && s.clientManifest == LastManifest(us)
  {
    if us != [] {
      var prefix := us[..|us| - 1];
      RunKeepsLastValues(prefix, isDev);
      var before := Run(Initial, prefix, isDev);
      if before.exitCode.Some? {
        assert Run(Initial, us, isDev) == before;
      }
    }
  }

  /**
   * After any sequence of updates, if the process still runs, the renderer is ready
   * exactly when a template and a non-null bundle have been sent, and it renders the
   * last ones.
   */
  lemma ReadyAfterTemplateAndBundle(us: seq<Update>, isDev: bool)
    ensures var s := Run(Initial, us, isDev);
            s.exitCode.None? ==>
              && (s.renderer.Some? <==> LastTemplate(us).Some? && LastBundle(us).Some?)
              && (s.renderer.Some? ==>
                    s.renderer.value.template == LastTemplate(us).value && s.renderer.value.bundle == LastBundle(us).value)
  {
    RunKeepsConsistent(us, isDev);
    RunKeepsLastValues(us, isDev);
  }

  /** Once the process has ended, later updates change nothing. */
  lemma {:induction false} ExitIsFinal(s: Slots, us: seq<Update>, isDev: bool)
    requires s.exitCode.Some?
    ensures Run(s, us, isDev) == s
  {
    if us != [] {
      ExitIsFinal(s, us[..|us| - 1], isDev);
    }
  }

  /**
   * A manifest update never rebuilds the renderer; it stores the manifest, or ends the
   * process when the text does not parse.
   */
  lemma ManifestUpdateNeverRebuilds(s: Slots, m: Option<Json>, isDev: bool)
    requires s.exitCode.None?
    ensures var t := Step(s, ManifestUpdate(m), isDev);
            && t.renderer == s.renderer && t.template == s.template && t.bundle == s.bundle
            && (m.Some? ==> t.clientManifest == m && t.exitCode.None?)
            && (m.None? ==> t.exitCode == Some(ExitFailure))
  {
  }

  /**
   * Whenever an update replaces the renderer, the new renderer uses the stored template,
   * the stored bundle and the most recently stored manifest.
   */
  lemma RebuildUsesLatestManifest(s: Slots, u: Update, isDev: bool)
    requires s.exitCode.None?
    ensures var t := Step(s, u, isDev);
            t.exitCode.None? && t.renderer != s.renderer ==>
              && !u.ManifestUpdate?
              && t.template.Some? && t.bundle.Some?
              && t.renderer == Some(CreateRenderer(t.bundle.value, t.template.value, s.clientManifest, isDev))
  {
  }

  /** Two updates in a row. */
  lemma RunPair(s: Slots, a: Update, b: Update, isDev: bool)
    ensures Run(s, [a, b], isDev) == Step(Step(s, a, isDev), b, isDev)
  {
    assert [a, b][..1] == [a];
    assert [a][..0] == [];
    assert Run(s, [a], isDev) == Step(s, a, isDev);
  }

  /** The order in which a template and a bundle arrive does not matter to the renderer. */
  lemma ArrivalOrderIrrelevant(s: Slots, t: string, b: Json, isDev: bool)
    requires s.exitCode.None?
    ensures Run(s, [TemplateUpdate(t), BundleUpdate(Some(b))], isDev).renderer
         == Run(s, [BundleUpdate(Some(b)), TemplateUpdate(t)], isDev).renderer
         == Some(CreateRenderer(b, t, s.clientManifest, isDev))
  {
    RunPair(s, TemplateUpdate(t), BundleUpdate(Some(b)), isDev);
    RunPair(s, BundleUpdate(Some(b)), TemplateUpdate(t), isDev);
  }

  /**
   * What the compiler's done hook sends: the manifest text (parsed by `parse`) when the
   * manifest file exists, then the template when the index file exists.
   */
  function DoneHookUpdates(manifestText: Option<string>, indexText: Option<string>,
                           parse: string -> Option<Json>): seq<Update>
  {
    (if manifestText.Some? then [ManifestUpdate(parse(manifestText.value))] else [])
    + (if indexText.Some? then [TemplateUpdate(indexText.value)] else [])
  }

  /** Running the done hook's updates is the manifest step, when there is one, followed by the template step, when there is one. */
  lemma {:induction false} DoneHookSteps(s: Slots, manifestText: Option<string>, indexText: Option<string>,
                                         parse: string -> Option<Json>, isDev: bool)
    ensures var afterManifest := if manifestText.Some? then Step(s, ManifestUpdate(parse(manifestText.value)), isDev) else s;
            Run(s, DoneHookUpdates(manifestText, indexText, parse), isDev)
            == if indexText.Some? then Step(afterManifest, TemplateUpdate(indexText.value), isDev) else afterManifest
  {
    var us := DoneHookUpdates(manifestText, indexText, parse);
    if manifestText.Some? && indexText.Some? {
      RunPair(s, us[0], us[1], isDev);
      assert us == [us[0], us[1]];
    } else if us != [] {
      assert |us| == 1 && us[..0] == [];
    }
  }

  /**
   * Because the manifest is sent before the template, the renderer a build produces
   * already uses that build's manifest.
   */
  lemma DoneHookRebuildsWithFreshManifest(s: Slots, manifestText: string, indexText: string,
                                          parse: string -> Option<Json>, isDev: bool)
    requires s.exitCode.None? && s.bundle.Some?
    requires parse(manifestText).Some?
    ensures Run(s, DoneHookUpdates(Some(manifestText), Some(indexText), parse), isDev).renderer
         == Some(CreateRenderer(s.bundle.value, indexText, parse(manifestText), isDev))
  {
    var us := DoneHookUpdates(Some(manifestText), Some(indexText), parse);
    assert us == [ManifestUpdate(parse(manifestText)), TemplateUpdate(indexText)];
    RunPair(s, ManifestUpdate(parse(manifestText)), TemplateUpdate(indexText), isDev);
  }
}
