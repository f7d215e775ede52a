/**
 * `SsrPluginHandler`, the class-based plugin revision: it holds the worker context and
 * the bundle renderer, registers the update closure in development and builds the
 * renderer once from the build artifacts in production.
 *
 * The update closure's own variables (`template`, `bundle`, `clientManifest`) are
 * modelled as fields of the handler that created the closure, and `process.exit` as the
 * `exitCode` field.
 */
module SsrPlugin {
  import opened Common
  import opened Environment
  import opened RendererLifecycle
  import opened MetaInjector

  /** A worker context, kept opaque. */
  datatype WorkerRef = WorkerRef(id: nat)

  /**
   * The plugin options the handler reads; `vueContextFilter` is `None` when the option
   * is not a function.
   */
  datatype SsrOptions = SsrOptions(
    envVars: Option<seq<string>>,
    additionalEnvVars: Option<map<string, EnvValue>>,
    vueContextFilter: Option<VueContext -> VueContext>)

  const WorkerContextMissing := "The worker context was not initialized using the initializeWorkerContext() method!"
  const RendererMissing := "The renderer instance was not instantiated yet!"

  class SsrPluginHandler {
    /** The parent context; the handler runs in development exactly when there is one. */
    const parentContext: Option<WorkerRef>
    const options: SsrOptions
    var workerContext: Option<WorkerRef>
    var renderer: Option<Renderer>
    var updaterRegistered: bool
    var template: Option<string>
    var bundle: Option<Json>
    var clientManifest: Option<Json>
    var exitCode: Option<int>

    predicate IsDev()
    {
      parentContext.Some?
    }

    function Slots(): RendererLifecycle.Slots
      reads this
    {
      RendererLifecycle.Slots(template, bundle, clientManifest, renderer, exitCode)
    }

    /**
     * No update closure exists in production, and in development the renderer always
     * matches the stored template and bundle.
     */
    predicate Valid()
      reads this
    {
      && (!IsDev() ==> !updaterRegistered)
      && (IsDev() ==> Consistent(Slots(), true))
    }

    constructor(parentContext: Option<WorkerRef>, options: SsrOptions)
      ensures this.parentContext == parentContext && this.options == options
      ensures workerContext.None? && !updaterRegistered && Slots() == Initial
      ensures Valid()
    {
      this.parentContext := parentContext;
      this.options := options;
      workerContext := None;
      renderer := None;
      updaterRegistered := false;
      template, bundle, clientManifest := None, None, None;
      exitCode := None;
    }

    /** `registerGlobalRendererUpdate`: the closure is installed in development only. */
    method RegisterGlobalRendererUpdate()
      requires Valid()
      modifies this
      ensures updaterRegistered == (old(updaterRegistered) || IsDev())
      ensures Slots() == old(Slots()) && workerContext == old(workerContext)
      ensures Valid()
    {
      if IsDev() {
        updaterRegistered := true;
      }
    }

    /** One call of the registered update closure. */
    method RendererUpdate(u: Update)
      requires updaterRegistered && Valid()
      modifies this
      ensures Slots() == Step(old(Slots()), u, IsDev())
      ensures workerContext == old(workerContext) && updaterRegistered
      ensures Valid()
    {
      StepKeepsConsistent(Slots(), u, IsDev());
      if exitCode.Some? {
        // the process has already ended
        return;
      }
      match u
      case TemplateUpdate(t) =>
        template := Some(t);
        if bundle.Some? {
          renderer := Some(CreateRenderer(bundle.value, t, clientManifest, IsDev()));
        }
      case BundleUpdate(b) =>
        bundle := b;
        if template.Some? {
          if b.None? {
            exitCode := Some(ExitFailure);
          } else {
            renderer := Some(CreateRenderer(b.value, template.value, clientManifest, IsDev()));
          }
        }
      case ManifestUpdate(m) =>
        if m.None? {
          exitCode := Some(ExitFailure);
        } else {
          clientManifest := m;
        }
    }

    /**
     * The compiler's done hook: sends the manifest when its file exists, then the
     * template when the index file exists.
     */
    method CompilerDone(manifestText: Option<string>, indexText: Option<string>, parse: string -> Option<Json>)
      requires updaterRegistered && Valid()
      modifies this
      ensures Slots() == Run(old(Slots()), DoneHookUpdates(manifestText, indexText, parse), IsDev())
      ensures workerContext == old(workerContext) && updaterRegistered
      ensures Valid()
    {
      ghost var start := Slots();
      if manifestText.Some? {
        RendererUpdate(ManifestUpdate(parse(manifestText.value)));
      }
      if indexText.Some? {
        RendererUpdate(TemplateUpdate(indexText.value));
      }
      DoneHookSteps(start, manifestText, indexText, parse, IsDev());
    }

    /** `initializeWorkerContext`: the parent context in development, the factory's context otherwise. */
    method InitializeWorkerContext(fromFactory: WorkerRef)
      modifies this
      ensures workerContext == Some(if IsDev() then parentContext.value else fromFactory)
      ensures Slots() == old(Slots()) && updaterRegistered == old(updaterRegistered)
    {
      if !IsDev() {
        workerContext := Some(fromFactory);
      } else {
        workerContext := parentContext;
      }
    }

    /** The `workerContext` getter: fails until the context is initialised. */
    method GetWorkerContext() returns (r: Result<WorkerRef>)
      ensures r.Success? <==> workerContext.Some?
      ensures r.Success? ==> r.value == workerContext.value
      ensures r.Failure? ==> r.error == WorkerContextMissing
    {
      if workerContext.None? {
        return Failure(WorkerContextMissing);
      }
      return Success(workerContext.value);
    }

    /** The `renderer` getter: fails until a renderer is assigned. */
    method GetRenderer() returns (r: Result<Renderer>)
      ensures r.Success? <==> renderer.Some?
      ensures r.Success? ==> r.value == renderer.value
      ensures r.Failure? ==> r.error == RendererMissing
    {
      if renderer.None? {
        return Failure(RendererMissing);
      }
      return Success(renderer.value);
    }

    /**
     * `initializeProductionRenderer`: in production the renderer is built once from the
     * server bundle, the client manifest and the index template read from the output
     * directory (`None` for a file that cannot be read, which rejects the start-up).
     * In development nothing happens.
     */
    method InitializeProductionRenderer(bundleFile: Option<Json>, manifestFile: Option<Json>, indexFile: Option<string>)
      returns (ok: bool)
      requires Valid()
      modifies this
      ensures ok <==> IsDev() || (bundleFile.Some? && manifestFile.Some? && indexFile.Some?)
      ensures !IsDev() && ok ==>
                renderer == Some(CreateRenderer(bundleFile.value, indexFile.value, manifestFile, false))
      ensures IsDev() || !ok ==> renderer == old(renderer)
      ensures template == old(template) && bundle == old(bundle) && clientManifest == old(clientManifest)
      ensures exitCode == old(exitCode) && workerContext == old(workerContext) && updaterRegistered == old(updaterRegistered)
      ensures Valid()
    {
      if IsDev() {
        return true;
      }
      if bundleFile.None? || manifestFile.None? || indexFile.None? {
        return false;
      }
      renderer := Some(CreateRenderer(bundleFile.value, indexFile.value, manifestFile, IsDev()));
      return true;
    }
  }
}
