/**
 * `SsrResponseHandler.handle`, the catch-all route of the class-based revision: it
 * answers with a waiting message until a renderer exists, renders the page to a string,
 * injects the template markers, skips writing on redirects, and answers 500 on failure.
 *
 * `renderToString` is an external engine, given as `render`: it yields the HTML and the
 * context as the app left it (with its vue-meta data, its script and state callbacks and
 * the status code it set), or the error it rejected with.
 */
module SsrResponse {
  import opened Common
  import opened Environment
  import opened MetaInjector
  import opened RendererLifecycle
  import opened SsrPlugin
  import opened Http

  datatype RenderOutcome =
    | Rendered(html: string, context: VueContext, statusCode: int)
    | RenderFailed(error: string)

  /** Status codes after which nothing is written and the response is not ended. */
  predicate IsRedirect(statusCode: int)
  {
    statusCode == 301 || statusCode == 302 || statusCode == 307
  }

  /** The context built for each request: the URL, the environment map and a no-op `afterRendering`. */
  function BaseContext(url: string, env: Env): VueContext
  {
    VueContext(url, env, None, None, None, NoOpHook)
  }

  /** The context after `vueContextFilter`, when that option is a function. */
  function FilteredContext(options: SsrOptions, ctx: VueContext): VueContext
  {
    if options.vueContextFilter.Some? then options.vueContextFilter.value(ctx) else ctx
  }

  predicate IsLineBreak(c: char)
  {
    c == '\r' || c == '\n'
  }

  /** Replaces every carriage return and line feed by `" -> "`, so a log line stays one line. */
  function SanitizeLogLine(s: string): (r: string)
    ensures forall i :: 0 <= i < |r| ==> !IsLineBreak(r[i])
    ensures (forall i :: 0 <= i < |s| ==> !IsLineBreak(s[i])) ==> r == s
    ensures |r| >= |s|
  {
    if s == [] then []
    else (if IsLineBreak(s[0]) then " -> " else [s[0]]) + SanitizeLogLine(s[1..])
  }

  /**
   * What a failed render logs: in production one sanitised line with the URL and the
   * error, in development the URL line and the error as they are.
   */
  function ErrorLog(isDev: bool, url: string, error: string): seq<string>
  {
    if isDev then ["Error during render : " + url, error]
    else [SanitizeLogLine("Error during render : " + url + " | " + error)]
  }

  class SsrResponseHandler {
    const pluginHandler: SsrPluginHandler

    constructor(pluginHandler: SsrPluginHandler)
      ensures this.pluginHandler == pluginHandler
    {
      this.pluginHandler := pluginHandler;
    }

    /** `hasRenderer`: whether the renderer getter succeeds. */
    method HasRenderer() returns (b: bool)
      ensures b <==> pluginHandler.renderer.Some?
    {
      var r := pluginHandler.GetRenderer();
      b := r.Success?;
    }

    /**
     * Handles one request for `url`. Returns the environment map the context was built
     * with and the lines logged on failure.
     */
    method Handle(url: string, res: Response, processEnv: map<string, string>,
                  render: (Renderer, VueContext) -> RenderOutcome, stringify: Env -> string)
      returns (env: Env, log: seq<string>)
      modifies res
      ensures pluginHandler.renderer.None? ==>
                && res.chunks == old(res.chunks) + [WaitingMessage] && res.endCount == old(res.endCount) + 1
                && res.statusCode == old(res.statusCode) && res.headers == old(res.headers) && log == []
      ensures pluginHandler.renderer.Some? ==>
                && ResolvedEnv(env, pluginHandler.options.envVars, processEnv, pluginHandler.options.additionalEnvVars)
                && res.headers == old(res.headers)["Content-Type" := "text/html"]
                && var outcome := render(pluginHandler.renderer.value, FilteredContext(pluginHandler.options, BaseContext(url, env)));
                   match outcome
                   case RenderFailed(e) =>
                     && res.statusCode == 500 && res.chunks == old(res.chunks) + [InternalErrorBody]
                     && res.endCount == old(res.endCount) + 1 && log == ErrorLog(pluginHandler.IsDev(), url, e)
                   case Rendered(html, after, status) =>
                     var page := RenderedPage(pluginHandler.IsDev(), after, html, stringify);
                     if IsRedirect(status) then
                       && res.statusCode == status && res.chunks == old(res.chunks)
                       && res.endCount == old(res.endCount) && log == []
                     else if after.afterRendering.UserHook? && after.afterRendering.rejection.Some? then
                       && res.statusCode == 500 && res.chunks == old(res.chunks) + [page, InternalErrorBody]
                       && res.endCount == old(res.endCount) + 1
                       && log == ErrorLog(pluginHandler.IsDev(), url, after.afterRendering.rejection.value)
                     else
                       && res.statusCode == status && res.chunks == old(res.chunks) + [page]
                       && res.endCount == old(res.endCount) + 1 && log == []
    {
      env := map[];
      log := [];
      var ready := HasRenderer();
      if !ready {
        res.EndWith(WaitingMessage);
        return;
      }
      res.SetHeader("Content-Type", "text/html");
      var options := pluginHandler.options;
      env := EnvironmentVariables(options.envVars, processEnv, options.additionalEnvVars);
      var vueContext := BaseContext(url, env);
      if options.vueContextFilter.Some? {
        vueContext := options.vueContextFilter.value(vueContext);
      }
      var renderer := pluginHandler.GetRenderer();
      var outcome := render(renderer.value, vueContext);
      log := Respond(res, url, outcome, stringify);
    }

    /** What `handle` does once the render engine has answered with `outcome`. */
    method Respond(res: Response, url: string, outcome: RenderOutcome, stringify: Env -> string)
      returns (log: seq<string>)
      modifies res
      ensures res.headers == old(res.headers)
      ensures match outcome
              case RenderFailed(e) =>
                && res.statusCode == 500 && res.chunks == old(res.chunks) + [InternalErrorBody]
                && res.endCount == old(res.endCount) + 1 && log == ErrorLog(pluginHandler.IsDev(), url, e)
              case Rendered(html, after, status) =>
                var page := RenderedPage(pluginHandler.IsDev(), after, html, stringify);
                if IsRedirect(status) then
                  && res.statusCode == status && res.chunks == old(res.chunks)
                  && res.endCount == old(res.endCount) && log == []
                else if after.afterRendering.UserHook? && after.afterRendering.rejection.Some? then
                  && res.statusCode == 500 && res.chunks == old(res.chunks) + [page, InternalErrorBody]
                  && res.endCount == old(res.endCount) + 1
                  && log == ErrorLog(pluginHandler.IsDev(), url, after.afterRendering.rejection.value)
                else
                  && res.statusCode == status && res.chunks == old(res.chunks) + [page]
                  && res.endCount == old(res.endCount) + 1 && log == []
    {
      log := [];
      if outcome.RenderFailed? {
        res.Status(500);
        res.EndWith(InternalErrorBody);
        log := ErrorLog(pluginHandler.IsDev(), url, outcome.error);
        return;
      }
      var after := outcome.context;
      res.Status(outcome.statusCode);
      var result := ApplyMetaData(after, outcome.html, stringify);
      result := ApplyRendererMetaData(pluginHandler.IsDev(), after, result);
      if !IsRedirect(res.statusCode) {
        res.Write(result);
        if after.afterRendering.UserHook? && after.afterRendering.rejection.Some? {
          res.Status(500);
          res.EndWith(InternalErrorBody);
          log := ErrorLog(pluginHandler.IsDev(), url, after.afterRendering.rejection.value);
          return;
        }
        res.End();
      }
    }
  }
}
