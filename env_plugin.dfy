/**
 * The environment plugin (`plugins/VueJsEnvPlugin.js`): it registers the "vuejs"
 * environment, widens the ESLint exclude pattern for that environment, and in
 * development turns the CSS extractor of sass and less rules into `vue-style-loader`.
 */
module VueJsEnvPlugin {
  import opened Common
  import opened Loaders

  const EnvironmentName := "vuejs"

  /** The map of environment handlers the plugin adds its own entry to. */
  class HandlerRegistry {
    var handlers: map<string, string>

    constructor(handlers: map<string, string>)
      ensures this.handlers == handlers
    {
      this.handlers := handlers;
    }
  }

  /**
   * `getEnvironmentHandlers`: sets the "vuejs" handler to the extension's entry file
   * (the resolved path, given as `entryPath`); every other handler is kept.
   */
  method GetEnvironmentHandlers(registry: HandlerRegistry, entryPath: string)
    modifies registry
    ensures registry.handlers == old(registry.handlers)[EnvironmentName := entryPath]
  {
    registry.handlers := registry.handlers[EnvironmentName := entryPath];
  }

  /**
   * `filterExcludePattern`: the ESLint pattern of the "vuejs" environment is the base
   * pattern; any other pattern is passed through.
   */
  function FilterExcludePattern(pattern: string, patternType: string, basePattern: string, environment: string): (r: string)
    ensures environment == EnvironmentName && patternType == "esLint" ==> r == basePattern
    ensures environment != EnvironmentName || patternType != "esLint" ==> r == pattern
  {
    if environment != EnvironmentName || patternType != "esLint" then pattern else basePattern
  }

  /**
   * `filterLoaderConfig`: in production the rule is returned untouched. In development
   * each extractor entry of a sass or less rule is replaced by `"vue-style-loader"` in
   * place, other rules are left alone, and the hook returns `undefined` (`None`).
   */
  method FilterLoaderConfig(rule: LoaderRule, identifier: LoaderIdentifier, isProd: bool) returns (r: Option<LoaderRule>)
    modifies rule
    ensures isProd ==> r == Some(rule) && rule.use == old(rule.use)
    ensures !isProd ==> r.None?
    ensures !isProd && (identifier == SassLoader || identifier == LessLoader) ==> RewrittenBy(old(rule.use), rule.use, false)
    ensures identifier.OtherLoader? ==> rule.use == old(rule.use)
  {
    if isProd {
      return Some(rule);
    }
    if identifier == SassLoader {
      RewriteInPlace(rule, false);
    }
    if identifier == LessLoader {
      RewriteInPlace(rule, false);
    }
    return None;
  }
}
