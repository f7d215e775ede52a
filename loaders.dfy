/**
 * The `use` list of a webpack loader rule and the entry rewrites the extension applies
 * to the sass and less rules: the CSS extractor becomes `vue-style-loader`, and
 * `css-loader` entries are switched away from ES modules. The patterns are the
 * unanchored `/mini-css-extract-plugin/` (a substring test) and the anchored
 * `/^css-loader/` (a prefix test).
 */
module Loaders {
  import opened Common
  import opened Text

  const MiniCssExtractPlugin := "mini-css-extract-plugin"
  const VueStyleLoader := "vue-style-loader"
  const CssLoader := "css-loader"

  /** An entry's `options`: absent, a plain object (with its `esModule` flag), or any other value. */
  datatype LoaderOptions =
    | NoOptions
    | PlainObject(esModule: Option<bool>, rest: map<string, string>)
    | OtherValue

  /** A `use` entry: a loader name, or an object with an optional `loader` field and its options. */
  datatype UseEntry =
    | Named(name: string)
    | LoaderObject(loader: Option<string>, options: LoaderOptions)

  /** Which loader rule a filter call is about. */
  datatype LoaderIdentifier = SassLoader | LessLoader | OtherLoader(name: string)

  /** A loader rule whose `use` list the filters rewrite or replace. */
  class LoaderRule {
    var use: seq<UseEntry>

    constructor(use: seq<UseEntry>)
      ensures this.use == use
    {
      this.use := use;
    }
  }

  /** The loader an entry names once a string entry is read as `{loader: v}`. */
  function LoaderName(e: UseEntry): Option<string>
  {
    match e
    case Named(n) => Some(n)
    case LoaderObject(l, _) => l
  }

  /** The entry names a loader whose name contains `mini-css-extract-plugin`. */
  predicate UsesExtractor(e: UseEntry)
  {
    LoaderName(e).Some? && Occurs(LoaderName(e).value, MiniCssExtractPlugin)
  }

  /** An extractor entry becomes `"vue-style-loader"`; any other entry stays. */
  function VueStyleRewrite(e: UseEntry): UseEntry
  {
    if UsesExtractor(e) then Named(VueStyleLoader) else e
  }

  /** A `css-loader` object entry with plain-object options gets `esModule: false`. */
  function DisableEsModule(e: UseEntry): UseEntry
  {
    match e
    case LoaderObject(Some(l), PlainObject(_, rest)) =>
      if StartsWith(l, CssLoader) then LoaderObject(Some(l), PlainObject(Some(false), rest)) else e
    case _ => e
  }

  /** The rewrite the SSR-aware filter applies to one entry: `esModule` first, then the style loader. */
  function SsrStyleRewrite(e: UseEntry): UseEntry
  {
    VueStyleRewrite(DisableEsModule(e))
  }

  lemma VueStyleLoaderIsNoExtractor()
    ensures !Occurs(VueStyleLoader, MiniCssExtractPlugin)
  {
    ShortTextLacksPattern(VueStyleLoader, MiniCssExtractPlugin);
  }

  /**
   * After the rewrite no entry uses the extractor, rewriting twice is rewriting once,
   * and an entry that does not use the extractor is kept as it is.
   */
  lemma VueStyleRewriteProperties(e: UseEntry)
    ensures !UsesExtractor(VueStyleRewrite(e))
    ensures VueStyleRewrite(VueStyleRewrite(e)) == VueStyleRewrite(e)
    ensures !UsesExtractor(e) <==> VueStyleRewrite(e) == e
  {
    VueStyleLoaderIsNoExtractor();
  }

  /**
   * The SSR-aware rewrite removes every extractor; it changes an entry only by turning
   * an extractor into `vue-style-loader` or by switching off `esModule` on a
   * `css-loader` entry; the loader an entry names is kept otherwise.
   */
  lemma SsrStyleRewriteProperties(e: UseEntry)
    ensures !UsesExtractor(SsrStyleRewrite(e))
    ensures UsesExtractor(e) ==> SsrStyleRewrite(e) == Named(VueStyleLoader)
    ensures !UsesExtractor(e) ==> LoaderName(SsrStyleRewrite(e)) == LoaderName(e)
    ensures SsrStyleRewrite(SsrStyleRewrite(e)) == SsrStyleRewrite(e)
    ensures SsrStyleRewrite(e).LoaderObject? && SsrStyleRewrite(e).options.PlainObject?
            && LoaderName(e).Some? && StartsWith(LoaderName(e).value, CssLoader)
            ==> SsrStyleRewrite(e).options.esModule == Some(false)
  {
    VueStyleLoaderIsNoExtractor();
  }

  /** Every entry of `rewritten` is the entry of `original` at the same position, passed through the chosen rewrite. */
  predicate RewrittenBy(original: seq<UseEntry>, rewritten: seq<UseEntry>, ssr: bool)
  {
    && |rewritten| == |original|
    && forall k :: 0 <= k < |original| ==>
         rewritten[k] == if ssr then SsrStyleRewrite(original[k]) else VueStyleRewrite(original[k])
  }

  /**
   * The `forEach` that assigns `config.use[k]` in place: each position is rewritten on
   * its own and no entry is added or removed. `ssr` selects the SSR-aware rewrite.
   */
  method RewriteInPlace(rule: LoaderRule, ssr: bool)
    modifies rule
    ensures RewrittenBy(old(rule.use), rule.use, ssr)
  {
    var k := 0;
    while k < |rule.use|
      invariant 0 <= k <= |rule.use| && |rule.use| == |old(rule.use)|
      invariant forall j :: 0 <= j < k ==>
                  rule.use[j] == if ssr then SsrStyleRewrite(old(rule.use)[j]) else VueStyleRewrite(old(rule.use)[j])
      invariant forall j :: k <= j < |rule.use| ==> rule.use[j] == old(rule.use)[j]
    {
      var v := rule.use[k];
      var name := LoaderName(v);
      if name.Some? {
        if ssr && v.LoaderObject? && v.options.PlainObject? && StartsWith(name.value, CssLoader) {
          rule.use := rule.use[k := LoaderObject(v.loader, v.options.(esModule := Some(false)))];
        }
        if Occurs(name.value, MiniCssExtractPlugin) {
          rule.use := rule.use[k := Named(VueStyleLoader)];
        }
      }
      k := k + 1;
    }
  }

  /** After either rewrite, no entry of the list uses the extractor, and applying it again changes nothing. */
  lemma RewrittenListHasNoExtractor(original: seq<UseEntry>, rewritten: seq<UseEntry>, ssr: bool)
    requires RewrittenBy(original, rewritten, ssr)
    ensures forall k :: 0 <= k < |rewritten| ==> !UsesExtractor(rewritten[k])
    ensures RewrittenBy(rewritten, rewritten, ssr)
  {
    forall k | 0 <= k < |rewritten|
      ensures !UsesExtractor(rewritten[k])
      ensures rewritten[k] == if ssr then SsrStyleRewrite(rewritten[k]) else VueStyleRewrite(rewritten[k])
    {
      VueStyleRewriteProperties(original[k]);
      SsrStyleRewriteProperties(original[k]);
    }
  }
}
