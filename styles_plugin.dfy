/** The styles plugin: loaders for `.scss`, `.css` and font files, and the `.css`/`.scss`
    resolve extensions. The factory's `postcss.config.js` scaffolding is not part of this model. */
module StylesPlugin {
  import opened Wrappers
  import opened Webpack

  const CssExtension := ".css"
  const ScssExtension := ".scss"

  /** Where font files are emitted, and the public path they are served from, when the options do not say. */
  const FontsOutputLocation := "./assets/fonts"
  const PublicPath := "./"

  /** The font limit: files up to this many bytes are inlined by `url-loader`. */
  const FontSizeLimit := 10000

  /** `config != null && config.fontsOutputLocation != null ? config.fontsOutputLocation : FONTS_OUTPUT_LOCATION` */
  function FontsOutputLocationOf(config: Option<PluginOptions>): (loc: string)
    ensures config.Some? && config.value.fontsOutputLocation.Some? ==> loc == config.value.fontsOutputLocation.value
    ensures config.None? || config.value.fontsOutputLocation.None? ==> loc == FontsOutputLocation
  {
    if config.Some? && config.value.fontsOutputLocation.Some? then config.value.fontsOutputLocation.value
    else FontsOutputLocation
  }

  /** `config != null && config.fontsPublicPath != null ? config.fontsPublicPath : PUBLIC_PATH` */
  function FontsPublicPathOf(config: Option<PluginOptions>): (pub: string)
    ensures config.Some? && config.value.fontsPublicPath.Some? ==> pub == config.value.fontsPublicPath.value
    ensures config.None? || config.value.fontsPublicPath.None? ==> pub == PublicPath
  {
    if config.Some? && config.value.fontsPublicPath.Some? then config.value.fontsPublicPath.value
    else PublicPath
  }

  /** Sass files: style-loader, postcss-loader, sass-loader. */
  const ScssRule := Rule(Regex("\\.scss$"),
                         Some([LoaderName("style-loader"), LoaderName("postcss-loader"), LoaderName("sass-loader")]),
                         None, None, None)

  /** Plain CSS files: style-loader, css-loader. */
  const CssRule := Rule(Regex("\\.css$"), Some([LoaderName("style-loader"), LoaderName("css-loader")]), None, None, None)

  /** Font files through `url-loader`, emitted under `location` and served from `publicPath`. */
  function FontRule(location: string, publicPath: string): Rule {
    Rule(Regex("\\.(woff|woff2|eot|ttf|otf)$"), None, Some("url-loader"),
         Some(map["name" := Str(location + "/[name].[ext]"), "publicPath" := Str(publicPath), "limit" := Num(FontSizeLimit)]),
         None)
  }

  /** The three rules the transform pushes, in the order it pushes them. */
  function StyleRules(config: Option<PluginOptions>): seq<Rule> {
    [ScssRule, CssRule, FontRule(FontsOutputLocationOf(config), FontsPublicPathOf(config))]
  }

  /** What the transform does to a configuration `v`. */
  function Update(v: ConfigValue, config: Option<PluginOptions>): (r: ConfigValue)
    // `module` exists afterwards and holds the old rules followed by the `.scss`, `.css` and font rules.
    ensures r.moduleOptions.Some? && RulesOf(r) == RulesOf(v) + [ScssRule, CssRule, FontRule(FontsOutputLocationOf(config), FontsPublicPathOf(config))]
    // `resolve.extensions` exists afterwards and is the old list with `.css` then `.scss` pushed where absent.
    ensures r.resolve.Some? && r.resolve.value.extensions.Some?
    ensures ExtensionsOf(r) == PushAllIfAbsent(ExtensionsOf(v), [CssExtension, ScssExtension])
    // Nothing else changes.
    ensures r.plugins == v.plugins && r.devServer == v.devServer && r.rest == v.rest
    ensures r.resolve.value.plugins == ResolveOf(v).plugins && r.resolve.value.rest == ResolveOf(v).rest
    ensures v.moduleOptions.Some? ==> r.moduleOptions.value.rest == v.moduleOptions.value.rest
  {
    AddExtensions(AppendRules(v, StyleRules(config)), [CssExtension, ScssExtension])
  }

  /** Both extensions are present afterwards, the old ones stay first, nothing else is added,
      and a duplicate-free list stays so. */
  lemma ExtensionsAfterUpdate(v: ConfigValue, config: Option<PluginOptions>)
    ensures var after := ExtensionsOf(Update(v, config));
      && CssExtension in after && ScssExtension in after
      && |ExtensionsOf(v)| <= |after| && after[..|ExtensionsOf(v)|] == ExtensionsOf(v)
      && (forall e | e in after :: e in ExtensionsOf(v) || e == CssExtension || e == ScssExtension)
      && (NoDuplicates(ExtensionsOf(v)) ==> NoDuplicates(after))
  {
    var news := [CssExtension, ScssExtension];
    PushAllIfAbsentContents(ExtensionsOf(v), news);
    assert CssExtension in news && ScssExtension in news;
  }

  /** The extensions grow by exactly those of `.css` and `.scss` that were missing, `.css` first. */
  lemma ExtensionOrder(v: ConfigValue, config: Option<PluginOptions>)
    ensures ExtensionsOf(Update(v, config)) == ExtensionsOf(v) + Missing(ExtensionsOf(v), [CssExtension, ScssExtension])
  {
    assert NoDuplicates([CssExtension, ScssExtension]);
    PushAllIfAbsentMissing(ExtensionsOf(v), [CssExtension, ScssExtension]);
  }

  /** Without options the fonts go to `./assets/fonts/[name].[ext]`, served from `./`, inlined up to 10000 bytes. */
  lemma DefaultFontRule(v: ConfigValue)
    ensures var rules := RulesOf(Update(v, None));
      && |rules| == |RulesOf(v)| + 3
      && rules[|rules| - 1].loader == Some("url-loader")
      && rules[|rules| - 1].options == Some(map["name" := Str("./assets/fonts/[name].[ext]"), "publicPath" := Str("./"), "limit" := Num(10000)])
  {
    var rules := RulesOf(Update(v, None));
    var font := FontRule(FontsOutputLocation, PublicPath);
    assert rules == RulesOf(v) + [ScssRule, CssRule, font];
    assert rules[|rules| - 1] == font;
    DefaultFontName();
  }

  /** The default font file name pattern, spelled out. */
  lemma DefaultFontName()
    ensures FontsOutputLocation + "/[name].[ext]" == "./assets/fonts/[name].[ext]"
  {
    var name := FontsOutputLocation + "/[name].[ext]";
    assert name[..14] == "./assets/fonts";
    assert name[14..] == "/[name].[ext]";
  }

  /** A second application pushes three more rules (rules are not de-duplicated), but leaves the extensions as they were. */
  lemma UpdateTwice(v: ConfigValue, config: Option<PluginOptions>)
    ensures var once := Update(v, config);
      var twice := Update(once, config);
      && RulesOf(twice) == RulesOf(once) + StyleRules(config)
      && ExtensionsOf(twice) == ExtensionsOf(once)
  {
    PushAllIfAbsentIdempotent(ExtensionsOf(v), [CssExtension, ScssExtension]);
  }

  /** The transform: mutates `webpack` in place and returns it. */
  method Transform(webpack: Configuration, config: Option<PluginOptions>) returns (r: Configuration)
    modifies webpack
    ensures r == webpack
    ensures webpack.Snapshot() == Update(old(webpack.Snapshot()), config)
  {
    if webpack.moduleOptions.None? {
      webpack.moduleOptions := Some(ModuleOptions([], map[]));
    }
    var fontsOutputLocation := FontsOutputLocationOf(config);
    var fontsPublicPath := FontsPublicPathOf(config);
    webpack.moduleOptions := Some(webpack.moduleOptions.value.(
      rules := webpack.moduleOptions.value.rules + [ScssRule, CssRule, FontRule(fontsOutputLocation, fontsPublicPath)]));

    AddStyleExtensions(webpack);
    r := webpack;
  }

  /** The end of the transform: `resolve` and `resolve.extensions` created if missing, then
      `.css` and `.scss` each pushed unless `indexOf` finds it. */
  method AddStyleExtensions(webpack: Configuration)
    modifies webpack
    ensures webpack.Snapshot() == AddExtensions(old(webpack.Snapshot()), [CssExtension, ScssExtension])
  {
    ghost var v := webpack.Snapshot();
    if webpack.resolve.None? {
      webpack.resolve := Some(ResolveOptions(None, None, map[]));
    }
    if webpack.resolve.value.extensions.None? {
      webpack.resolve := Some(webpack.resolve.value.(extensions := Some([])));
    }
    var extensions := webpack.resolve.value.extensions.value;
    extensions := PushIfAbsent(extensions, CssExtension);
    extensions := PushIfAbsent(extensions, ScssExtension);
    PushAllIfAbsentTwo(ExtensionsOf(v), CssExtension, ScssExtension);
    webpack.resolve := Some(webpack.resolve.value.(extensions := Some(extensions)));
  }
}
