/** The transform returned by `TypeScriptPlugin`: a fork type-checker plugin, a `.tsx?` rule,
    the path-mapping resolver when the tsconfig has a usable `baseUrl`, and the script extensions. */
module TypeScriptPlugin {
  import opened Wrappers
  import opened Js
  import opened Webpack

  const TsExtension := ".ts"
  const TsxExtension := ".tsx"
  const JsExtension := ".js"
  const JsxExtension := ".jsx"

  const TsConfigName := "tsconfig.json"

  const BaseUrlMissingMessage := "Cannot add tsconfigPathsPluginOptions because baseUrl do not exist at " + TsConfigName

  /** The part of a loaded tsconfig the transform reads. `jsx` is any non-null setting. */
  datatype CompilerOptions = CompilerOptions(baseUrl: Option<string>, jsx: Option<string>)

  /** What `loadTsconfig` returned for `<projectDirectory>/tsconfig.json`. */
  datatype Tsconfig = Tsconfig(compilerOptions: Option<CompilerOptions>)

  /** The condition under which the path-mapping resolver is attached: a `baseUrl` that is
      present and not blank once trimmed. */
  function BaseUrlExists(tsConfig: Option<Tsconfig>): (b: bool)
    ensures b <==> tsConfig.Some? && tsConfig.value.compilerOptions.Some?
                   && tsConfig.value.compilerOptions.value.baseUrl.Some?
                   && !IsBlank(tsConfig.value.compilerOptions.value.baseUrl.value)
  {
    && tsConfig.Some?
    && tsConfig.value.compilerOptions.Some?
    && tsConfig.value.compilerOptions.value.baseUrl.Some?
    && |Trim(tsConfig.value.compilerOptions.value.baseUrl.value)| != 0
  }

  predicate JsxEnabled(tsConfig: Option<Tsconfig>) {
    tsConfig.Some? && tsConfig.value.compilerOptions.Some? && tsConfig.value.compilerOptions.value.jsx.Some?
  }

  predicate PathsOptionsGiven(config: Option<PluginOptions>) {
    config.Some? && config.value.tsconfigPathsPluginOptions.Some?
  }

  /** The extensions the transform makes sure of, in the order it pushes them. */
  function ScriptExtensions(tsConfig: Option<Tsconfig>): seq<string> {
    if JsxEnabled(tsConfig) then [TsExtension, TsxExtension, JsxExtension, JsExtension]
    else [TsExtension, JsExtension]
  }

  const ForkTsCheckerDefaults: Options := map["checkSyntacticErrors" := Bool(true), "tslint" := Bool(true)]

  /** The user's `forkTsCheckerOptions`, or `{}`. */
  function UserForkOptions(config: Option<PluginOptions>): Options {
    if config.Some? && config.value.forkTsCheckerOptions.Some? then config.value.forkTsCheckerOptions.value else map[]
  }

  /** The user's `tsconfigPathsPluginOptions`, or `{}`. */
  function UserPathsOptions(config: Option<PluginOptions>): Options {
    if PathsOptionsGiven(config) then config.value.tsconfigPathsPluginOptions.value else map[]
  }

  /** The fork checker's options: the defaults, each overridden by a user key of the same name. */
  function ForkTsCheckerOptions(config: Option<PluginOptions>): (o: Options)
    ensures o.Keys == ForkTsCheckerDefaults.Keys + UserForkOptions(config).Keys
    ensures forall k | k in UserForkOptions(config) :: o[k] == UserForkOptions(config)[k]
    ensures forall k | k in ForkTsCheckerDefaults && k !in UserForkOptions(config) :: o[k] == ForkTsCheckerDefaults[k]
  {
    ForkTsCheckerDefaults + UserForkOptions(config)
  }

  /** The resolver's options: `configFile` is the tsconfig path unless the user overrides it,
      and every user key is taken. */
  function TsconfigPathsOptions(config: Option<PluginOptions>, projectDirectory: Option<string>): (o: Options)
    ensures o.Keys == {"configFile"} + UserPathsOptions(config).Keys
    ensures forall k | k in UserPathsOptions(config) :: o[k] == UserPathsOptions(config)[k]
    ensures "configFile" !in UserPathsOptions(config) ==> o["configFile"] == ResolvedPath(projectDirectory, TsConfigName)
  {
    map["configFile" := ResolvedPath(projectDirectory, TsConfigName)] + UserPathsOptions(config)
  }

  /** The `.tsx?` rule: babel-loader then ts-loader, excluding `node_modules`. */
  const TsRule := Rule(
    Regex("\\.tsx?$"),
    Some([
      LoaderObject("babel-loader", map["babelrc" := Bool(true), "plugins" := Arr([Str("syntax-dynamic-import")])]),
      LoaderObject("ts-loader", map["happyPackMode" := Bool(true), "transpileOnly" := Bool(true)])
    ]),
    None,
    None,
    Some(Regex("node_modules")))

  /** The resolver entries the transform appends. */
  function PathResolvers(config: Option<PluginOptions>, projectDirectory: Option<string>, tsConfig: Option<Tsconfig>): seq<PluginEntry> {
    if BaseUrlExists(tsConfig) then [TsconfigPathsPlugin(TsconfigPathsOptions(config, projectDirectory))] else []
  }

  /** What the transform does to a configuration `v`, given the factory's options, project
      directory and loaded tsconfig. */
  function Update(v: ConfigValue, config: Option<PluginOptions>, projectDirectory: Option<string>, tsConfig: Option<Tsconfig>): Completion
  {
    var withChecker := AppendPlugin(v, ForkTsCheckerWebpackPlugin(ForkTsCheckerOptions(config)));
    var withRule := AppendRules(withChecker, [TsRule]);
    var withResolvers := AppendResolvePlugins(withRule, PathResolvers(config, projectDirectory, tsConfig));
    if !BaseUrlExists(tsConfig) && PathsOptionsGiven(config) then
      Threw(withResolvers, BaseUrlMissingMessage)
    else
      Returned(AddExtensions(withResolvers, ScriptExtensions(tsConfig)))
  }

  /** The effect of the transform on every part of the configuration. */
  lemma UpdateEffects(v: ConfigValue, config: Option<PluginOptions>, projectDirectory: Option<string>, tsConfig: Option<Tsconfig>)
    ensures var c := Update(v, config, projectDirectory, tsConfig);
      // One fork checker entry is appended, whether or not the call throws.
      && c.state.plugins.Some? && PluginsOf(c.state) == PluginsOf(v) + [ForkTsCheckerWebpackPlugin(ForkTsCheckerOptions(config))]
      // One `.tsx?` rule is appended after the existing rules, whether or not the call throws.
      && c.state.moduleOptions.Some? && RulesOf(c.state) == RulesOf(v) + [TsRule]
      // The path-mapping resolver is appended if and only if the baseUrl is usable.
      && c.state.resolve.Some? && c.state.resolve.value.plugins.Some?
      && |ResolvePluginsOf(c.state)| == |ResolvePluginsOf(v)| + (if BaseUrlExists(tsConfig) then 1 else 0)
      && ResolvePluginsOf(c.state)[..|ResolvePluginsOf(v)|] == ResolvePluginsOf(v)
      && (BaseUrlExists(tsConfig) ==> ResolvePluginsOf(c.state)[|ResolvePluginsOf(v)|] == TsconfigPathsPlugin(TsconfigPathsOptions(config, projectDirectory)))
      // Path-mapping options without a usable baseUrl throw, before the extensions are touched.
      && (c.Threw? <==> !BaseUrlExists(tsConfig) && PathsOptionsGiven(config))
      && (c.Threw? ==> c.message == BaseUrlMissingMessage && c.state.resolve.value.extensions == ResolveOf(v).extensions)
      // Otherwise the script extensions are pushed where absent.
      && (c.Returned? ==> ExtensionsOf(c.state) == PushAllIfAbsent(ExtensionsOf(v), ScriptExtensions(tsConfig)))
      // Nothing else changes.
      && c.state.devServer == v.devServer && c.state.rest == v.rest
      && c.state.resolve.value.rest == ResolveOf(v).rest
      && (v.moduleOptions.Some? ==> c.state.moduleOptions.value.rest == v.moduleOptions.value.rest)
  {
  }

  /** On success `.ts` and `.js` are present, `.tsx` and `.jsx` too when `jsx` is set, the old
      extensions stay first, nothing but these four is added, and a duplicate-free list stays so. */
  lemma ExtensionsAfterUpdate(v: ConfigValue, config: Option<PluginOptions>, projectDirectory: Option<string>, tsConfig: Option<Tsconfig>)
    requires Update(v, config, projectDirectory, tsConfig).Returned?
    ensures var after := ExtensionsOf(Update(v, config, projectDirectory, tsConfig).state);
      && TsExtension in after && JsExtension in after
      && (JsxEnabled(tsConfig) ==> TsxExtension in after && JsxExtension in after)
      && |ExtensionsOf(v)| <= |after| && after[..|ExtensionsOf(v)|] == ExtensionsOf(v)
      && (forall e | e in after :: e in ExtensionsOf(v) || e in [TsExtension, TsxExtension, JsxExtension, JsExtension])
      && (NoDuplicates(ExtensionsOf(v)) ==> NoDuplicates(after))
  {
    var news := ScriptExtensions(tsConfig);
    PushAllIfAbsentContents(ExtensionsOf(v), news);
    assert TsExtension in news && JsExtension in news;
    assert JsxEnabled(tsConfig) ==> TsxExtension in news && JsxExtension in news;
  }

  /** On success the extensions grow by exactly the script extensions that were missing, in the
      order `.ts`, `.tsx`, `.jsx`, `.js` (the middle two only when `jsx` is set). */
  lemma ExtensionOrder(v: ConfigValue, config: Option<PluginOptions>, projectDirectory: Option<string>, tsConfig: Option<Tsconfig>)
    requires Update(v, config, projectDirectory, tsConfig).Returned?
    ensures ExtensionsOf(Update(v, config, projectDirectory, tsConfig).state)
            == ExtensionsOf(v) + Missing(ExtensionsOf(v), ScriptExtensions(tsConfig))
  {
    UpdateEffects(v, config, projectDirectory, tsConfig);
    ScriptExtensionsMissing(ExtensionsOf(v), tsConfig);
  }

  lemma ScriptExtensionsMissing(xs: seq<string>, tsConfig: Option<Tsconfig>)
    ensures PushAllIfAbsent(xs, ScriptExtensions(tsConfig)) == xs + Missing(xs, ScriptExtensions(tsConfig))
  {
    assert NoDuplicates(ScriptExtensions(tsConfig));
    PushAllIfAbsentMissing(xs, ScriptExtensions(tsConfig));
  }

  /** When none of them is present yet, all the script extensions are appended, in order. */
  lemma ExtensionOrderAllNew(v: ConfigValue, config: Option<PluginOptions>, projectDirectory: Option<string>, tsConfig: Option<Tsconfig>)
    requires Update(v, config, projectDirectory, tsConfig).Returned?
    requires forall e | e in ScriptExtensions(tsConfig) :: e !in ExtensionsOf(v)
    ensures ExtensionsOf(Update(v, config, projectDirectory, tsConfig).state) == ExtensionsOf(v) + ScriptExtensions(tsConfig)
  {
    ScriptExtensionsFresh(ExtensionsOf(v), tsConfig);
  }

  lemma ScriptExtensionsFresh(xs: seq<string>, tsConfig: Option<Tsconfig>)
    requires forall e | e in ScriptExtensions(tsConfig) :: e !in xs
    ensures PushAllIfAbsent(xs, ScriptExtensions(tsConfig)) == xs + ScriptExtensions(tsConfig)
  {
    var news := ScriptExtensions(tsConfig);
    assert NoDuplicates(news);
    PushAllIfAbsentFresh(xs, news);
  }

  /** A second successful application leaves `resolve.extensions` as the first one left it. */
  lemma UpdateTwiceExtensions(v: ConfigValue, config: Option<PluginOptions>, projectDirectory: Option<string>, tsConfig: Option<Tsconfig>)
    requires Update(v, config, projectDirectory, tsConfig).Returned?
    ensures var once := Update(v, config, projectDirectory, tsConfig).state;
      ExtensionsOf(Update(once, config, projectDirectory, tsConfig).state) == ExtensionsOf(once)
  {
    PushAllIfAbsentIdempotent(ExtensionsOf(v), ScriptExtensions(tsConfig));
  }

  /** The transform itself: it mutates `webpack` step by step as the source does, returns it,
      or throws (`thrown` holds the message) after the checker, the rule and the resolver
      initialisation have already been applied. */
  method Transform(webpack: Configuration, config: Option<PluginOptions>, projectDirectory: Option<string>, tsConfig: Option<Tsconfig>)
    returns (r: Configuration, thrown: Option<string>)
    modifies webpack
    ensures r == webpack
    ensures var c := Update(old(webpack.Snapshot()), config, projectDirectory, tsConfig);
      webpack.Snapshot() == c.state && thrown == Exception(c)
  {
    r, thrown := webpack, None;
    AttachChecker(webpack, config);
    AttachRule(webpack);
    var baseUrlExist := AttachPathResolver(webpack, config, projectDirectory, tsConfig);

    if !baseUrlExist && config.Some? && config.value.tsconfigPathsPluginOptions.Some? {
      thrown := Some(BaseUrlMissingMessage);
      return;
    }

    AddScriptExtensions(webpack, tsConfig);
  }

  /** The start of the transform: `plugins` created if missing, then the fork checker pushed with
      the factory's `forkTsCheckerOptions` spread over the defaults. */
  method AttachChecker(webpack: Configuration, config: Option<PluginOptions>)
    modifies webpack
    ensures webpack.Snapshot() == AppendPlugin(old(webpack.Snapshot()), ForkTsCheckerWebpackPlugin(ForkTsCheckerOptions(config)))
  {
    if webpack.plugins.None? {
      webpack.plugins := Some([]);
    }
    var forkTsConfig: Options := map[];
    if config.Some? && config.value.forkTsCheckerOptions.Some? {
      forkTsConfig := config.value.forkTsCheckerOptions.value;
    }
    webpack.plugins := Some(webpack.plugins.value + [ForkTsCheckerWebpackPlugin(ForkTsCheckerDefaults + forkTsConfig)]);
  }

  /** `module` and `module.rules` created if missing, then the `.tsx?` rule pushed. */
  method AttachRule(webpack: Configuration)
    modifies webpack
    ensures webpack.Snapshot() == AppendRules(old(webpack.Snapshot()), [TsRule])
  {
    if webpack.moduleOptions.None? {
      webpack.moduleOptions := Some(ModuleOptions([], map[]));
    }
    webpack.moduleOptions := Some(webpack.moduleOptions.value.(rules := webpack.moduleOptions.value.rules + [TsRule]));
  }

  /** The middle of the transform: `resolve` and `resolve.plugins` created if missing, then the
      path-mapping resolver pushed when the baseUrl is usable; the result is the `baseURLExist` flag. */
  method AttachPathResolver(webpack: Configuration, config: Option<PluginOptions>, projectDirectory: Option<string>, tsConfig: Option<Tsconfig>)
    returns (baseUrlExist: bool)
    modifies webpack
    ensures webpack.Snapshot() == AppendResolvePlugins(old(webpack.Snapshot()), PathResolvers(config, projectDirectory, tsConfig))
    ensures baseUrlExist == BaseUrlExists(tsConfig)
  {
    baseUrlExist := false;
    if webpack.resolve.None? {
      webpack.resolve := Some(ResolveOptions(None, None, map[]));
    }
    if webpack.resolve.value.plugins.None? {
      webpack.resolve := Some(webpack.resolve.value.(plugins := Some([])));
    }
    if && tsConfig.Some?
       && tsConfig.value.compilerOptions.Some?
       && tsConfig.value.compilerOptions.value.baseUrl.Some?
       && |Trim(tsConfig.value.compilerOptions.value.baseUrl.value)| != 0
    {
      var configToSpread: Options := map[];
      if config.Some? && config.value.tsconfigPathsPluginOptions.Some? {
        configToSpread := config.value.tsconfigPathsPluginOptions.value;
      }
      var defaultOptions := map["configFile" := ResolvedPath(projectDirectory, TsConfigName)] + configToSpread;
      webpack.resolve := Some(webpack.resolve.value.(plugins := Some(webpack.resolve.value.plugins.value + [TsconfigPathsPlugin(defaultOptions)])));
      baseUrlExist := true;
    } else {
      assert webpack.resolve.value.plugins.value + [] == webpack.resolve.value.plugins.value;
    }
  }

  /** The end of the transform: `resolve.extensions` created if missing, then `.ts`, `.tsx` and
      `.jsx` (when `jsx` is set) and `.js` each pushed unless `indexOf` finds it. */
  method AddScriptExtensions(webpack: Configuration, tsConfig: Option<Tsconfig>)
    requires webpack.resolve.Some?
    modifies webpack
    ensures webpack.Snapshot() == AddExtensions(old(webpack.Snapshot()), ScriptExtensions(tsConfig))
  {
    ghost var v := webpack.Snapshot();
    if webpack.resolve.value.extensions.None? {
      webpack.resolve := Some(webpack.resolve.value.(extensions := Some([])));
    }
    var extensions := webpack.resolve.value.extensions.value;
    extensions := PushIfAbsent(extensions, TsExtension);
    if tsConfig.Some? && tsConfig.value.compilerOptions.Some? {
      if tsConfig.value.compilerOptions.value.jsx.Some? {
        extensions := PushIfAbsent(extensions, TsxExtension);
        extensions := PushIfAbsent(extensions, JsxExtension);
      }
    }
    extensions := PushIfAbsent(extensions, JsExtension);
    if JsxEnabled(tsConfig) {
      PushAllIfAbsentFour(ExtensionsOf(v), TsExtension, TsxExtension, JsxExtension, JsExtension);
    } else {
      PushAllIfAbsentTwo(ExtensionsOf(v), TsExtension, JsExtension);
    }
    webpack.resolve := Some(webpack.resolve.value.(extensions := Some(extensions)));
  }
}
