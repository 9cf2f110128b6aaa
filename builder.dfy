/** The builder: it holds one configuration object and passes it through the transforms it is
    given, either directly (`update`) or produced by a plugin factory from its options (`use`). */
module Builder {
  import opened Wrappers
  import opened Webpack
  import TypeScriptPlugin
  import StylesPlugin
  import WebDevPlugin
  import ImagesPlugin
  import HtmlPlugin
  import CopyPlugin
  import WriteFilePlugin
  import CleanPlugin

  /** The plugin factories of the repository. */
  datatype Plugin = TypeScript | Styles | WebDev | Images | Html | Copy | WriteFile | Clean

  /** A transform `(webpack) => webpack`: the one a factory returns for its options, project
      directory and (for the TypeScript plugin) loaded `tsconfig.json`, or a caller's callback,
      which rewrites the object's contents and then returns it or throws. */
  datatype UpdateHandler =
    | PluginTransform(plugin: Plugin, config: Option<PluginOptions>, projectDirectory: Option<string>,
                      tsConfig: Option<TypeScriptPlugin.Tsconfig>)
    | Callback(f: ConfigValue -> Completion)

  /** What running a transform does to the contents of the object it is given. Of the plugins,
      only the TypeScript one can throw. */
  function Apply(h: UpdateHandler, v: ConfigValue): (c: Completion)
    ensures h.PluginTransform? && h.plugin != TypeScript ==> c.Returned?
  {
    match h
    case Callback(f) => f(v)
    case PluginTransform(plugin, config, projectDirectory, tsConfig) =>
      match plugin
      case TypeScript => TypeScriptPlugin.Update(v, config, projectDirectory, tsConfig)
      case Styles => Returned(StylesPlugin.Update(v, config))
      case WebDev => Returned(WebDevPlugin.Update(v, config, projectDirectory))
      case Images => Returned(ImagesPlugin.Update(v))
      case Html => Returned(HtmlPlugin.Update(v))
      case Copy => Returned(CopyPlugin.Update(v))
      case WriteFile => Returned(WriteFilePlugin.Update(v))
      case Clean => Returned(CleanPlugin.Update(v))
  }

  /** Calls a transform on `webpack`. A plugin transform mutates the object and returns it or
      throws; a callback overwrites its contents and then returns it or throws. */
  method Run(h: UpdateHandler, webpack: Configuration) returns (r: Configuration, thrown: Option<string>)
    modifies webpack
    ensures r == webpack
    ensures webpack.Snapshot() == Apply(h, old(webpack.Snapshot())).state
    ensures thrown == Exception(Apply(h, old(webpack.Snapshot())))
  {
    thrown := None;
    match h
    case Callback(f) =>
      var c := f(webpack.Snapshot());
      webpack.Assign(c.state);
      thrown := Exception(c);
      r := webpack;
    case PluginTransform(plugin, config, projectDirectory, tsConfig) =>
      match plugin
      case TypeScript => r, thrown := TypeScriptPlugin.Transform(webpack, config, projectDirectory, tsConfig);
      case Styles => r := StylesPlugin.Transform(webpack, config);
      case WebDev => r := WebDevPlugin.Transform(webpack, config, projectDirectory);
      case Images => r := ImagesPlugin.Transform(webpack);
      case Html => r := HtmlPlugin.Transform(webpack);
      case Copy => r := CopyPlugin.Transform(webpack);
      case WriteFile => r := WriteFilePlugin.Transform(webpack);
      case Clean => r := CleanPlugin.Transform(webpack);
  }

  /** A chain of `update`/`use` calls: the transforms applied left to right, stopping at the first
      one that throws (the chain is aborted there, with the object as that transform left it). */
  function Fold(hs: seq<UpdateHandler>, v: ConfigValue): Completion
    decreases |hs|
  {
    if hs == [] then Returned(v)
    else
      var c := Apply(hs[0], v);
      if c.Threw? then c else Fold(hs[1..], c.state)
  }

  /** One more call at the end of a chain acts on what the chain produced, unless the chain already threw. */
  lemma {:induction false} FoldSnoc(hs: seq<UpdateHandler>, h: UpdateHandler, v: ConfigValue)
    ensures var c := Fold(hs, v);
      Fold(hs + [h], v) == if c.Threw? then c else Apply(h, c.state)
    decreases |hs|
  {
    if hs == [] {
      assert [h][1..] == [];
    } else {
      assert (hs + [h])[1..] == hs[1..] + [h];
      var c := Apply(hs[0], v);
      if !c.Threw? {
        FoldSnoc(hs[1..], h, c.state);
      }
    }
  }

  /** Once a prefix of a chain has thrown, the rest of the chain is never run. */
  lemma {:induction false} FoldThrewPrefix(hs: seq<UpdateHandler>, k: nat, v: ConfigValue)
    requires k <= |hs| && Fold(hs[..k], v).Threw?
    ensures Fold(hs, v) == Fold(hs[..k], v)
    decreases k
  {
    if k == 0 {
      assert false;
    } else {
      assert hs[..k][0] == hs[0] && hs[..k][1..] == hs[1..][..k - 1];
      var c := Apply(hs[0], v);
      if !c.Threw? {
        FoldThrewPrefix(hs[1..], k - 1, c.state);
      }
    }
  }

  /** A chain of plugins without the TypeScript plugin never throws. */
  lemma {:induction false} FoldReturnsWithoutTypeScript(hs: seq<UpdateHandler>, v: ConfigValue)
    requires forall i | 0 <= i < |hs| :: hs[i].PluginTransform? && hs[i].plugin != TypeScript
    ensures Fold(hs, v).Returned?
    decreases |hs|
  {
    if hs != [] {
      assert hs[0].PluginTransform? && hs[0].plugin != TypeScript;
      FoldReturnsWithoutTypeScript(hs[1..], Apply(hs[0], v).state);
    }
  }

  /** The lists the plugins only ever append to, and the keys they never touch, as a relation
      between a configuration and a later one. */
  ghost predicate Grows(v: ConfigValue, w: ConfigValue) {
    && |PluginsOf(v)| <= |PluginsOf(w)| && PluginsOf(w)[..|PluginsOf(v)|] == PluginsOf(v)
    && |RulesOf(v)| <= |RulesOf(w)| && RulesOf(w)[..|RulesOf(v)|] == RulesOf(v)
    && |ResolvePluginsOf(v)| <= |ResolvePluginsOf(w)| && ResolvePluginsOf(w)[..|ResolvePluginsOf(v)|] == ResolvePluginsOf(v)
    && |ExtensionsOf(v)| <= |ExtensionsOf(w)| && ExtensionsOf(w)[..|ExtensionsOf(v)|] == ExtensionsOf(v)
    && (NoDuplicates(ExtensionsOf(v)) ==> NoDuplicates(ExtensionsOf(w)))
    && w.rest == v.rest
  }

  lemma GrowsTransitive(u: ConfigValue, v: ConfigValue, w: ConfigValue)
    requires Grows(u, v) && Grows(v, w)
    ensures Grows(u, w)
  {
  }

  lemma GrowsReflexive(v: ConfigValue)
    ensures Grows(v, v)
  {
  }

  /** Every plugin transform only appends (plugin entries, rules, resolver entries, extensions
      that were absent) and never touches the keys it does not know, whether or not it throws;
      only the development-server plugin writes `devServer`. */
  lemma ApplyGrows(h: UpdateHandler, v: ConfigValue)
    requires h.PluginTransform?
    ensures Grows(v, Apply(h, v).state)
    ensures h.plugin != WebDev ==> Apply(h, v).state.devServer == v.devServer
  {
    match h.plugin
    case TypeScript => TypeScriptGrows(v, h.config, h.projectDirectory, h.tsConfig);
    case Styles => StylesGrows(v, h.config);
    case WebDev => WebDevGrows(v, h.config, h.projectDirectory);
    case Images => AppendRulesGrows(v, [ImagesPlugin.ImageRule]);
    case Html => AppendPluginGrows(v, HtmlPlugin.HtmlEntry);
    case Copy => AppendPluginGrows(v, CopyPlugin.CopyEntry);
    case WriteFile => AppendPluginGrows(v, WriteFileWebpackPlugin);
    case Clean => AppendPluginGrows(v, CleanWebpackPlugin);
  }

  lemma TypeScriptGrows(v: ConfigValue, config: Option<PluginOptions>, projectDirectory: Option<string>,
                        tsConfig: Option<TypeScriptPlugin.Tsconfig>)
    ensures var w := TypeScriptPlugin.Update(v, config, projectDirectory, tsConfig).state;
      Grows(v, w) && w.devServer == v.devServer
  {
    TypeScriptPlugin.UpdateEffects(v, config, projectDirectory, tsConfig);
    var c := TypeScriptPlugin.Update(v, config, projectDirectory, tsConfig);
    if c.Returned? {
      TypeScriptPlugin.ExtensionsAfterUpdate(v, config, projectDirectory, tsConfig);
    } else {
      assert ExtensionsOf(c.state) == ExtensionsOf(v);
      assert ExtensionsOf(c.state)[..|ExtensionsOf(v)|] == ExtensionsOf(v);
    }
  }

  lemma StylesGrows(v: ConfigValue, config: Option<PluginOptions>)
    ensures var w := StylesPlugin.Update(v, config);
      Grows(v, w) && w.devServer == v.devServer
  {
    var w := StylesPlugin.Update(v, config);
    StylesPlugin.ExtensionsAfterUpdate(v, config);
    assert ResolvePluginsOf(w) == ResolvePluginsOf(v);
    assert PluginsOf(w)[..|PluginsOf(v)|] == PluginsOf(v);
    assert ResolvePluginsOf(w)[..|ResolvePluginsOf(v)|] == ResolvePluginsOf(v);
    assert RulesOf(w)[..|RulesOf(v)|] == RulesOf(v);
  }

  lemma WebDevGrows(v: ConfigValue, config: Option<PluginOptions>, projectDirectory: Option<string>)
    ensures Grows(v, WebDevPlugin.Update(v, config, projectDirectory))
  {
  }

  lemma AppendPluginGrows(v: ConfigValue, entry: PluginEntry)
    ensures var w := AppendPlugin(v, entry);
      Grows(v, w) && w.devServer == v.devServer
  {
  }

  lemma AppendRulesGrows(v: ConfigValue, rules: seq<Rule>)
    ensures var w := AppendRules(v, rules);
      Grows(v, w) && w.devServer == v.devServer
  {
  }

  /** A chain made of plugin transforms only appends and keeps the keys no plugin knows, whether
      it completes or aborts; without the development-server plugin it keeps `devServer` too. */
  lemma {:induction false} FoldGrows(hs: seq<UpdateHandler>, v: ConfigValue)
    requires forall i | 0 <= i < |hs| :: hs[i].PluginTransform?
    ensures Grows(v, Fold(hs, v).state)
    ensures (forall i | 0 <= i < |hs| :: hs[i].plugin != WebDev) ==> Fold(hs, v).state.devServer == v.devServer
    decreases |hs|
  {
    if hs == [] {
      GrowsReflexive(v);
    } else {
      var c := Apply(hs[0], v);
      ApplyGrows(hs[0], v);
      if !c.Threw? {
        FoldGrows(hs[1..], c.state);
        GrowsTransitive(v, c.state, Fold(hs[1..], c.state).state);
      }
    }
  }

  /** The plugins that take no options produce the same transform whatever they are given. */
  lemma OptionsIgnored(plugin: Plugin, v: ConfigValue,
                       c1: Option<PluginOptions>, d1: Option<string>, t1: Option<TypeScriptPlugin.Tsconfig>,
                       c2: Option<PluginOptions>, d2: Option<string>, t2: Option<TypeScriptPlugin.Tsconfig>)
    requires plugin in {Images, Html, Copy, WriteFile, Clean}
    ensures Apply(PluginTransform(plugin, c1, d1, t1), v) == Apply(PluginTransform(plugin, c2, d2, t2), v)
  {
  }

  /** The last development-server transform of a chain decides `devServer`: whatever came
      before, it is the default record or the options' `devServer`. */
  lemma DevServerLastWriterWins(hs: seq<UpdateHandler>, config: Option<PluginOptions>, projectDirectory: Option<string>,
                                tsConfig: Option<TypeScriptPlugin.Tsconfig>, v: ConfigValue)
    requires Fold(hs, v).Returned?
    ensures var c := Fold(hs + [PluginTransform(WebDev, config, projectDirectory, tsConfig)], v);
      && c.Returned?
      && c.state.devServer == (if config.Some? then config.value.devServer else Some(WebDevPlugin.DefaultDevServer(projectDirectory)))
  {
    FoldSnoc(hs, PluginTransform(WebDev, config, projectDirectory, tsConfig), v);
  }

  /** The builder. */
  class Builder {
    var configuration: Configuration

    /** `new Builder(configuration = {})`: holds the object it is given, or a new empty one. */
    constructor (configuration: Option<Configuration>)
      ensures configuration.Some? ==> this.configuration == configuration.value
      ensures configuration.None? ==> fresh(this.configuration) && this.configuration.Snapshot() == EmptyConfig
    {
      if configuration.Some? {
        this.configuration := configuration.value;
      } else {
        this.configuration := new Configuration(EmptyConfig);
      }
    }

    /** `update(callback)`: the held object goes through the transform, which mutates it and
        returns it, so the builder holds the same object; the builder itself is returned for
        chaining. When the transform throws the error propagates (`Failure`), and the object
        keeps the changes made before the throw. */
    method Update(callback: UpdateHandler) returns (r: Result<Builder>)
      modifies this, configuration
      ensures configuration == old(configuration)
      ensures configuration.Snapshot() == Apply(callback, old(configuration.Snapshot())).state
      ensures var c := Apply(callback, old(configuration.Snapshot()));
        && (c.Returned? ==> r == Success(this))
        && (c.Threw? ==> r == Failure(c.message))
    {
      var next, thrown := Run(callback, configuration);
      if thrown.Some? {
        return Failure(thrown.value);
      }
      configuration := next;
      r := Success(this);
    }

    /** `use(plugin, config)`: exactly `update(plugin(config))`. The factory is called with the
        options alone, so its project directory is undefined. Node's `path.resolve` rejects an
        undefined directory, so with the TypeScript plugin the factory itself throws a
        `TypeError` before any transform exists, and the web-dev transform throws one after
        initialising `devServer`; the model keeps the path symbolic and does not reach those
        errors. */
    method Use(plugin: Plugin, config: Option<PluginOptions>, tsConfig: Option<TypeScriptPlugin.Tsconfig>)
      returns (r: Result<Builder>)
      modifies this, configuration
      ensures configuration == old(configuration)
      ensures configuration.Snapshot() == Apply(PluginTransform(plugin, config, None, tsConfig), old(configuration.Snapshot())).state
      ensures var c := Apply(PluginTransform(plugin, config, None, tsConfig), old(configuration.Snapshot()));
        && (c.Returned? ==> r == Success(this))
        && (c.Threw? ==> r == Failure(c.message))
    {
      r := Update(PluginTransform(plugin, config, None, tsConfig));
    }

    /** `toConfig()`: the held object, as it is; nothing is checked or changed. */
    method ToConfig() returns (c: Configuration)
      ensures c == configuration
    {
      c := configuration;
    }
  }

  /** A caller's chain `b.update(hs[0]).update(hs[1])...`, stopping at the first call that
      throws: afterwards the builder holds the same object, whose contents are the left fold of
      the transforms over what it held before, and the outcome is the fold's. */
  method Chain(b: Builder, hs: seq<UpdateHandler>) returns (r: Result<Builder>)
    modifies b, b.configuration
    ensures b.configuration == old(b.configuration)
    ensures var c := Fold(hs, old(b.configuration.Snapshot()));
      && b.configuration.Snapshot() == c.state
      && (c.Returned? ==> r == Success(b))
      && (c.Threw? ==> r == Failure(c.message))
  {
    ghost var v0 := b.configuration.Snapshot();
    r := Success(b);
    var i := 0;
    while i < |hs|
      invariant 0 <= i <= |hs|
      invariant b.configuration == old(b.configuration)
      invariant Fold(hs[..i], v0).Returned?
      invariant b.configuration.Snapshot() == Fold(hs[..i], v0).state
      invariant r == Success(b)
    {
      FoldSnoc(hs[..i], hs[i], v0);
      assert hs[..i + 1] == hs[..i] + [hs[i]];
      var next := b.Update(hs[i]);
      if next.Failure? {
        FoldThrewPrefix(hs, i + 1, v0);
        return next;
      }
      i := i + 1;
    }
    assert hs[..i] == hs;
  }
}
