/** The development-server plugin: it sets `devServer` to a default record, or to the
    `devServer` the options carry. */
module WebDevPlugin {
  import opened Wrappers
  import opened Webpack

  const Host := "0.0.0.0"
  const DefaultPort := 3000
  const DefaultOutputLocation := "./dist"

  /** The record used when no options are given; `contentBase` is the project directory
      resolved with `./dist`. */
  function DefaultDevServer(projectDirectory: Option<string>): Options {
    map[
      "contentBase" := ResolvedPath(projectDirectory, DefaultOutputLocation),
      "compress" := Bool(true),
      "host" := Str(Host),
      "quiet" := Bool(false),
      "port" := Num(DefaultPort),
      "historyApiFallback" := Bool(true)
    ]
  }

  /** What the transform does to a configuration `v`. */
  function Update(v: ConfigValue, config: Option<PluginOptions>, projectDirectory: Option<string>): (r: ConfigValue)
    // Without options, the default record.
    ensures config.None? ==> r.devServer == Some(DefaultDevServer(projectDirectory))
    // With options, exactly their `devServer`, even when that is undefined.
    ensures config.Some? ==> r.devServer == config.value.devServer
    // Nothing else changes.
    ensures r.(devServer := v.devServer) == v
  {
    v.(devServer := if config.None? then Some(DefaultDevServer(projectDirectory)) else config.value.devServer)
  }

  /** The previous `devServer` plays no part: two configurations that differ only there end up equal. */
  lemma PreviousDevServerDiscarded(v: ConfigValue, w: ConfigValue, config: Option<PluginOptions>, projectDirectory: Option<string>)
    requires v.(devServer := None) == w.(devServer := None)
    ensures Update(v, config, projectDirectory) == Update(w, config, projectDirectory)
  {
  }

  /** The last application wins: applying the transform after any other application of it is
      the same as applying it alone. */
  lemma LastWriterWins(v: ConfigValue, first: Option<PluginOptions>, second: Option<PluginOptions>, projectDirectory: Option<string>)
    ensures Update(Update(v, first, projectDirectory), second, projectDirectory) == Update(v, second, projectDirectory)
  {
  }

  /** Options without a `devServer` key leave no development server at all. */
  lemma OptionsWithoutDevServer(v: ConfigValue, config: PluginOptions, projectDirectory: Option<string>)
    requires config.devServer.None?
    ensures Update(v, Some(config), projectDirectory).devServer.None?
  {
  }

  /** Without options the server listens on 0.0.0.0:3000, compresses, is not quiet, falls back to
      `index.html`, and serves `./dist` under the project directory. */
  lemma DefaultServer(v: ConfigValue, projectDirectory: Option<string>)
    ensures var d := Update(v, None, projectDirectory).devServer;
      && d.Some?
      && d.value["port"] == Num(3000) && d.value["host"] == Str("0.0.0.0")
      && d.value["compress"] == Bool(true) && d.value["quiet"] == Bool(false)
      && d.value["historyApiFallback"] == Bool(true)
      && d.value["contentBase"] == ResolvedPath(projectDirectory, "./dist")
      && d.value.Keys == {"contentBase", "compress", "host", "quiet", "port", "historyApiFallback"}
  {
  }

  /** The transform: `devServer` initialised to `{}` if missing, then overwritten; returns `webpack`. */
  method Transform(webpack: Configuration, config: Option<PluginOptions>, projectDirectory: Option<string>) returns (r: Configuration)
    modifies webpack
    ensures r == webpack
    ensures webpack.Snapshot() == Update(old(webpack.Snapshot()), config, projectDirectory)
  {
    if webpack.devServer.None? {
      webpack.devServer := Some(map[]);
    }
    var webDevServer := Some(DefaultDevServer(projectDirectory));
    if config.Some? {
      webDevServer := config.value.devServer;
    }
    webpack.devServer := webDevServer;
    r := webpack;
  }
}
