/** The clean plugin: one `CleanWebpackPlugin` entry, which empties the output directory before a build. */
module CleanPlugin {
  import opened Wrappers
  import opened Webpack

  /** What the transform does to a configuration `v`: `plugins` exists afterwards and holds the
      old entries, unchanged and in order, followed by one CleanWebpackPlugin; nothing else changes. */
  function Update(v: ConfigValue): (r: ConfigValue)
    ensures r.plugins.Some? && PluginsOf(r) == PluginsOf(v) + [CleanWebpackPlugin]
    ensures r.(plugins := v.plugins) == v
  {
    AppendPlugin(v, CleanWebpackPlugin)
  }

  /** Each application pushes its own entry: entries are not de-duplicated. */
  lemma UpdateTwice(v: ConfigValue)
    ensures PluginsOf(Update(Update(v))) == PluginsOf(v) + [CleanWebpackPlugin, CleanWebpackPlugin]
  {
  }

  /** The transform: `plugins` created if missing, the entry pushed, `webpack` returned. */
  method Transform(webpack: Configuration) returns (r: Configuration)
    modifies webpack
    ensures r == webpack
    ensures webpack.Snapshot() == Update(old(webpack.Snapshot()))
  {
    if webpack.plugins.None? {
      webpack.plugins := Some([]);
    }
    webpack.plugins := Some(webpack.plugins.value + [CleanWebpackPlugin]);
    r := webpack;
  }
}
