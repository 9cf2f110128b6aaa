/** The write-file plugin: one `WriteFileWebpackPlugin` entry, which makes the development server write its bundles to disk. */
module WriteFilePlugin {
  import opened Wrappers
  import opened Webpack

  /** What the transform does to a configuration `v`: `plugins` exists afterwards and holds the
      old entries, unchanged and in order, followed by one WriteFileWebpackPlugin; nothing else changes. */
  function Update(v: ConfigValue): (r: ConfigValue)
    ensures r.plugins.Some? && PluginsOf(r) == PluginsOf(v) + [WriteFileWebpackPlugin]
    ensures r.(plugins := v.plugins) == v
  {
    AppendPlugin(v, WriteFileWebpackPlugin)
  }

  /** Each application pushes its own entry: entries are not de-duplicated. */
  lemma UpdateTwice(v: ConfigValue)
    ensures PluginsOf(Update(Update(v))) == PluginsOf(v) + [WriteFileWebpackPlugin, WriteFileWebpackPlugin]
  {
  }

  /** The transform: `plugins` created if missing, the entry pushed, `webpack` returned. */
  method Transform(webpack: Configuration) returns (r: Configuration)
    modifies webpack
    ensures r == webpack
    ensures webpack.Snapshot() == Update(old(webpack.Snapshot()))
  {
    if webpack.plugins.None? {
      webpack.plugins := Some([]);
    }
    webpack.plugins := Some(webpack.plugins.value + [WriteFileWebpackPlugin]);
    r := webpack;
  }
}
