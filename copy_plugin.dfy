/** The copy plugin: one `CopyWebpackPlugin` entry copying the static content directory. */
module CopyPlugin {
  import opened Wrappers
  import opened Webpack

  const StaticContentDirectory := "./src/static"
  const StaticContentDirectoryOutput := "./static"

  const CopyEntry := CopyWebpackPlugin([CopyPattern(StaticContentDirectory, StaticContentDirectoryOutput)])

  /** What the transform does to a configuration `v`: `plugins` exists afterwards and holds the
      old entries followed by the copy entry; nothing else changes. */
  function Update(v: ConfigValue): (r: ConfigValue)
    ensures r.plugins.Some? && PluginsOf(r) == PluginsOf(v) + [CopyEntry]
    ensures r.(plugins := v.plugins) == v
  {
    AppendPlugin(v, CopyEntry)
  }

  /** The appended entry copies `./src/static` to `./static`, and only that. */
  lemma CopyEntryPatterns(v: ConfigValue)
    ensures var plugins := PluginsOf(Update(v));
      && |plugins| == |PluginsOf(v)| + 1
      && plugins[|plugins| - 1] == CopyWebpackPlugin([CopyPattern("./src/static", "./static")])
  {
  }

  /** Each application pushes its own entry: entries are not de-duplicated. */
  lemma UpdateTwice(v: ConfigValue)
    ensures PluginsOf(Update(Update(v))) == PluginsOf(v) + [CopyEntry, CopyEntry]
  {
  }

  /** The transform: `plugins` created if missing, the entry pushed, `webpack` returned. */
  method Transform(webpack: Configuration) returns (r: Configuration)
    modifies webpack
    ensures r == webpack
    ensures webpack.Snapshot() == Update(old(webpack.Snapshot()))
  {
    if webpack.plugins.None? {
      webpack.plugins := Some([]);
    }
    webpack.plugins := Some(webpack.plugins.value + [CopyEntry]);
    r := webpack;
  }
}
