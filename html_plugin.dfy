/** The HTML plugin: one `HtmlWebpackPlugin` entry rendering the `html-webpack-template` page. */
module HtmlPlugin {
  import opened Wrappers
  import opened Webpack

  /** The one `<meta>` tag of the page. */
  const ViewportMeta := Obj(map["name" := Str("viewport"), "content" := Str("width=device-width, initial-scale=1")])

  /** The options the entry is constructed with. */
  const HtmlOptions: Options := map[
    "inject" := Bool(false),
    "template" := Imported("html-webpack-template"),
    "baseHref" := Str("/"),
    "appMountIds" := Arr([Str("root")]),
    "meta" := Arr([ViewportMeta])
  ]

  const HtmlEntry := HtmlWebpackPlugin(HtmlOptions)

  /** What the transform does to a configuration `v`: `plugins` exists afterwards and holds the
      old entries followed by the HTML entry; nothing else changes. */
  function Update(v: ConfigValue): (r: ConfigValue)
    ensures r.plugins.Some? && PluginsOf(r) == PluginsOf(v) + [HtmlEntry]
    ensures r.(plugins := v.plugins) == v
  {
    AppendPlugin(v, HtmlEntry)
  }

  /** The appended entry does not inject bundles, uses `/` as base, mounts on `#root` and
      carries one viewport meta tag. */
  lemma HtmlEntryOptions(v: ConfigValue)
    ensures var plugins := PluginsOf(Update(v));
      && |plugins| == |PluginsOf(v)| + 1
      && plugins[|plugins| - 1].HtmlWebpackPlugin?
      && var o := plugins[|plugins| - 1].options;
      && o["inject"] == Bool(false) && o["baseHref"] == Str("/")
      && o["appMountIds"] == Arr([Str("root")])
      && o["meta"].Arr? && |o["meta"].items| == 1 && o["meta"].items[0].fields["name"] == Str("viewport")
  {
  }

  /** Each application pushes its own entry: entries are not de-duplicated. */
  lemma UpdateTwice(v: ConfigValue)
    ensures PluginsOf(Update(Update(v))) == PluginsOf(v) + [HtmlEntry, HtmlEntry]
  {
  }

  /** The transform: `plugins` created if missing, the entry pushed, `webpack` returned. */
  method Transform(webpack: Configuration) returns (r: Configuration)
    modifies webpack
    ensures r == webpack
    ensures webpack.Snapshot() == Update(old(webpack.Snapshot()))
  {
    if webpack.plugins.None? {
      webpack.plugins := Some([]);
    }
    webpack.plugins := Some(webpack.plugins.value + [HtmlEntry]);
    r := webpack;
  }
}
