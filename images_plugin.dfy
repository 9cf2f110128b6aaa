/** The images plugin: one `url-loader` rule for image files. */
module ImagesPlugin {
  import opened Wrappers
  import opened Webpack

  const ImagesOutputLocation := "assets/images"
  const PublicPath := "/"

  /** Files up to this many bytes are inlined by `url-loader`. */
  const ImageSizeLimit := 10000

  /** The rule the transform pushes. */
  const ImageRule := Rule(Regex("\\.(png|jpg|gif|svg)$"), None, Some("url-loader"),
                          Some(map["name" := Str("./" + ImagesOutputLocation + "/[name].[ext]"),
                                   "publicPath" := Str(PublicPath),
                                   "limit" := Num(ImageSizeLimit)]),
                          None)

  /** What the transform does to a configuration `v`: `module` exists afterwards and holds the
      old rules followed by the image rule; nothing else changes. */
  function Update(v: ConfigValue): (r: ConfigValue)
    ensures r.moduleOptions.Some? && RulesOf(r) == RulesOf(v) + [ImageRule]
    ensures v.moduleOptions.Some? ==> r.moduleOptions.value.rest == v.moduleOptions.value.rest
    ensures r.(moduleOptions := v.moduleOptions) == v
  {
    AppendRules(v, [ImageRule])
  }

  /** Images go to `./assets/images/[name].[ext]`, served from `/`, inlined up to 10000 bytes. */
  lemma ImageRuleOptions(v: ConfigValue)
    ensures var rules := RulesOf(Update(v));
      && |rules| == |RulesOf(v)| + 1
      && rules[|rules| - 1].test == Regex("\\.(png|jpg|gif|svg)$")
      && rules[|rules| - 1].loader == Some("url-loader")
      && rules[|rules| - 1].options == Some(map["name" := Str("./assets/images/[name].[ext]"), "publicPath" := Str("/"), "limit" := Num(10000)])
  {
    assert "./" + ImagesOutputLocation + "/[name].[ext]" == "./assets/images/[name].[ext]";
  }

  /** Each application pushes its own rule: rules are not de-duplicated. */
  lemma UpdateTwice(v: ConfigValue)
    ensures RulesOf(Update(Update(v))) == RulesOf(v) + [ImageRule, ImageRule]
  {
  }

  /** The transform: `module` created as `{rules: []}` if missing, the rule pushed, `webpack` returned. */
  method Transform(webpack: Configuration) returns (r: Configuration)
    modifies webpack
    ensures r == webpack
    ensures webpack.Snapshot() == Update(old(webpack.Snapshot()))
  {
    if webpack.moduleOptions.None? {
      webpack.moduleOptions := Some(ModuleOptions([], map[]));
    }
    webpack.moduleOptions := Some(webpack.moduleOptions.value.(rules := webpack.moduleOptions.value.rules + [ImageRule]));
    r := webpack;
  }
}
