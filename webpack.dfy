/** The bundler configuration object that the builder holds and the plugins mutate,
    together with the list operations the plugins share:
    "create the list if it is missing, then push", and "push only if `indexOf` says absent". */
module Webpack {
  import opened Wrappers
  import opened Js

  /** A JavaScript value inside an options object. */
  datatype Value =
    | Undefined
    | Null
    | Bool(b: bool)
    | Num(n: int)
    | Str(s: string)
      /** The string `path.resolve(directory, relative)` evaluates to; path resolution itself is not modelled. */
    | ResolvedPath(directory: Option<string>, relative: string)
      /** The export of an imported package, such as a template module. */
    | Imported(name: string)
    | Arr(items: seq<Value>)
    | Obj(fields: map<string, Value>)

  /** A plain options object; `defaults + user` is the object spread `{...defaults, ...user}`. */
  type Options = map<string, Value>

  /** A regular expression, kept as its source text. */
  datatype Pattern = Regex(source: string)

  /** An element of a rule's `use` list: a loader name, or `{loader, options}`. */
  datatype UseEntry = LoaderName(name: string) | LoaderObject(loader: string, options: Options)

  /** A module rule; a missing key is `None`. */
  datatype Rule = Rule(test: Pattern, use: Option<seq<UseEntry>>, loader: Option<string>,
                       options: Option<Options>, exclude: Option<Pattern>)

  datatype CopyPattern = CopyPattern(from: string, to: string)

  /** A plugin instance: the library constructors the plugins call, with the options they pass. */
  datatype PluginEntry =
    | ForkTsCheckerWebpackPlugin(options: Options)
    | TsconfigPathsPlugin(options: Options)
    | HtmlWebpackPlugin(options: Options)
    | CopyWebpackPlugin(patterns: seq<CopyPattern>)
    | CleanWebpackPlugin
    | WriteFileWebpackPlugin
    | OtherPlugin(name: string)

  /** `webpack.module`: its `rules` and the keys no plugin reads. */
  datatype ModuleOptions = ModuleOptions(rules: seq<Rule>, rest: Options)

  /** `webpack.resolve`: its `plugins`, its `extensions` and the keys no plugin reads. */
  datatype ResolveOptions = ResolveOptions(plugins: Option<seq<PluginEntry>>, extensions: Option<seq<string>>, rest: Options)

  /** The contents of a configuration object at one moment. `rest` holds every key no plugin
      reads or writes (`entry`, `output`, `mode`, ...). */
  datatype ConfigValue = ConfigValue(
    plugins: Option<seq<PluginEntry>>,
    moduleOptions: Option<ModuleOptions>,
    resolve: Option<ResolveOptions>,
    devServer: Option<Options>,
    rest: Options)

  /** The object literal `{}`. */
  const EmptyConfig := ConfigValue(None, None, None, None, map[])

  /** How a call to a transform ended, and the state of the object it was given at that point. */
  datatype Completion = Returned(state: ConfigValue) | Threw(state: ConfigValue, message: string)

  /** The message of the error a completion threw, if any. */
  function Exception(c: Completion): Option<string> {
    if c.Threw? then Some(c.message) else None
  }

  /** The options object handed to a plugin factory. JavaScript reads it key by key, so the
      model keeps every key some plugin reads; a plugin ignores the keys it does not know. */
  datatype PluginOptions = PluginOptions(
    forkTsCheckerOptions: Option<Options>,
    tsconfigPathsPluginOptions: Option<Options>,
    fontsOutputLocation: Option<string>,
    fontsPublicPath: Option<string>,
    devServer: Option<Options>)

  /** A configuration object, updated in place by the plugin transforms. */
  class Configuration {
    var plugins: Option<seq<PluginEntry>>
    var moduleOptions: Option<ModuleOptions>
    var resolve: Option<ResolveOptions>
    var devServer: Option<Options>
    var rest: Options

    function Snapshot(): ConfigValue
      reads this
    {
      ConfigValue(plugins, moduleOptions, resolve, devServer, rest)
    }

    constructor (v: ConfigValue)
      ensures Snapshot() == v
    {
      plugins, moduleOptions, resolve, devServer, rest := v.plugins, v.moduleOptions, v.resolve, v.devServer, v.rest;
    }

    /** Overwrites every key, as a callback that rewrites the whole object does. */
    method Assign(v: ConfigValue)
      modifies this
      ensures Snapshot() == v
    {
      plugins, moduleOptions, resolve, devServer, rest := v.plugins, v.moduleOptions, v.resolve, v.devServer, v.rest;
    }
  }

  // The lists the transforms see after `if (x == null) { x = [] }`.

  function PluginsOf(v: ConfigValue): seq<PluginEntry> {
    if v.plugins.Some? then v.plugins.value else []
  }

  function RulesOf(v: ConfigValue): seq<Rule> {
    if v.moduleOptions.Some? then v.moduleOptions.value.rules else []
  }

  function ResolveOf(v: ConfigValue): ResolveOptions {
    if v.resolve.Some? then v.resolve.value else ResolveOptions(None, None, map[])
  }

  function ResolvePluginsOf(v: ConfigValue): seq<PluginEntry> {
    var r := ResolveOf(v);
    if r.plugins.Some? then r.plugins.value else []
  }

  function ExtensionsOf(v: ConfigValue): seq<string> {
    var r := ResolveOf(v);
    if r.extensions.Some? then r.extensions.value else []
  }

  /** `plugins` created if missing, then `entry` pushed: the old entries stay, in order, and
      `entry` is last; nothing but `plugins` changes. */
  function AppendPlugin(v: ConfigValue, entry: PluginEntry): (r: ConfigValue)
    ensures r.plugins.Some? && |PluginsOf(r)| == |PluginsOf(v)| + 1
    ensures PluginsOf(r)[..|PluginsOf(v)|] == PluginsOf(v) && PluginsOf(r)[|PluginsOf(v)|] == entry
    ensures r.(plugins := v.plugins) == v
  {
    v.(plugins := Some(PluginsOf(v) + [entry]))
  }

  /** Each application appends its own entry: there is no de-duplication of plugin entries. */
  lemma AppendPluginTwice(v: ConfigValue, entry: PluginEntry)
    ensures PluginsOf(AppendPlugin(AppendPlugin(v, entry), entry)) == PluginsOf(v) + [entry, entry]
  {
  }

  /** `module` created as `{rules: []}` if missing, then `rules` pushed after the old rules;
      the other keys of `module` and every other key of the object are kept. */
  function AppendRules(v: ConfigValue, rules: seq<Rule>): (r: ConfigValue)
    ensures r.moduleOptions.Some? && |RulesOf(r)| == |RulesOf(v)| + |rules|
    ensures RulesOf(r)[..|RulesOf(v)|] == RulesOf(v) && RulesOf(r)[|RulesOf(v)|..] == rules
    ensures v.moduleOptions.Some? ==> r.moduleOptions.value.rest == v.moduleOptions.value.rest
    ensures r.(moduleOptions := v.moduleOptions) == v
  {
    var m := if v.moduleOptions.Some? then v.moduleOptions.value else ModuleOptions([], map[]);
    v.(moduleOptions := Some(m.(rules := m.rules + rules)))
  }

  /** `resolve` and `resolve.plugins` created if missing, then `entries` pushed after the old ones;
      `resolve.extensions` and every other key are kept. */
  function AppendResolvePlugins(v: ConfigValue, entries: seq<PluginEntry>): (r: ConfigValue)
    ensures r.resolve.Some? && r.resolve.value.plugins.Some?
    ensures ResolvePluginsOf(r) == ResolvePluginsOf(v) + entries
    ensures r.resolve.value.extensions == ResolveOf(v).extensions && r.resolve.value.rest == ResolveOf(v).rest
    ensures r.(resolve := v.resolve) == v
  {
    v.(resolve := Some(ResolveOf(v).(plugins := Some(ResolvePluginsOf(v) + entries))))
  }

  /** No string occurs twice. */
  predicate NoDuplicates(xs: seq<string>) {
    forall i, j | 0 <= i < j < |xs| :: xs[i] != xs[j]
  }

  /** `if (xs.indexOf(x) === -1) { xs.push(x) }`: `x` is present afterwards, and the list
      grows by `x` exactly when `x` was absent. */
  function PushIfAbsent(xs: seq<string>, x: string): (r: seq<string>)
    ensures x in r
    ensures x in xs ==> r == xs
    ensures x !in xs ==> r == xs + [x]
  {
    if IndexOf(xs, x) == -1 then xs + [x] else xs
  }

  /** The guarded push never creates a duplicate. */
  lemma PushIfAbsentKeepsDistinct(xs: seq<string>, x: string)
    requires NoDuplicates(xs)
    ensures NoDuplicates(PushIfAbsent(xs, x))
  {
  }

  /** The guarded push applied to each of `news` in order; the old list stays a prefix. */
  function PushAllIfAbsent(xs: seq<string>, news: seq<string>): (r: seq<string>)
    ensures |xs| <= |r| && r[..|xs|] == xs
    decreases news
  {
    if news == [] then xs else PushAllIfAbsent(PushIfAbsent(xs, news[0]), news[1..])
  }

  /** After the guarded pushes every one of `news` is present, nothing else was added, and a
      duplicate-free list stays duplicate-free. */
  lemma {:induction false} PushAllIfAbsentContents(xs: seq<string>, news: seq<string>)
    ensures forall x | x in news :: x in PushAllIfAbsent(xs, news)
    ensures forall y | y in PushAllIfAbsent(xs, news) :: y in xs || y in news
    ensures NoDuplicates(xs) ==> NoDuplicates(PushAllIfAbsent(xs, news))
    decreases news
  {
    if news != [] {
      var ys := PushIfAbsent(xs, news[0]);
      PushAllIfAbsentContents(ys, news[1..]);
      var r := PushAllIfAbsent(ys, news[1..]);
      assert r[..|ys|] == ys;
      assert news[0] in ys;
      assert news[0] in r by {
        var k :| 0 <= k < |ys| && ys[k] == news[0];
        assert r[k] == news[0];
      }
      forall x | x in news ensures x in r {
        if x != news[0] {
          assert x in news[1..];
        }
      }
      forall y | y in r ensures y in xs || y in news {
        if y in news[1..] {
          assert y in news;
        }
      }
      if NoDuplicates(xs) {
        PushIfAbsentKeepsDistinct(xs, news[0]);
      }
    }
  }

  /** The guarded pushes of two strings, one after the other. */
  lemma PushAllIfAbsentTwo(xs: seq<string>, a: string, b: string)
    ensures PushAllIfAbsent(xs, [a, b]) == PushIfAbsent(PushIfAbsent(xs, a), b)
  {
    var ys := PushIfAbsent(xs, a);
    assert [a, b][1..] == [b] && [b][1..] == [];
    assert PushAllIfAbsent(xs, [a, b]) == PushAllIfAbsent(ys, [b]);
    assert PushAllIfAbsent(ys, [b]) == PushAllIfAbsent(PushIfAbsent(ys, b), []);
  }

  /** The guarded pushes of four strings, one after the other. */
  lemma PushAllIfAbsentFour(xs: seq<string>, a: string, b: string, c: string, d: string)
    ensures PushAllIfAbsent(xs, [a, b, c, d]) == PushIfAbsent(PushIfAbsent(PushIfAbsent(PushIfAbsent(xs, a), b), c), d)
  {
    assert [a, b, c, d][1..] == [b, c, d];
    assert [b, c, d][1..] == [c, d];
    PushAllIfAbsentTwo(PushIfAbsent(PushIfAbsent(xs, a), b), c, d);
  }

  /** Pushing `a` and then `b` is pushing `a + b`. */
  lemma {:induction false} PushAllIfAbsentConcat(xs: seq<string>, a: seq<string>, b: seq<string>)
    ensures PushAllIfAbsent(PushAllIfAbsent(xs, a), b) == PushAllIfAbsent(xs, a + b)
    decreases a
  {
    if a == [] {
      assert a + b == b;
    } else {
      assert (a + b)[0] == a[0] && (a + b)[1..] == a[1..] + b;
      PushAllIfAbsentConcat(PushIfAbsent(xs, a[0]), a[1..], b);
    }
  }

  /** Strings that are all present already are not pushed again. */
  lemma {:induction false} PushAllIfAbsentPresent(xs: seq<string>, news: seq<string>)
    requires forall x | x in news :: x in xs
    ensures PushAllIfAbsent(xs, news) == xs
    decreases news
  {
    if news != [] {
      PushAllIfAbsentPresent(xs, news[1..]);
    }
  }

  /** A second application of the same guarded pushes changes nothing. */
  lemma PushAllIfAbsentIdempotent(xs: seq<string>, news: seq<string>)
    ensures PushAllIfAbsent(PushAllIfAbsent(xs, news), news) == PushAllIfAbsent(xs, news)
  {
    PushAllIfAbsentContents(xs, news);
    PushAllIfAbsentPresent(PushAllIfAbsent(xs, news), news);
  }

  /** Strings that are all new, and distinct, are appended in the order given. */
  lemma {:induction false} PushAllIfAbsentFresh(xs: seq<string>, news: seq<string>)
    requires NoDuplicates(news)
    requires forall x | x in news :: x !in xs
    ensures PushAllIfAbsent(xs, news) == xs + news
    decreases news
  {
    if news != [] {
      var ys := xs + [news[0]];
      assert PushIfAbsent(xs, news[0]) == ys;
      FreshTail(xs, news);
      PushAllIfAbsentFresh(ys, news[1..]);
      ConsAppend(xs, news);
    }
  }

  /** The strings of `news` that `xs` does not hold, in the order of `news`. */
  function Missing(xs: seq<string>, news: seq<string>): seq<string>
    decreases news
  {
    if news == [] then []
    else (if news[0] in xs then [] else [news[0]]) + Missing(xs, news[1..])
  }

  /** `Missing` holds exactly the strings of `news` that are not in `xs`. */
  lemma {:induction false} MissingContents(xs: seq<string>, news: seq<string>)
    ensures forall x | x in Missing(xs, news) :: x in news && x !in xs
    ensures forall x | x in news && x !in xs :: x in Missing(xs, news)
    decreases news
  {
    if news != [] {
      MissingContents(xs, news[1..]);
      forall x | x in news && x !in xs ensures x in Missing(xs, news) {
        if x != news[0] {
          assert x in news[1..];
        }
      }
    }
  }

  /** Distinct strings get appended exactly where they are missing: the list grows by the
      missing ones, in the order given. */
  lemma {:induction false} PushAllIfAbsentMissing(xs: seq<string>, news: seq<string>)
    requires NoDuplicates(news)
    ensures PushAllIfAbsent(xs, news) == xs + Missing(xs, news)
    decreases news
  {
    if news != [] {
      DistinctTail(news);
      if news[0] in xs {
        PushAllIfAbsentMissing(xs, news[1..]);
        PresentStep(xs, news);
      } else {
        PushAllIfAbsentMissing(xs + [news[0]], news[1..]);
        MissingAfterPush(xs, news[0], news[1..]);
        AbsentStep(xs, news);
      }
    }
  }

  /** The step of PushAllIfAbsentMissing when the first string is already in `xs`. */
  lemma PresentStep(xs: seq<string>, news: seq<string>)
    requires news != [] && news[0] in xs
    requires PushAllIfAbsent(xs, news[1..]) == xs + Missing(xs, news[1..])
    ensures PushAllIfAbsent(xs, news) == xs + Missing(xs, news)
  {
    assert Missing(xs, news) == Missing(xs, news[1..]);
    assert PushIfAbsent(xs, news[0]) == xs;
  }

  /** The step of PushAllIfAbsentMissing when the first string is not in `xs`. */
  lemma AbsentStep(xs: seq<string>, news: seq<string>)
    requires news != [] && news[0] !in xs
    requires PushAllIfAbsent(xs + [news[0]], news[1..]) == xs + [news[0]] + Missing(xs, news[1..])
    ensures PushAllIfAbsent(xs, news) == xs + Missing(xs, news)
  {
  }

  /** The tail of a duplicate-free list is duplicate-free and does not hold its head. */
  lemma DistinctTail(news: seq<string>)
    requires news != [] && NoDuplicates(news)
    ensures NoDuplicates(news[1..]) && news[0] !in news[1..]
  {
    var tail := news[1..];
    forall i, j | 0 <= i < j < |tail| ensures tail[i] != tail[j] {
      assert tail[i] == news[i + 1] && tail[j] == news[j + 1];
    }
    forall k | 0 <= k < |tail| ensures tail[k] != news[0] {
      assert tail[k] == news[k + 1];
    }
  }

  /** Pushing a string that `news` does not hold changes nothing about which of `news` are missing. */
  lemma {:induction false} MissingAfterPush(xs: seq<string>, x: string, news: seq<string>)
    requires x !in news
    ensures Missing(xs + [x], news) == Missing(xs, news)
    decreases news
  {
    if news != [] {
      assert news[0] in xs + [x] <==> news[0] in xs;
      assert x !in news[1..];
      MissingAfterPush(xs, x, news[1..]);
    }
  }

  lemma ConsAppend(xs: seq<string>, news: seq<string>)
    requires news != []
    ensures xs + [news[0]] + news[1..] == xs + news
  {
    assert news == [news[0]] + news[1..];
  }

  /** The step of PushAllIfAbsentFresh: after the first string is pushed, the rest are still new and distinct. */
  lemma FreshTail(xs: seq<string>, news: seq<string>)
    requires news != [] && NoDuplicates(news)
    requires forall x | x in news :: x !in xs
    ensures NoDuplicates(news[1..])
    ensures forall x | x in news[1..] :: x !in xs + [news[0]]
  {
    var tail := news[1..];
    forall x | x in tail ensures x !in xs + [news[0]] {
      var k :| 0 <= k < |tail| && tail[k] == x;
      assert news[k + 1] == x;
    }
    forall i, j | 0 <= i < j < |tail| ensures tail[i] != tail[j] {
      assert tail[i] == news[i + 1] && tail[j] == news[j + 1];
    }
  }

  /** `resolve` and `resolve.extensions` created if missing, then each of `news` pushed unless
      `indexOf` finds it; `resolve.plugins` and every other key are kept. */
  function AddExtensions(v: ConfigValue, news: seq<string>): (r: ConfigValue)
    ensures r.resolve.Some? && r.resolve.value.extensions.Some?
    ensures ExtensionsOf(r) == PushAllIfAbsent(ExtensionsOf(v), news)
    ensures r.resolve.value.plugins == ResolveOf(v).plugins && r.resolve.value.rest == ResolveOf(v).rest
    ensures r.(resolve := v.resolve) == v
  {
    v.(resolve := Some(ResolveOf(v).(extensions := Some(PushAllIfAbsent(ExtensionsOf(v), news)))))
  }
}
