# simplr-webpack, modelled in Dafny

simplr-webpack builds a webpack configuration object with a fluent `Builder`. The builder holds
one configuration object. `update(callback)` passes that object through a transform.
`use(plugin, options)` first calls a plugin factory with its options, then passes the object
through the transform the factory returns. Each plugin transform changes the object in place
and returns it. Eight plugins are modelled:

- the TypeScript plugin adds a fork type-checker plugin entry, a `.tsx?` rule, and a path-mapping
  resolver when `tsconfig.json` has a usable `baseUrl`;
- the styles plugin adds `.scss`, `.css` and font rules;
- the web-dev plugin sets `devServer`;
- the images plugin adds an image rule;
- the HTML, copy, write-file and clean plugins each append one plugin entry.

The TypeScript and styles plugins also push resolve extensions, but only those that `indexOf`
does not already find.

The model has three layers:

- `Webpack.Configuration` is a class whose fields are the keys the plugins read and write
  (`plugins`, `module`, `resolve`, `devServer`). Every other key is kept in `rest`.
  `Snapshot()` gives the object's contents as a `ConfigValue`.
- Each plugin has two halves: a pure `Update` function on `ConfigValue`, and an imperative
  `Transform` method that follows the source statement by statement. Each `Transform` is
  proved to leave `Snapshot() == Update(old(Snapshot()))` and to return the same object. The
  lemmas about `Update` state what the source promises: what is appended and where, which
  keys are untouched, the defaults, duplicate-freedom, ordering and idempotence.
- The `Builder` module dispatches a handler to the right transform (`Apply` and `Run`). It
  folds a chain of handlers (`Fold`). Its `Builder` class keeps one `Configuration` object
  and reassigns it in `Update` and `Use`.

A thrown `Error` becomes a `Completion.Threw` that carries the message and the object's state
at the throw. The TypeScript transform throws after it has already appended its plugin entry
and its rule.

In `Use`, the factory gets no project directory: `src/builder.ts` calls `plugin(config)` with
one argument, so `projectDirectory` is `undefined` there.

`tsconfig.json` is read by `loadTsconfig` and is an input to the model. `path.resolve` is the
symbolic value `ResolvedPath(directory, relative)`.

## Model

| member | source | states |
|---|---|---|
| Js.IndexOf | src/plugins/simplr-webpack-ts/simplr-webpack-ts.ts:132 | `indexOf` is -1 exactly when the element is absent; otherwise it is the first index holding the element |
| Js.IsWhitespace | src/plugins/simplr-webpack-ts/simplr-webpack-ts.ts:107 | the characters `trim` removes: ECMAScript WhiteSpace and LineTerminator code points |
| Js.LeadingBlanks | src/plugins/simplr-webpack-ts/simplr-webpack-ts.ts:107 | the whitespace run `trim` cuts from the front: every character before it is whitespace and the next one, if any, is not |
| Js.TrailingBlanks | src/plugins/simplr-webpack-ts/simplr-webpack-ts.ts:107 | the whitespace run `trim` cuts from the back: every character after it is whitespace and the one before it, if any, is not |
| Js.Trim | src/plugins/simplr-webpack-ts/simplr-webpack-ts.ts:107 | `trim()` is a middle part of the string with only whitespace cut off on both sides; its length is 0 exactly when the string is all whitespace, and otherwise it neither starts nor ends with whitespace |
| Webpack.Configuration.constructor | src/builder.ts:7 | a new object holds the given contents |
| Webpack.Configuration.Assign | src/builder.ts:15-16 | a callback that rewrites the object leaves exactly the contents it computed |
| Webpack.AppendPlugin | src/plugins/simplr-webpack-write-file/simplr-webpack-write-files.ts:6-9 | `plugins` exists afterwards, grows by one, keeps the old entries in order and ends with the new one; nothing else changes |
| Webpack.AppendPluginTwice | src/plugins/simplr-webpack-write-file/simplr-webpack-write-files.ts:9 | two pushes of the same entry leave two copies: plugin entries are not de-duplicated |
| Webpack.AppendRules | src/plugins/simplr-webpack-images/simplr-webpack-images.ts:10-24 | `module` is created as `{rules: []}` if missing; the old rules stay first, the pushed rules follow in order, and nothing else changes |
| Webpack.AppendResolvePlugins | src/plugins/simplr-webpack-ts/simplr-webpack-ts.ts:95-101 | `resolve` and `resolve.plugins` are created if missing, then the entries are appended; `resolve.extensions` and the other keys are kept |
| Webpack.PushIfAbsent | src/plugins/simplr-webpack-ts/simplr-webpack-ts.ts:132-134 | after the guarded push the string is present; the list is unchanged if it was already there, and otherwise grows by exactly that string |
| Webpack.PushIfAbsentKeepsDistinct | src/plugins/simplr-webpack-ts/simplr-webpack-ts.ts:132-134 | the guarded push never creates a duplicate |
| Webpack.PushAllIfAbsent | src/plugins/simplr-webpack-ts/simplr-webpack-ts.ts:132-151 | a sequence of guarded pushes keeps the old list as a prefix |
| Webpack.PushAllIfAbsentContents | src/plugins/simplr-webpack-ts/simplr-webpack-ts.ts:132-151 | every pushed string is present afterwards, nothing else is added, and a duplicate-free list stays duplicate-free |
| Webpack.PushAllIfAbsentTwo | src/plugins/simplr-webpack-styles/simplr-webpack-styles.ts:79-85 | two guarded pushes in a row are the guarded push of the two-element list |
| Webpack.PushAllIfAbsentFour | src/plugins/simplr-webpack-ts/simplr-webpack-ts.ts:132-151 | four guarded pushes in a row are the guarded push of the four-element list |
| Webpack.PushAllIfAbsentConcat | src/plugins/simplr-webpack-ts/simplr-webpack-ts.ts:132-151 | pushing one list and then another is the same as pushing their concatenation |
| Webpack.PushAllIfAbsentPresent | src/plugins/simplr-webpack-ts/simplr-webpack-ts.ts:132-151 | strings that are already present are not pushed again |
| Webpack.PushAllIfAbsentIdempotent | src/plugins/simplr-webpack-ts/simplr-webpack-ts.ts:132-151 | repeating the same guarded pushes changes nothing |
| Webpack.PushAllIfAbsentFresh | src/plugins/simplr-webpack-ts/simplr-webpack-ts.ts:132-151 | distinct strings that are all absent are appended in the order given |
| Webpack.Missing | src/plugins/simplr-webpack-ts/simplr-webpack-ts.ts:132-151 | the strings of a list that another list does not hold, in order |
| Webpack.MissingContents | src/plugins/simplr-webpack-ts/simplr-webpack-ts.ts:132-151 | `Missing` holds exactly the strings of the new list that the old list lacks |
| Webpack.MissingAfterPush | src/plugins/simplr-webpack-ts/simplr-webpack-ts.ts:132-151 | pushing a string that the new list does not hold leaves the missing ones unchanged |
| Webpack.PushAllIfAbsentMissing | src/plugins/simplr-webpack-ts/simplr-webpack-ts.ts:132-151 | guarded pushes of distinct strings append exactly the missing ones, in the order given |
| Webpack.AddExtensions | src/plugins/simplr-webpack-styles/simplr-webpack-styles.ts:71-85 | `resolve` and `resolve.extensions` are created if missing, then the guarded pushes are applied; `resolve.plugins` and every other key are kept |
| TypeScriptPlugin.BaseUrlExists | src/plugins/simplr-webpack-ts/simplr-webpack-ts.ts:103-108 | the resolver condition holds exactly when tsconfig, `compilerOptions` and `baseUrl` are all present and `baseUrl` is not blank |
| TypeScriptPlugin.ForkTsCheckerOptions | src/plugins/simplr-webpack-ts/simplr-webpack-ts.ts:53-63 | the options are `{checkSyntacticErrors: true, tslint: true}` overridden key by key by the user's `forkTsCheckerOptions`; no other key appears |
| TypeScriptPlugin.TsconfigPathsOptions | src/plugins/simplr-webpack-ts/simplr-webpack-ts.ts:109-117 | `configFile` is the resolved tsconfig path unless the user overrides it, and every user key is taken |
| TypeScriptPlugin.Update | src/plugins/simplr-webpack-ts/simplr-webpack-ts.ts:48-154 | the transform's effect: checker entry, `.tsx?` rule and conditional resolver appended, then either the baseUrl error or the guarded extension pushes (its properties are the lemmas below) |
| TypeScriptPlugin.UpdateEffects | src/plugins/simplr-webpack-ts/simplr-webpack-ts.ts:48-154 | one checker entry and one `.tsx?` rule are appended even when the call throws; the resolver is appended iff the baseUrl is usable; it throws iff path options are given without a usable baseUrl, with the fixed message and the extensions untouched; otherwise the script extensions are pushed; `devServer`, the other keys of `module` and `resolve`, and every other key never change |
| TypeScriptPlugin.ExtensionsAfterUpdate | src/plugins/simplr-webpack-ts/simplr-webpack-ts.ts:128-151 | on success `.ts` and `.js` are present, and so are `.tsx` and `.jsx` when `jsx` is set; the old extensions stay first, nothing else is added, and duplicate-freedom is kept |
| TypeScriptPlugin.ExtensionOrder | src/plugins/simplr-webpack-ts/simplr-webpack-ts.ts:132-151 | on success the extensions grow by exactly those of `.ts`, `.tsx`, `.jsx`, `.js` (the middle two only when `jsx` is set) that were missing, in that order |
| TypeScriptPlugin.ExtensionOrderAllNew | src/plugins/simplr-webpack-ts/simplr-webpack-ts.ts:132-151 | when none of them was present, all the script extensions are appended in that order |
| TypeScriptPlugin.UpdateTwiceExtensions | src/plugins/simplr-webpack-ts/simplr-webpack-ts.ts:128-151 | a second successful application leaves `resolve.extensions` unchanged |
| TypeScriptPlugin.Transform | src/plugins/simplr-webpack-ts/simplr-webpack-ts.ts:48-154 | the transform returns the object it was given; its contents end as `Update` says, and it throws exactly when `Update` does, with the same message |
| TypeScriptPlugin.AttachChecker | src/plugins/simplr-webpack-ts/simplr-webpack-ts.ts:49-64 | `plugins` is created if missing, then one checker entry with the merged options is pushed |
| TypeScriptPlugin.AttachRule | src/plugins/simplr-webpack-ts/simplr-webpack-ts.ts:66-93 | `module` is created if missing, then the `.tsx?` rule is pushed |
| TypeScriptPlugin.AttachPathResolver | src/plugins/simplr-webpack-ts/simplr-webpack-ts.ts:95-122 | `resolve.plugins` is created if missing and gets the resolver when the baseUrl is usable; the flag it returns is that condition |
| TypeScriptPlugin.AddScriptExtensions | src/plugins/simplr-webpack-ts/simplr-webpack-ts.ts:128-151 | `resolve.extensions` is created if missing, then `.ts`, `.tsx`/`.jsx` (when `jsx` is set) and `.js` each get a guarded push |
| StylesPlugin.FontsOutputLocationOf | src/plugins/simplr-webpack-styles/simplr-webpack-styles.ts:37-38 | the font output location is the option when it is non-null, otherwise `./assets/fonts` |
| StylesPlugin.FontsPublicPathOf | src/plugins/simplr-webpack-styles/simplr-webpack-styles.ts:40 | the font public path is the option when it is non-null, otherwise `./` |
| StylesPlugin.FontRule | src/plugins/simplr-webpack-styles/simplr-webpack-styles.ts:60-68 | the font rule: `url-loader` for woff, woff2, eot, ttf and otf files, named `<location>/[name].[ext]`, with the given public path and limit 10000 |
| StylesPlugin.StyleRules | src/plugins/simplr-webpack-styles/simplr-webpack-styles.ts:42-69 | the three rules in push order: `.scss` (style, postcss, sass loaders), `.css` (style, css loaders), fonts |
| StylesPlugin.Update | src/plugins/simplr-webpack-styles/simplr-webpack-styles.ts:30-88 | the old rules are followed by the `.scss`, `.css` and font rules; `.css` then `.scss` get guarded pushes; `plugins`, `devServer`, `resolve.plugins` and every other key are untouched |
| StylesPlugin.ExtensionsAfterUpdate | src/plugins/simplr-webpack-styles/simplr-webpack-styles.ts:71-85 | `.css` and `.scss` are present, the old extensions stay first, nothing else is added, and duplicate-freedom is kept |
| StylesPlugin.ExtensionOrder | src/plugins/simplr-webpack-styles/simplr-webpack-styles.ts:79-85 | the extensions grow by exactly those of `.css` and `.scss` that were missing, `.css` first |
| StylesPlugin.DefaultFontRule | src/plugins/simplr-webpack-styles/simplr-webpack-styles.ts:60-67 | without options, exactly three rules are added; the last is a `url-loader` rule with name `./assets/fonts/[name].[ext]`, publicPath `./` and limit 10000 |
| StylesPlugin.UpdateTwice | src/plugins/simplr-webpack-styles/simplr-webpack-styles.ts:42-85 | a second application pushes the three rules again but leaves the extensions unchanged |
| StylesPlugin.Transform | src/plugins/simplr-webpack-styles/simplr-webpack-styles.ts:30-88 | the transform returns the object it was given, with the contents `Update` describes |
| StylesPlugin.AddStyleExtensions | src/plugins/simplr-webpack-styles/simplr-webpack-styles.ts:71-85 | `resolve` and `resolve.extensions` are created if missing, then `.css` and `.scss` each get a guarded push |
| WebDevPlugin.DefaultDevServer | src/plugins/simplr-web-dev/simplr-web-dev.ts:18-25 | the default record: contentBase the project directory resolved with `./dist`, compress true, host `0.0.0.0`, quiet false, port 3000, historyApiFallback true |
| WebDevPlugin.Update | src/plugins/simplr-web-dev/simplr-web-dev.ts:13-34 | without options `devServer` is the default record; with options it is exactly `options.devServer`, even if undefined; nothing else changes |
| WebDevPlugin.PreviousDevServerDiscarded | src/plugins/simplr-web-dev/simplr-web-dev.ts:14-16 | the previous `devServer`, and the `{}` initialisation, have no effect on the result |
| WebDevPlugin.LastWriterWins | src/plugins/simplr-web-dev/simplr-web-dev.ts:31 | a second application overrides the first one completely |
| WebDevPlugin.OptionsWithoutDevServer | src/plugins/simplr-web-dev/simplr-web-dev.ts:27-31 | options without a `devServer` key leave `devServer` undefined |
| WebDevPlugin.DefaultServer | src/plugins/simplr-web-dev/simplr-web-dev.ts:5-7 | the default record has exactly six keys: port 3000, host `0.0.0.0`, compress true, quiet false, historyApiFallback true, and contentBase set to the project directory resolved with `./dist` |
| WebDevPlugin.Transform | src/plugins/simplr-web-dev/simplr-web-dev.ts:13-34 | the transform returns the object it was given, with the contents `Update` describes |
| ImagesPlugin.Update | src/plugins/simplr-webpack-images/simplr-webpack-images.ts:9-26 | the old rules are followed by exactly one image rule; nothing else changes |
| ImagesPlugin.ImageRuleOptions | src/plugins/simplr-webpack-images/simplr-webpack-images.ts:16-23 | the rule matches png, jpg, gif and svg files through `url-loader` with name `./assets/images/[name].[ext]`, publicPath `/` and limit 10000 |
| ImagesPlugin.UpdateTwice | src/plugins/simplr-webpack-images/simplr-webpack-images.ts:16 | two applications push two rules |
| ImagesPlugin.Transform | src/plugins/simplr-webpack-images/simplr-webpack-images.ts:9-26 | the transform returns the object it was given, with the contents `Update` describes |
| HtmlPlugin.Update | src/plugins/simplr-html-plugin/simplr-html-plugin.ts:6-25 | the old entries are followed by exactly one HTML entry; nothing else changes |
| HtmlPlugin.HtmlEntryOptions | src/plugins/simplr-html-plugin/simplr-html-plugin.ts:11-21 | the entry has inject false, baseHref `/`, appMountIds `["root"]` and one viewport meta tag |
| HtmlPlugin.UpdateTwice | src/plugins/simplr-html-plugin/simplr-html-plugin.ts:10 | two applications push two entries |
| HtmlPlugin.Transform | src/plugins/simplr-html-plugin/simplr-html-plugin.ts:6-25 | the transform returns the object it was given, with the contents `Update` describes |
| CopyPlugin.Update | src/plugins/simplr-copy-plugin/simplr-copy-plugin.ts:8-21 | the old entries are followed by exactly one copy entry; nothing else changes |
| CopyPlugin.CopyEntryPatterns | src/plugins/simplr-copy-plugin/simplr-copy-plugin.ts:4-5 | the entry copies `./src/static` to `./static`, and nothing else |
| CopyPlugin.UpdateTwice | src/plugins/simplr-copy-plugin/simplr-copy-plugin.ts:12 | two applications push two entries |
| CopyPlugin.Transform | src/plugins/simplr-copy-plugin/simplr-copy-plugin.ts:8-21 | the transform returns the object it was given, with the contents `Update` describes |
| WriteFilePlugin.Update | src/plugins/simplr-webpack-write-file/simplr-webpack-write-files.ts:5-11 | the old entries are followed by exactly one write-file entry; nothing else changes |
| WriteFilePlugin.UpdateTwice | src/plugins/simplr-webpack-write-file/simplr-webpack-write-files.ts:9 | two applications push two entries, with no de-duplication |
| WriteFilePlugin.Transform | src/plugins/simplr-webpack-write-file/simplr-webpack-write-files.ts:5-11 | the transform returns the object it was given, with the contents `Update` describes |
| CleanPlugin.Update | src/plugins/simplr-wepack-clean/simplr-wepack-clean.ts:5-11 | the old entries are followed by exactly one clean entry; nothing else changes |
| CleanPlugin.UpdateTwice | src/plugins/simplr-wepack-clean/simplr-wepack-clean.ts:9 | two applications push two entries, with no de-duplication |
| CleanPlugin.Transform | src/plugins/simplr-wepack-clean/simplr-wepack-clean.ts:5-11 | the transform returns the object it was given, with the contents `Update` describes |
| Builder.Apply | src/builder.ts:10-16 | a handler's effect on the contents of the object; of the plugin transforms only the TypeScript one can throw |
| Builder.Run | src/builder.ts:10-16 | running a handler (plugin transform or callback) returns the object it was given, leaves the contents `Apply` describes, and reports the error `Apply` throws |
| Builder.Fold | src/builder.ts:9-19 | a chain of calls is the left fold of the handlers, stopping at the first one that throws |
| Builder.FoldSnoc | src/builder.ts:9-19 | one more `update`/`use` at the end of a chain acts on what the chain produced, unless the chain already threw |
| Builder.FoldThrewPrefix | src/builder.ts:9-19 | once a prefix of a chain has thrown, the rest of the chain does not run |
| Builder.FoldReturnsWithoutTypeScript | src/builder.ts:9-13 | a chain of plugins without the TypeScript plugin never throws |
| Builder.ApplyGrows | src/builder.ts:4 | every plugin transform only appends to the plugin, rule, resolver and extension lists, keeps extensions duplicate-free and keeps the unknown keys, even when it throws; only the web-dev plugin writes `devServer` |
| Builder.TypeScriptGrows | src/plugins/simplr-webpack-ts/simplr-webpack-ts.ts:48-154 | the TypeScript transform only appends and never touches `devServer` or the unknown keys |
| Builder.StylesGrows | src/plugins/simplr-webpack-styles/simplr-webpack-styles.ts:30-88 | the styles transform only appends and never touches `devServer` or the unknown keys |
| Builder.WebDevGrows | src/plugins/simplr-web-dev/simplr-web-dev.ts:13-34 | the web-dev transform leaves every list and the unknown keys as they were |
| Builder.AppendPluginGrows | src/plugins/simplr-html-plugin/simplr-html-plugin.ts:7-23 | appending a plugin entry leaves the other lists, `devServer` and the unknown keys as they were |
| Builder.AppendRulesGrows | src/plugins/simplr-webpack-images/simplr-webpack-images.ts:10-24 | appending rules leaves the other lists, `devServer` and the unknown keys as they were |
| Builder.FoldGrows | src/builder.ts:9-19 | over any chain of plugins, array fields only accumulate, with de-duplication only for extensions; the unknown keys are kept; and without the web-dev plugin `devServer` is kept |
| Builder.OptionsIgnored | src/plugins/simplr-webpack-images/simplr-webpack-images.ts:8 | the images, HTML, copy, write-file and clean plugins produce the same transform whatever options they are given |
| Builder.DevServerLastWriterWins | src/plugins/simplr-web-dev/simplr-web-dev.ts:26-31 | the last web-dev plugin of a chain alone decides `devServer` |
| Builder.Builder.constructor | src/builder.ts:7 | a builder holds the configuration it is given, or a new empty object `{}` |
| Builder.Builder.Update | src/builder.ts:15-19 | `update(f)` keeps the same object with the contents `f` computes and returns the builder; when `f` throws (a plugin transform or a callback), the error propagates and the changes made before the throw stay |
| Builder.Builder.Use | src/builder.ts:9-13 | `use(p, o)` is exactly `update(p(o))`, with the project directory undefined |
| Builder.Chain | src/builder.ts:9-19 | after a chain of `update` calls the builder holds the same object, with the left fold of the handlers as its contents, and the chain fails exactly when the fold throws, with its message |
| Builder.Builder.ToConfig | src/builder.ts:21-23 | `toConfig()` returns the held object without checking or changing anything |

## Left out

- The file scaffolding is not modelled: `checkTsConfig`, `checkTslintConfig`, `checkPostCssConfig`, `src/helpers.ts`, and the try/catch-and-log around them in the factories. It is filesystem and console I/O.
- `loadTsconfig` is a file read. Its result is the input `tsConfig`, and only `compilerOptions.baseUrl` and the presence of `compilerOptions.jsx` are kept.
- Builder.Builder.Use: `path.resolve` is kept as the symbolic value `ResolvedPath(directory, relative)`. Node throws a `TypeError` when the directory is `undefined`, which is what `use` passes. So through `use` the TypeScript factory throws before returning a transform, and the web-dev transform throws after creating an empty `devServer` when there was none; the model does not reach either error.
- The library constructors are not run. The fork checker, tsconfig-paths, HTML, copy, clean and write-file plugin constructors are datatype values that carry their literal options.
- A regular expression in a rule is a tag holding its source text. Matching is not modelled.
- `trim()` uses a fixed whitespace table: ECMAScript WhiteSpace and LineTerminator, with the space separators of Unicode 15.
- Sub-objects are values, not references. `module`, `resolve`, the arrays, and the `devServer` object taken from the options are not shared with any other object, so aliasing between them is not modelled.
- Builder.Run, Builder.Builder.Update: a callback rewrites the contents of the object it is given and then returns that object or throws, the way plugin transforms do. A callback that returns a different object, which `update` would then hold instead, is not modelled.
- An existing `module` object without a `rules` array is not modelled. webpack's typings require `rules`, and pushing onto a missing `rules` would throw a `TypeError`.
- Numbers are integers. Only the constants 3000 and 10000 occur.
- `src/webpack-config.ts` is a static object literal with no behaviour, so it is not modelled.
- Entry and output validation, and target-based polyfill defaults, are not modelled. No source file performs them: `toConfig` returns the held object unchecked, and the model follows that code.
- `src/__tests__/builder.test.ts` constructs `new Builder(__dirname)`, which does not match the constructor in `src/builder.ts`. The tests are only evidence that chains fold left to right.
