# Source-map resolution for frontend error frames

This project models the source-map store of Grafana's frontend logging
(`pkg/api/frontendlogging/source_maps.go`). It takes a stack frame reported
by the browser against a built, minified script and maps it back to the
original file, line, column, function and owning module. The model has
three parts, one module each:

- `Location`: location guessing (`guessSourceMapLocation`). A URL path under
  `/public/build/` maps into the configured static root at
  `Join("build", rest) + ".map"`, with no owning plugin. A path under `/public/plugins/`
  maps into the directory of the first plugin route whose prefix
  `Join("/public/plugins/", id)` is a string prefix of the path. Every
  other path has an unknown location.
- `Store`: the memoising loader (`SourceMapStore`, `getSourceMap`). It is a
  class whose `cache` maps each source URL to `Some(map)` or to the negative
  entry `None`. A hit returns the entry and calls neither the reader nor the
  parser. On a miss, an unknown location and a file that does not exist are
  both recorded as negative entries. A parsed map is recorded as a positive
  entry. A bad URL, any other read error and a parse error are returned and
  leave the cache as it was. `Load` is the uncached lookup. `Lookup` and
  `AfterLookup` give the answer and the new cache for a given old cache.
  `GetSourceMap` is proved equal to them. The lemmas prove that the cache is
  write-once, that a repeated lookup is idempotent, and that memoisation is
  transparent: while the route list stays the same, the cached answer is the
  uncached one.
- `Frames`: frame rewriting (`resolveSourceLocation` once the map is at
  hand). An empty function name becomes `?`, and the module is `core` or
  the owning plugin's id. `SourceMapStore.ResolveSourceLocation` combines
  the lookup with the rewrite.

The collaborators that the file calls but does not define are arbitrary
total functions (module `External`). These are `url.Parse` (as the path of
the parsed URL), `filepath.Join`, `filepath.Clean`, `sourcemap.Parse`,
`Consumer.Source` and the injected reader. The reader's result is
`Bytes | NotExist | OtherErr`, so `os.IsNotExist` is already applied. So
every property holds whatever those functions do. The plugin route list
(`plugins.StaticRoutes`, a global in the source) is passed explicitly to
each call. The library functions are fixed when the store is built. Ghost
counters in the store record how often the reader and the parser were
called.

Plugin assets are served under `/public/plugins/<pluginID>/...`, but the
code tests a plain string prefix with no trailing slash, and the model
follows the code. So plugin `acme`, listed
before `acme-panel`, claims `/public/plugins/acme-panel/module.js`, with
the map path `-panel/module.js.map`. `Location.PluginPrefixCrossesSegments`
proves this.

## Model

| member | source | states |
|---|---|---|
| `Location.RouteLocation` | pkg/api/frontendlogging/source_maps.go:73-79 | a matching route gives its own directory and plugin id; the map path ends in `.map` and is the URL path with the route prefix removed |
| `Location.MatchRoute` | pkg/api/frontendlogging/source_maps.go:72-81 | every location the route search returns has a path ending in `.map` |
| `Location.MatchRouteNone` | pkg/api/frontendlogging/source_maps.go:72-83 | the route search finds nothing exactly when no route's prefix is a prefix of the path |
| `Location.MatchRouteFirst` | pkg/api/frontendlogging/source_maps.go:72-80 | the first route in list order whose prefix matches decides the location: its directory, its id, and the remainder plus `.map` |
| `Location.MatchRouteSound` | pkg/api/frontendlogging/source_maps.go:72-81 | any location found comes from a route that matches, and no earlier route matches |
| `Location.GuessLocation` | pkg/api/frontendlogging/source_maps.go:60-84 | it fails exactly when the URL does not parse, and returns that error; any location found has a path ending in `.map`, and the URL path lies under `/public/build/` or `/public/plugins/` |
| `Location.GuessBuild` | pkg/api/frontendlogging/source_maps.go:65-70 | a path under `/public/build/` gives the static root, `Join("build", rest) + ".map"`, and an empty plugin id |
| `Location.GuessPlugin` | pkg/api/frontendlogging/source_maps.go:71-81 | a path under `/public/plugins/` gives the first matching route's directory and id, with the remainder after its prefix plus `.map` |
| `Location.GuessUnknown` | pkg/api/frontendlogging/source_maps.go:71-83 | a plugin path that no route matches, or a path under neither prefix, gives an unknown location and no error |
| `Location.PluginPrefixCrossesSegments` | pkg/api/frontendlogging/source_maps.go:73-74 | the plugin prefix has no trailing slash, so `acme` listed first claims `/public/plugins/acme-panel/module.js` |
| `Frames.FunctionName` | pkg/api/frontendlogging/source_maps.go:141-143 | the reported function name is never empty, and it keeps the map's name when that name is not empty and is `?` when it is empty |
| `Frames.ModuleOf` | pkg/api/frontendlogging/source_maps.go:144-147 | the module is never empty, and it is the plugin id whenever the plugin id is not empty and `core` when it is empty |
| `Frames.RewriteFrame` | pkg/api/frontendlogging/source_maps.go:137-154 | no frame exactly when the consumer has no mapping; otherwise the consumer's file, line and column, a non-empty function name that keeps the map's, and the owning module |
| `Frames.ResolveWith` | pkg/api/frontendlogging/source_maps.go:130-154 | a load error is passed on unchanged, a negative map gives no frame, a found map gives exactly `RewriteFrame` of it (so a consumer miss gives none), and a frame comes only from a found map |
| `Frames.RewriteRoundTrip` | pkg/api/frontendlogging/source_maps.go:137-154 | a map that sends `(line, col)` to an original position yields exactly that position, with function `?` for an empty name and module `core` for an empty plugin id |
| `Store.LoadOutcomes` | pkg/api/frontendlogging/source_maps.go:93-126 | an uncached load is negative exactly for an unknown location or a missing file; a bad URL, another read error and a parse error each return their error; a successful parse returns the parsed map with the location's plugin id |
| `Store.LookupWriteOnce` | pkg/api/frontendlogging/source_maps.go:90-126 | a lookup never changes or removes an entry, adds at most the looked-up URL, and adds it exactly when the lookup did not fail |
| `Store.LookupIdempotent` | pkg/api/frontendlogging/source_maps.go:90-92 | after a lookup that did not fail, looking the same URL up again gives the same answer and leaves the cache unchanged |
| `Store.LookupTransparent` | pkg/api/frontendlogging/source_maps.go:86-127 | while every entry agrees with an uncached load, a lookup answers as an uncached load would, and the new cache still agrees |
| `Store.SourceMapStore.constructor` | pkg/api/frontendlogging/source_maps.go:52-58 | a new store has an empty cache and keeps the configuration and reader it was given; no reader or parser call has happened yet |
| `Store.SourceMapStore.GetSourceMap` | pkg/api/frontendlogging/source_maps.go:86-127 | the answer and the new cache are `Lookup` and `AfterLookup` of the old cache; a hit calls neither reader nor parser; a miss calls each at most once; the result is not an error exactly when the URL is cached afterwards; a cache that agrees with uncached loads keeps agreeing |
| `Store.SourceMapStore.ResolveSourceLocation` | pkg/api/frontendlogging/source_maps.go:129-155 | the result is the frame rewritten with the looked-up map; the cache changes as in `GetSourceMap`; there is at most one read and one parse, and none on a hit |
| `Store.ResolveTwice` | pkg/api/frontendlogging/source_maps.go:129-155 | resolving a frame twice, when the first call did not fail, gives the same answer twice, with at most one read and one parse |

## Left out

- `ReadSourceMapFromFs` (source_maps.go:32-43): it reads files through `http.Dir`, closes them and logs. The model replaces it with the store's `readSourceMap` function. It cannot check that `http.Dir` keeps the path inside the directory.
- The `sync.Mutex` (source_maps.go:49, 87-88): each `GetSourceMap` call is one atomic step, so concurrent callers are not modelled.
- `url.Parse`, `filepath.Join`, `filepath.Clean`, `sourcemap.Parse` and `Consumer.Source` are arbitrary functions. Their internals, and the path-cleaning semantics in particular, are not modelled.
- The reader, the parser and the consumer are deterministic functions. A real reader can fail once and succeed on a retry. `Store.LookupTransparent` and the `Consistent` clause of `GetSourceMap` depend on this determinism and on the route list staying the same.
- `plugins.StaticRoutes` is a global in the source. The route list is passed to each call.
- The source holds a `*setting.Cfg` pointer and reads `StaticRootPath` through it on every call, so a change to the configuration after construction would be seen. The model copies the `StaticRootPath` value once, at construction, and keeps no other configuration field.
- The library functions are given to the store's constructor. `NewSourceMapStore` takes only the configuration and the reader.
- `sentry.Frame` keeps only Filename, Lineno, Colno, Function and Module. Pointer identity of `*sourceMap` values is not modelled: entries are compared as values.
- Go strings are byte strings and the model uses `seq<char>`. For valid UTF-8 strings, byte-wise and character-wise prefix tests and slices agree, since a prefix that matches ends on a character boundary.
- A URL path holding invalid UTF-8 (possible after percent-decoding in `url.Parse`) is not represented.
