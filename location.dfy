/** Location guessing: from the URL of a built script to the directory and
    relative path of its source map (`guessSourceMapLocation`). */
module Location {
  import opened Wrappers
  import opened External

  const BuildPrefix: string := "/public/build/"
  const PluginsPrefix: string := "/public/plugins/"
  const MapSuffix: string := ".map"

  /** An entry of `plugins.StaticRoutes`. */
  datatype Route = Route(pluginId: string, directory: string)

  /** `sourceMapLocation`; an empty `pluginId` means the core build. */
  datatype SourceMapLocation = SourceMapLocation(dir: string, path: string, pluginId: string)

  predicate EndsWith(s: string, suffix: string)
  {
    |suffix| <= |s| && s[|s| - |suffix|..] == suffix
  }

  /** The prefix a plugin's assets are served under: `filepath.Join` of the
      plugins prefix and the plugin id, so it carries no trailing slash. */
  function PluginPrefix(lib: Lib, pluginId: string): string
  {
    lib.join(PluginsPrefix, pluginId)
  }

  /** Whether `route` claims the URL path `p`: a plain string prefix test. */
  predicate RouteMatches(lib: Lib, route: Route, p: string)
  {
    PluginPrefix(lib, route.pluginId) <= p
  }

  /** Where the map of `p` lies for a route that matches it. */
  function RouteLocation(lib: Lib, route: Route, p: string): (loc: SourceMapLocation)
    requires RouteMatches(lib, route, p)
    ensures loc.dir == route.directory && loc.pluginId == route.pluginId
    ensures EndsWith(loc.path, MapSuffix)
    ensures p == PluginPrefix(lib, route.pluginId) + loc.path[..|loc.path| - |MapSuffix|]
  {
    var prefix := PluginPrefix(lib, route.pluginId);
    SourceMapLocation(route.directory, p[|prefix|..] + MapSuffix, route.pluginId)
  }

  /** The loop over the plugin routes: the first route whose prefix
      matches wins. */
  function MatchRoute(lib: Lib, routes: seq<Route>, p: string): (r: Option<SourceMapLocation>)
    ensures r.Some? ==> EndsWith(r.value.path, MapSuffix)
    decreases |routes|
  {
    if routes == [] then None
    else if RouteMatches(lib, routes[0], p) then Some(RouteLocation(lib, routes[0], p))
    else MatchRoute(lib, routes[1..], p)
  }

  /** `i` is the first route, in list order, that matches `p`. */
  ghost predicate IsFirstMatch(lib: Lib, routes: seq<Route>, p: string, i: int)
  {
    && 0 <= i < |routes|
    && RouteMatches(lib, routes[i], p)
    && forall j :: 0 <= j < i ==> !RouteMatches(lib, routes[j], p)
  }

  /** `guessSourceMapLocation`: `Err` for a URL that does not parse,
      `Ok(None)` for an unknown location, `Ok(Some(loc))` otherwise. */
  function GuessLocation(lib: Lib, cfg: Config, routes: seq<Route>, sourceURL: string): (r: Result<Option<SourceMapLocation>>)
    ensures r.Err? <==> lib.urlPath(sourceURL).Err?
    ensures r.Err? ==> r.error == lib.urlPath(sourceURL).error
    ensures r.Ok? && r.value.Some? ==> EndsWith(r.value.value.path, MapSuffix)
    ensures r.Ok? && r.value.Some? ==>
              BuildPrefix <= lib.urlPath(sourceURL).value || PluginsPrefix <= lib.urlPath(sourceURL).value
  {
    match lib.urlPath(sourceURL)
    case Err(e) => Err(e)
    case Ok(p) =>
      if BuildPrefix <= p then
        Ok(Some(SourceMapLocation(cfg.staticRootPath, lib.join("build", p[|BuildPrefix|..]) + MapSuffix, "")))
      else if PluginsPrefix <= p then
        Ok(MatchRoute(lib, routes, p))
      else
        Ok(None)
  }

  /** No location is found exactly when no route matches. */
  lemma {:induction false} MatchRouteNone(lib: Lib, routes: seq<Route>, p: string)
    ensures MatchRoute(lib, routes, p).None? <==> forall i :: 0 <= i < |routes| ==> !RouteMatches(lib, routes[i], p)
    decreases |routes|
  {
    if routes != [] {
      MatchRouteNone(lib, routes[1..], p);
      assert forall i :: 1 <= i < |routes| ==> routes[i] == routes[1..][i - 1];
    }
  }

  /** The first matching route decides the location. */
  lemma {:induction false} MatchRouteFirst(lib: Lib, routes: seq<Route>, p: string, i: int)
    requires IsFirstMatch(lib, routes, p, i)
    ensures MatchRoute(lib, routes, p) == Some(RouteLocation(lib, routes[i], p))
    decreases i
  {
    if i > 0 {
      assert !RouteMatches(lib, routes[0], p);
      assert forall j :: 0 <= j < i - 1 ==> routes[1..][j] == routes[j + 1];
      MatchRouteFirst(lib, routes[1..], p, i - 1);
    }
  }

  /** Any location found comes from the first matching route. */
  lemma {:induction false} MatchRouteSound(lib: Lib, routes: seq<Route>, p: string)
    requires MatchRoute(lib, routes, p).Some?
    ensures exists i :: IsFirstMatch(lib, routes, p, i) && MatchRoute(lib, routes, p).value == RouteLocation(lib, routes[i], p)
    decreases |routes|
  {
    if RouteMatches(lib, routes[0], p) {
      assert IsFirstMatch(lib, routes, p, 0);
    } else {
      MatchRouteSound(lib, routes[1..], p);
      var k :| IsFirstMatch(lib, routes[1..], p, k) && MatchRoute(lib, routes[1..], p).value == RouteLocation(lib, routes[1..][k], p);
      assert forall j :: 1 <= j <= k ==> routes[j] == routes[1..][j - 1];
      assert IsFirstMatch(lib, routes, p, k + 1);
    }
  }

  /** No URL path lies under both the build and the plugins prefix. */
  lemma PrefixesDisjoint(p: string)
    ensures BuildPrefix <= p ==> !(PluginsPrefix <= p)
  {
    if BuildPrefix <= p {
      assert p[8] == 'b';
    }
  }

  /** A core-build asset maps into the static root under `build/`, with no
      owning plugin. */
  lemma GuessBuild(lib: Lib, cfg: Config, routes: seq<Route>, sourceURL: string)
    requires lib.urlPath(sourceURL).Ok? && BuildPrefix <= lib.urlPath(sourceURL).value
    ensures var p := lib.urlPath(sourceURL).value;
            GuessLocation(lib, cfg, routes, sourceURL)
            == Ok(Some(SourceMapLocation(cfg.staticRootPath, lib.join("build", p[|BuildPrefix|..]) + MapSuffix, "")))
  {
  }

  /** A plugin asset maps into the directory of the first route whose
      prefix it starts with; the map path is the rest of the URL path
      followed by `.map`. */
  lemma GuessPlugin(lib: Lib, cfg: Config, routes: seq<Route>, sourceURL: string, i: int)
    requires lib.urlPath(sourceURL).Ok? && PluginsPrefix <= lib.urlPath(sourceURL).value
    requires IsFirstMatch(lib, routes, lib.urlPath(sourceURL).value, i)
    ensures var p := lib.urlPath(sourceURL).value;
            var prefix := PluginPrefix(lib, routes[i].pluginId);
            GuessLocation(lib, cfg, routes, sourceURL)
            == Ok(Some(SourceMapLocation(routes[i].directory, p[|prefix|..] + MapSuffix, routes[i].pluginId)))
  {
    var p := lib.urlPath(sourceURL).value;
    PrefixesDisjoint(p);
    MatchRouteFirst(lib, routes, p, i);
  }

  /** A plugin asset that no route claims, and any path under neither
      prefix, has an unknown location; this is not an error. */
  lemma GuessUnknown(lib: Lib, cfg: Config, routes: seq<Route>, sourceURL: string)
    requires lib.urlPath(sourceURL).Ok?
    requires var p := lib.urlPath(sourceURL).value;
             !(BuildPrefix <= p) && (PluginsPrefix <= p ==> forall i :: 0 <= i < |routes| ==> !RouteMatches(lib, routes[i], p))
    ensures GuessLocation(lib, cfg, routes, sourceURL) == Ok(None)
  {
    MatchRouteNone(lib, routes, lib.urlPath(sourceURL).value);
  }

  /** The prefix test is not bounded by a path segment: with a `join` that
      just concatenates, plugin `acme` listed before `acme-panel` claims the
      assets of `acme-panel`, and the map path keeps the tail of the other
      plugin's id. */
  lemma PluginPrefixCrossesSegments(lib: Lib, cfg: Config, sourceURL: string)
    requires lib.urlPath(sourceURL) == Ok("/public/plugins/acme-panel/module.js")
    requires lib.join(PluginsPrefix, "acme") == "/public/plugins/acme"
    ensures GuessLocation(lib, cfg, [Route("acme", "/a"), Route("acme-panel", "/b")], sourceURL)
            == Ok(Some(SourceMapLocation("/a", "-panel/module.js.map", "acme")))
  {
    var p := "/public/plugins/acme-panel/module.js";
    var acme := "/public/plugins/acme";
    assert p == acme + "-panel/module.js";
    assert p == PluginsPrefix + "acme-panel/module.js";
    PrefixesDisjoint(p);
    assert PluginsPrefix <= p;
    assert RouteMatches(lib, Route("acme", "/a"), p);
    assert p[|acme|..] == "-panel/module.js";
    assert RouteLocation(lib, Route("acme", "/a"), p) == SourceMapLocation("/a", "-panel/module.js.map", "acme");
  }
}
