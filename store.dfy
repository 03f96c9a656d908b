/** The memoising loader (`SourceMapStore`, `getSourceMap`) and the frame
    resolver built on it (`resolveSourceLocation`). */
module Store {
  import opened Wrappers
  import opened External
  import opened Location
  import opened Frames

  /** The path handed to the reader: a path that already starts with `/`
      gets one more, and the result goes through `filepath.Clean`. */
  function NormalizePath(lib: Lib, path: string): string
  {
    lib.clean(if "/" <= path then "/" + path else path)
  }

  /** What a lookup of `sourceURL` yields when the cache has no entry for
      it: guess the location, read, parse. */
  function Load(lib: Lib, cfg: Config, read: Reader, routes: seq<Route>, sourceURL: string): Result<Option<SourceMap>>
  {
    match GuessLocation(lib, cfg, routes, sourceURL)
    case Err(e) => Err(e)
    case Ok(None) => Ok(None)
    case Ok(Some(loc)) =>
      match read(loc.dir, NormalizePath(lib, loc.path))
      case NotExist => Ok(None)
      case OtherErr(e) => Err(e)
      case Bytes(b) =>
        match lib.parse(sourceURL + MapSuffix, b)
        case Err(e) => Err(e)
        case Ok(consumer) => Ok(Some(SourceMap(consumer, loc.pluginId)))
  }

  /** What a lookup of `sourceURL` yields against `cache`. */
  function Lookup(cache: map<string, Option<SourceMap>>, lib: Lib, cfg: Config, read: Reader, routes: seq<Route>, sourceURL: string): Result<Option<SourceMap>>
  {
    if sourceURL in cache then Ok(cache[sourceURL]) else Load(lib, cfg, read, routes, sourceURL)
  }

  /** The cache after a lookup of `sourceURL`: a miss records every
      outcome that is not an error, and nothing else changes. */
  function AfterLookup(cache: map<string, Option<SourceMap>>, lib: Lib, cfg: Config, read: Reader, routes: seq<Route>, sourceURL: string): map<string, Option<SourceMap>>
  {
    if sourceURL in cache then cache
    else match Load(lib, cfg, read, routes, sourceURL)
      case Ok(v) => cache[sourceURL := v]
      case Err(_) => cache
  }

  /** Every entry agrees with an uncached load under `routes`. */
  ghost predicate CacheAgrees(cache: map<string, Option<SourceMap>>, lib: Lib, cfg: Config, read: Reader, routes: seq<Route>)
  {
    forall u :: u in cache ==> Load(lib, cfg, read, routes, u) == Ok(cache[u])
  }

  /** How many times a miss on `sourceURL` calls the reader. */
  ghost function ReaderCalls(lib: Lib, cfg: Config, routes: seq<Route>, sourceURL: string): nat
  {
    match GuessLocation(lib, cfg, routes, sourceURL)
    case Ok(Some(_)) => 1
    case _ => 0
  }

  /** How many times a miss on `sourceURL` calls the parser. */
  ghost function ParserCalls(lib: Lib, cfg: Config, read: Reader, routes: seq<Route>, sourceURL: string): nat
  {
    match GuessLocation(lib, cfg, routes, sourceURL)
    case Ok(Some(loc)) => if read(loc.dir, NormalizePath(lib, loc.path)).Bytes? then 1 else 0
    case _ => 0
  }

  /** The three outcomes of an uncached load. It is negative exactly when
      the location is unknown or the reader says the file does not exist;
      it fails exactly on a bad URL, another read error or a parse error,
      and passes that error on; a successful parse returns the parsed map
      with the location's plugin. */
  lemma LoadOutcomes(lib: Lib, cfg: Config, read: Reader, routes: seq<Route>, sourceURL: string)
    ensures var guess := GuessLocation(lib, cfg, routes, sourceURL);
            var r := Load(lib, cfg, read, routes, sourceURL);
            && (r == Ok(None) <==>
                  || guess == Ok(None)
                  || (guess.Ok? && guess.value.Some? &&
                      read(guess.value.value.dir, NormalizePath(lib, guess.value.value.path)) == NotExist))
            && (guess.Err? ==> r == Err(guess.error))
            && (guess.Ok? && guess.value.Some? ==>
                  var loc := guess.value.value;
                  var got := read(loc.dir, NormalizePath(lib, loc.path));
                  && (got.OtherErr? ==> r == Err(got.err))
                  && (got.Bytes? && lib.parse(sourceURL + MapSuffix, got.bytes).Err? ==>
                        r == Err(lib.parse(sourceURL + MapSuffix, got.bytes).error))
                  && (got.Bytes? && lib.parse(sourceURL + MapSuffix, got.bytes).Ok? ==>
                        r == Ok(Some(SourceMap(lib.parse(sourceURL + MapSuffix, got.bytes).value, loc.pluginId))))
                  && (r.Ok? && r.value.Some? ==>
                        && got.Bytes?
                        && lib.parse(sourceURL + MapSuffix, got.bytes) == Ok(r.value.value.consumer)
                        && r.value.value.pluginId == loc.pluginId))
            && (r.Ok? && r.value.Some? ==> guess.Ok? && guess.value.Some?)
  {
  }

  /** The cache is write-once: a lookup never changes or removes an entry,
      and adds at most the entry for the URL looked up. */
  lemma {:induction false} LookupWriteOnce(cache: map<string, Option<SourceMap>>, lib: Lib, cfg: Config, read: Reader, routes: seq<Route>, sourceURL: string)
    ensures var after := AfterLookup(cache, lib, cfg, read, routes, sourceURL);
            && (forall u :: u in cache ==> u in after && after[u] == cache[u])
            && after.Keys <= cache.Keys + {sourceURL}
            && (sourceURL in after <==> Lookup(cache, lib, cfg, read, routes, sourceURL).Ok?)
  {
  }

  /** A second lookup of the same URL after one that did not fail finds
      the entry: it returns the same value and changes nothing. */
  lemma {:induction false} LookupIdempotent(cache: map<string, Option<SourceMap>>, lib: Lib, cfg: Config, read: Reader, routes: seq<Route>, sourceURL: string)
    requires Lookup(cache, lib, cfg, read, routes, sourceURL).Ok?
    ensures var after := AfterLookup(cache, lib, cfg, read, routes, sourceURL);
            && sourceURL in after
            && Lookup(after, lib, cfg, read, routes, sourceURL) == Lookup(cache, lib, cfg, read, routes, sourceURL)
            && AfterLookup(after, lib, cfg, read, routes, sourceURL) == after
  {
  }

  /** Memoisation is transparent: while the routes stay the same, a cached
      lookup answers exactly as an uncached load would, and the cache keeps
      agreeing with uncached loads. */
  lemma {:induction false} LookupTransparent(cache: map<string, Option<SourceMap>>, lib: Lib, cfg: Config, read: Reader, routes: seq<Route>, sourceURL: string)
    requires CacheAgrees(cache, lib, cfg, read, routes)
    ensures Lookup(cache, lib, cfg, read, routes, sourceURL) == Load(lib, cfg, read, routes, sourceURL)
    ensures CacheAgrees(AfterLookup(cache, lib, cfg, read, routes, sourceURL), lib, cfg, read, routes)
  {
    var after := AfterLookup(cache, lib, cfg, read, routes, sourceURL);
    forall u | u in after
      ensures Load(lib, cfg, read, routes, u) == Ok(after[u])
    {
      if u != sourceURL || sourceURL in cache {
        assert u in cache && after[u] == cache[u];
      }
    }
  }

  /** `SourceMapStore`: the configuration and reader it was built with and
      the cache from source URL to map, where a present `None` is the
      negative entry. The ghost counters record how often the reader and
      the parser have been called. */
  class SourceMapStore {
    var cache: map<string, Option<SourceMap>>
    const cfg: Config
    const readSourceMap: Reader
    const lib: Lib
    ghost var readCalls: nat
    ghost var parseCalls: nat

    /** `NewSourceMapStore`. */
    constructor (cfg: Config, readSourceMap: Reader, lib: Lib)
      ensures cache == map[]
      ensures this.cfg == cfg && this.readSourceMap == readSourceMap && this.lib == lib
      ensures readCalls == 0 && parseCalls == 0
    {
      this.cache := map[];
      this.cfg := cfg;
      this.readSourceMap := readSourceMap;
      this.lib := lib;
      this.readCalls := 0;
      this.parseCalls := 0;
    }

    ghost predicate Consistent(routes: seq<Route>)
      reads this
    {
      CacheAgrees(cache, lib, cfg, readSourceMap, routes)
    }

    /** `getSourceMap`: a hit returns the entry without calling the reader
        or the parser; a miss loads, records negative and positive
        outcomes, and leaves the cache alone on an error. */
    method GetSourceMap(routes: seq<Route>, sourceURL: string) returns (r: Result<Option<SourceMap>>)
      modifies this`cache, this`readCalls, this`parseCalls
      ensures r == Lookup(old(cache), lib, cfg, readSourceMap, routes, sourceURL)
      ensures cache == AfterLookup(old(cache), lib, cfg, readSourceMap, routes, sourceURL)
      ensures sourceURL in old(cache) ==> readCalls == old(readCalls) && parseCalls == old(parseCalls)
      ensures sourceURL !in old(cache) ==>
                && readCalls == old(readCalls) + ReaderCalls(lib, cfg, routes, sourceURL)
                && parseCalls == old(parseCalls) + ParserCalls(lib, cfg, readSourceMap, routes, sourceURL)
      ensures r.Ok? <==> sourceURL in cache
      ensures old(Consistent(routes)) ==> Consistent(routes) && r == Load(lib, cfg, readSourceMap, routes, sourceURL)
    {
      if Consistent(routes) {
        LookupTransparent(cache, lib, cfg, readSourceMap, routes, sourceURL);
      }
      if sourceURL in cache {
        r := Ok(cache[sourceURL]);
        return;
      }
      var guess := GuessLocation(lib, cfg, routes, sourceURL);
      if guess.Err? {
        r := Err(guess.error);
        return;
      }
      if guess.value.None? {
        cache := cache[sourceURL := None];
        r := Ok(None);
        return;
      }
      var loc := guess.value.value;
      var path := loc.path;
      if "/" <= path {
        path := "/" + path;
      }
      path := lib.clean(path);
      readCalls := readCalls + 1;
      var got := readSourceMap(loc.dir, path);
      match got
      case NotExist =>
        cache := cache[sourceURL := None];
        r := Ok(None);
      case OtherErr(e) =>
        r := Err(e);
      case Bytes(b) =>
        parseCalls := parseCalls + 1;
        var consumer := lib.parse(sourceURL + MapSuffix, b);
        if consumer.Err? {
          r := Err(consumer.error);
          return;
        }
        var smap := SourceMap(consumer.value, loc.pluginId);
        cache := cache[sourceURL := Some(smap)];
        r := Ok(Some(smap));
    }

    /** `resolveSourceLocation`: look the map up as `GetSourceMap` does and
        rewrite the frame with it. */
    method ResolveSourceLocation(routes: seq<Route>, frame: Frame) returns (r: Result<Option<Frame>>)
      modifies this`cache, this`readCalls, this`parseCalls
      ensures r == ResolveWith(Lookup(old(cache), lib, cfg, readSourceMap, routes, frame.filename), frame)
      ensures cache == AfterLookup(old(cache), lib, cfg, readSourceMap, routes, frame.filename)
      ensures frame.filename in old(cache) ==> readCalls == old(readCalls) && parseCalls == old(parseCalls)
      ensures readCalls <= old(readCalls) + 1 && parseCalls <= old(parseCalls) + 1
      ensures old(Consistent(routes)) ==>
                Consistent(routes) && r == ResolveWith(Load(lib, cfg, readSourceMap, routes, frame.filename), frame)
    {
      var smap := GetSourceMap(routes, frame.filename);
      if smap.Err? {
        r := Err(smap.error);
        return;
      }
      if smap.value.None? {
        r := Ok(None);
        return;
      }
      var m := smap.value.value;
      var origin := m.consumer.source(frame.lineno, frame.colno);
      if origin.None? {
        r := Ok(None);
        return;
      }
      var o := origin.value;
      var funcName := o.funcName;
      if |funcName| == 0 {
        funcName := UnknownFunction;
      }
      var moduleName := CoreModule;
      if |m.pluginId| > 0 {
        moduleName := m.pluginId;
      }
      r := Ok(Some(Frame(o.file, o.line, o.col, funcName, moduleName)));
    }
  }

  /** Resolving the same frame twice: once the first call did not fail, the
      second gives the same answer, and the two together read and parse the
      map at most once. */
  method ResolveTwice(store: SourceMapStore, routes: seq<Route>, frame: Frame) returns (first: Result<Option<Frame>>, second: Result<Option<Frame>>)
    modifies store
    ensures first.Ok? ==> second == first
    ensures first.Ok? ==> store.readCalls <= old(store.readCalls) + 1 && store.parseCalls <= old(store.parseCalls) + 1
    ensures first.Ok? ==> store.cache == AfterLookup(old(store.cache), store.lib, store.cfg, store.readSourceMap, routes, frame.filename)
  {
    first := store.ResolveSourceLocation(routes, frame);
    second := store.ResolveSourceLocation(routes, frame);
  }
}
