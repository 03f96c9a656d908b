/** Frame rewriting: the pure part of `resolveSourceLocation`, which turns
    a reported frame into its original position once the map is at hand. */
module Frames {
  import opened Wrappers
  import opened External

  /** The fields of `sentry.Frame` that the store reads or writes. */
  datatype Frame = Frame(filename: string, lineno: int, colno: int, funcName: string, moduleName: string)

  /** `sourceMap`: a parsed map and the plugin that owns it ("" for the
      core build). */
  datatype SourceMap = SourceMap(consumer: Consumer, pluginId: string)

  const UnknownFunction: string := "?"
  const CoreModule: string := "core"

  /** The function name reported: the map's, or `?` when the map has none. */
  function FunctionName(name: string): (f: string)
    ensures f != ""
    ensures name != "" ==> f == name
    ensures name == "" ==> f == UnknownFunction
  {
    if |name| == 0 then UnknownFunction else name
  }

  /** The module a frame is attributed to: its owning plugin, or `core`. */
  function ModuleOf(pluginId: string): (m: string)
    ensures m != ""
    ensures pluginId != "" ==> m == pluginId
    ensures pluginId == "" ==> m == CoreModule
  {
    if |pluginId| > 0 then pluginId else CoreModule
  }

  /** Ask the consumer for the original position of `frame` and build the
      rewritten frame; `None` when the map has no answer there. */
  function RewriteFrame(smap: SourceMap, frame: Frame): (r: Option<Frame>)
    ensures r.None? <==> smap.consumer.source(frame.lineno, frame.colno).None?
    ensures r.Some? ==>
              var o := smap.consumer.source(frame.lineno, frame.colno).value;
              && r.value.filename == o.file
              && r.value.lineno == o.line
              && r.value.colno == o.col
              && r.value.funcName != ""
              && (o.funcName != "" ==> r.value.funcName == o.funcName)
              && r.value.moduleName != ""
              && (smap.pluginId != "" ==> r.value.moduleName == smap.pluginId)
  {
    match smap.consumer.source(frame.lineno, frame.colno)
    case None => None
    case Some(o) => Some(Frame(o.file, o.line, o.col, FunctionName(o.funcName), ModuleOf(smap.pluginId)))
  }

  /** `resolveSourceLocation` after the map lookup: a load error is passed
      on unchanged, a missing map gives no frame, and a map rewrites the
      frame. */
  function ResolveWith(loaded: Result<Option<SourceMap>>, frame: Frame): (r: Result<Option<Frame>>)
    ensures r.Err? <==> loaded.Err?
    ensures r.Err? ==> r.error == loaded.error
    ensures loaded == Ok(None) ==> r == Ok(None)
    ensures r.Ok? && r.value.Some? ==> loaded.Ok? && loaded.value.Some?
    ensures loaded.Ok? && loaded.value.Some? ==> r == Ok(RewriteFrame(loaded.value.value, frame))
  {
    match loaded
    case Err(e) => Err(e)
    case Ok(None) => Ok(None)
    case Ok(Some(smap)) => Ok(RewriteFrame(smap, frame))
  }

  /** A map that sends the reported position to an original one yields
      exactly that original position, with the function name kept when
      the map has one and `?` otherwise. */
  lemma RewriteRoundTrip(smap: SourceMap, frame: Frame, o: Origin)
    requires smap.consumer.source(frame.lineno, frame.colno) == Some(o)
    ensures ResolveWith(Ok(Some(smap)), frame)
            == Ok(Some(Frame(o.file, o.line, o.col, if o.funcName == "" then UnknownFunction else o.funcName,
                             if smap.pluginId == "" then CoreModule else smap.pluginId)))
  {
  }
}
