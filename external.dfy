/** The collaborators that source_maps.go calls but does not define: the Go
    standard library (`url.Parse`, `filepath.Join`, `filepath.Clean`), the
    go-sourcemap library (`sourcemap.Parse`, `Consumer.Source`) and the
    injected byte reader. Each is an arbitrary total function here, so
    everything proved holds whatever those functions do. */
module External {
  import opened Wrappers

  type Bytes = seq<bv8>

  /** What `Consumer.Source(line, col)` reports when it finds a mapping:
      the original file, function name, line and column. */
  datatype Origin = Origin(file: string, funcName: string, line: int, col: int)

  /** A parsed source map. `source` is the consumer's lookup; `None` stands
      for the `ok == false` answer. */
  datatype Consumer = Consumer(source: (int, int) -> Option<Origin>)

  /** The outcome of a `ReadSourceMapFn` call, with `os.IsNotExist` already
      applied to the error. */
  datatype ReadResult = Bytes(bytes: Bytes) | NotExist | OtherErr(err: Error)

  /** `ReadSourceMapFn`: directory and path in, bytes or an error out. */
  type Reader = (string, string) -> ReadResult

  /** The library functions source_maps.go calls. `urlPath` is `url.Parse`
      followed by taking the `Path` component. */
  datatype Lib = Lib(
    urlPath: string -> Result<string>,
    join: (string, string) -> string,
    clean: string -> string,
    parse: (string, Bytes) -> Result<Consumer>)

  /** The part of `setting.Cfg` the store reads. */
  datatype Config = Config(staticRootPath: string)
}
