/** Configuration of the request-timeout middleware: the recognised options and
    how a missing option is replaced by its default. */
module Config {

  /** Per-cycle duration for ordinary requests, in milliseconds (10 seconds). */
  const DEFAULT_TIMEOUT: int := 10 * 1000
  /** Per-cycle duration for multipart/form-data uploads (1 minute). */
  const DEFAULT_UPLOAD_TIMEOUT: int := 60 * 1000
  /** Ceiling on the cumulative time of all cycles of one request (10 minutes). */
  const DEFAULT_MAX_TIMEOUT: int := 10 * 60 * 1000

  datatype Option<+T> = None | Some(value: T)

  /** An error constructor, kept as an opaque tag: the built-in `Error`, or a
      constructor supplied by the application, known only by its name. */
  datatype ErrorCtor = Error | Custom(name: string)

  /** The options object as the application passes it; `None` stands for a
      field that is `null` or `undefined`. */
  datatype RawOptions = RawOptions(
    timeout: Option<int>,
    uploadTimeout: Option<int>,
    maxTimeout: Option<int>,
    errorPrototype: Option<ErrorCtor>)

  /** The options after defaulting, shared read-only by every request. */
  datatype Settings = Settings(
    timeout: int,
    uploadTimeout: int,
    maxTimeout: int,
    errorPrototype: ErrorCtor)

  /** The value of an option, or `fallback` when it is null or undefined. */
  function OrDefault<T>(v: Option<T>, fallback: T): T {
    match v
    case None => fallback
    case Some(x) => x
  }

  /** A provided option, whatever its value (0 included), is the setting. */
  predicate Keeps<T(==)>(v: Option<T>, setting: T, fallback: T) {
    (v.Some? ==> setting == v.value) && (v.None? ==> setting == fallback)
  }

  /** The defaulting done once when the middleware is created: a missing options
      object behaves like an empty one, and every option compared `== null`
      is replaced by its default. */
  function Configure(options: Option<RawOptions>): (s: Settings)
    ensures options.None? ==>
      s == Settings(DEFAULT_TIMEOUT, DEFAULT_UPLOAD_TIMEOUT, DEFAULT_MAX_TIMEOUT, Error)
    ensures options.Some? ==>
      && Keeps(options.value.timeout, s.timeout, DEFAULT_TIMEOUT)
      && Keeps(options.value.uploadTimeout, s.uploadTimeout, DEFAULT_UPLOAD_TIMEOUT)
      && Keeps(options.value.maxTimeout, s.maxTimeout, DEFAULT_MAX_TIMEOUT)
      && Keeps(options.value.errorPrototype, s.errorPrototype, Error)
  {
    var o := OrDefault(options, RawOptions(None, None, None, None));
    Settings(
      OrDefault(o.timeout, DEFAULT_TIMEOUT),
      OrDefault(o.uploadTimeout, DEFAULT_UPLOAD_TIMEOUT),
      OrDefault(o.maxTimeout, DEFAULT_MAX_TIMEOUT),
      OrDefault(o.errorPrototype, Error))
  }

  /** The options object that provides every setting explicitly. */
  function Provide(s: Settings): RawOptions {
    RawOptions(Some(s.timeout), Some(s.uploadTimeout), Some(s.maxTimeout), Some(s.errorPrototype))
  }

  /** Defaulting never overrides a value that is present: configuring with
      every option provided gives back exactly those values, zeros included. */
  lemma ConfigureKeepsProvided(s: Settings)
    ensures Configure(Some(Provide(s))) == s
  {
  }

  /** Defaulting is idempotent: the settings it produces, passed in again,
      come back unchanged. */
  lemma ConfigureIdempotent(options: Option<RawOptions>)
    ensures Configure(Some(Provide(Configure(options)))) == Configure(options)
  {
    ConfigureKeepsProvided(Configure(options));
  }
}
