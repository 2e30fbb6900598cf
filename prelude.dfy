/** Go building blocks every other module shares: error values, optional
    values, `(value, error)` results, instants of time, and the configuration
    values the services and the middleware read. */
module Prelude {

  /** A Go `error`. `Nil` is the nil interface; any other error is known to
      its callers only by its message. */
  datatype Error = Nil | Msg(text: string)

  datatype Option<+T> = None | Some(value: T)

  /** A Go `(value, error)` return where exactly one side is meaningful. */
  datatype Result<+T, +E> = Ok(value: T) | Err(error: E)

  /** `time.Time`: an instant on an abstract time line, in nanoseconds. */
  type Time = int

  /** `time.Duration`: a signed number of nanoseconds (tests use negative ones). */
  type Duration = int

  /** `t.After(u)`: strictly later. */
  predicate After(t: Time, u: Time)
  {
    t > u
  }

  /** The fields of `util.Config` that the core reads. */
  datatype Config = Config(
    jwtSecret: string,
    accessTokenDuration: Duration,
    refreshTokenDuration: Duration)

  /** `time.Parse(util.DateLayout, s)` and `t.Format(util.DateLayout)`: the
      layout and the parser belong to Go's time package, so both stay abstract.
      `parse` answers `None` where `time.Parse` returns an error. */
  datatype DateLayout = DateLayout(parse: string -> Option<Time>, format: Time -> string)

  const Int32Max: int := 0x7fff_ffff
  const Int32Min: int := -0x8000_0000

  /** Two's-complement wrap-around of a mathematical integer to int32, as Go's
      int32 arithmetic does silently. */
  function WrapInt32(x: int): (r: int)
    ensures Int32Min <= r <= Int32Max
    ensures (r - x) % 0x1_0000_0000 == 0
    ensures Int32Min <= x <= Int32Max ==> r == x
  {
    var m := (x - Int32Min) % 0x1_0000_0000;
    m + Int32Min
  }
}
