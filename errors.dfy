/** Error results of the driver. The C code returns a negative errno on failure
    and a non-negative value (or 0) on success; the model keeps the two apart in
    a Result and maps back to the C integer with ReturnCode. */
module Errors {

  /** -EBUSY: a polling phase did not see its sentinel in time.
      -EINVAL: a null destination or an unsupported mode value. */
  datatype Error = Busy | InvalidArgument

  datatype Result<T> = Ok(value: T) | Err(error: Error)

  /** Linux errno values. */
  const EBUSY: int := 16
  const EINVAL: int := 22

  /** The negative C return value that stands for an error. */
  function Errno(e: Error): (c: int)
    ensures c < 0
    ensures c == -EBUSY <==> e == Busy
  {
    match e
    case Busy => -EBUSY
    case InvalidArgument => -EINVAL
  }

  /** The C integer a getter or setter returns: the value on success, the
      negative errno otherwise. */
  function ReturnCode(r: Result<nat>): (c: int)
    ensures c < 0 <==> r.Err?
    ensures r.Ok? ==> c == r.value
  {
    match r
    case Ok(v) => v
    case Err(e) => Errno(e)
  }

  /** How a C caller reads a return value back. */
  function FromReturnCode(c: int): Result<nat>
  {
    if c >= 0 then Ok(c)
    else if c == -EBUSY then Err(Busy)
    else Err(InvalidArgument)
  }

  /** A caller of the C interface loses nothing: every result can be
      recovered from the integer the function returns. */
  lemma ReturnCodeRoundTrip(r: Result<nat>)
    ensures FromReturnCode(ReturnCode(r)) == r
  {
    match r
    case Ok(v) =>
    case Err(e) =>
      assert ReturnCode(r) == Errno(e);
  }
}
