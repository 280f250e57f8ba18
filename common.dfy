/**
 * Shared value types of the OmniLink model: optional values, results that
 * carry the service layer's error kinds, and the error values themselves.
 */
module Common {

  datatype Option<T> = None | Some(value: T)
  {
    predicate IsSome() { Some? }

    function GetOr(default: T): T
    {
      match this
      case None => default
      case Some(v) => v
    }
  }

  /**
   * The kinds of error the services raise: the coded errors of the service layer
   * (bad request, not found, forbidden, server error) and a plain Go error value.
   */
  datatype ErrKind = BadRequest | NotFound | Forbidden | ServerError | Plain

  /** An error value as the services build it: a kind and a human-readable message. */
  datatype Error = Error(kind: ErrKind, msg: string)

  /** xerr.ErrParam: the generic bad-request error. */
  const ErrParam: Error := Error(BadRequest, "参数错误")

  /** xerr.ErrServerError: the generic internal error. */
  const ErrServerError: Error := Error(ServerError, "系统错误，请联系工作人员")

  /** A plain Go error built with fmt.Errorf or errors.New. */
  function PlainErr(msg: string): Error { Error(Plain, msg) }

  datatype Result<T> = Ok(value: T) | Err(error: Error)
  {
    predicate IsFailure() { Err? }
  }

  /** A result with no value: nil or an error. */
  datatype Status = Success | Failure(error: Error)
  {
    predicate IsFailure() { Failure? }
  }

  function Min(a: int, b: int): int { if a <= b then a else b }
  function Max(a: int, b: int): int { if a >= b then a else b }
}
