/** FastAPI's error channel: a handler either returns a value or raises an
    `HTTPException` with a status code and a detail text, which the framework
    turns into an error response. */
module Http {
  /** `HTTPException(status_code, detail)`. */
  datatype HttpException = HttpException(status: int, detail: string)

  /** What a handler does: return a value, or raise. */
  datatype Reply<+T> = Ok(value: T) | Raise(exception: HttpException)

  /** The handler raised with exactly this status. */
  predicate RaisedWith<T>(r: Reply<T>, status: int) {
    r.Raise? && r.exception.status == status
  }
}
