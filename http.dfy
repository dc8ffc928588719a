/** FastAPI's `HTTPException`, shared by the routers and the token checks. */
module Http {
  import opened Text

  /** An `HTTPException`: its status code and detail. */
  datatype HttpError = HttpError(status: int, detail: string)

  /** `str(exc)` of an `HTTPException`. */
  function HttpErrorText(e: HttpError): string {
    IntToString(e.status) + ": " + e.detail
  }
}
