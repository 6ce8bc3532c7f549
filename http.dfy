/**
 * The outcome of one call to the REST backend. The HTTP client itself is not
 * modelled: every request is answered by an outcome the caller supplies.
 */
module Http {
  import opened Js

  /** A 2xx reply carrying `data`, or a failure carrying `err.response?.data?.message`. */
  datatype Response<+T> = Ok(data: T) | Failed(message: Option<string>)

  /** `err.response?.data?.message || fallback`: the text a screen shows for a failed request. */
  function ErrorText(message: Option<string>, fallback: string): (r: string)
    ensures fallback != "" ==> r != ""
  {
    if Truthy(message) then message.value else fallback
  }
}
