/**
 * What an HTTP call through `requests` gives back to the adapters: a
 * response with its status code, its parsed JSON body and its raw text,
 * or the exception `requests` raised instead.
 */
module Web {
  import opened Py

  datatype Http = Response(status: int, body: Value, text: string) | RequestFailed(reason: string)

  /** `response.status_code == 200`, with a failed request counting as down. */
  predicate IsOk(response: Http)
  {
    response.Response? && response.status == 200
  }

  /** A two-entry dictionary `{"success": False, "error": message}`, the failure shape several adapters share. */
  function Failure(message: string): (r: Value)
    ensures r.Dict? && Get(r, "success") == Bool(false) && Get(r, "error") == Str(message)
  {
    var entries := [Entry("success", Bool(false)), Entry("error", Str(message))];
    LookupAt(entries, "error", 1);
    Dict(entries)
  }
}
