/** What the registered global callback does with the server's answer: it
    decides between resolving and rejecting the request's promise. */
module JsonpResponse {
  import opened JsValues

  /** The decision the callback takes for one response. */
  datatype Outcome = Resolve(value: JsValue) | Reject(reason: JsValue)

  /** The response counts as an error, in the terms of the loader's documentation:
      it is missing (falsy), it carries a truthy `error`, or its data field is
      present and carries a truthy `error`. */
  predicate ServerError(res: JsValue, field: string) {
    || !Truthy(res)
    || Truthy(Get(res, "error"))
    || (Truthy(Get(res, field)) && Truthy(Get(Get(res, field), "error")))
  }

  /** The value the callback resolves with when the response is not an error:
      the data field when it is truthy, otherwise the whole response. */
  function Payload(res: JsValue, field: string): JsValue {
    if Truthy(Get(res, field)) then Get(res, field) else res
  }

  /** The callback registered under the request's name, written with the
      source's own `!`, `||` and `&&`. With checking off the raw response is
      passed through; with checking on the error test picks, in order, `true`
      for a missing response, the response's `error`, or the data field's `error`. */
  function Classify(checkResponse: bool, field: string, res: JsValue): (r: Outcome)
    ensures !checkResponse ==> r == Resolve(res)
    ensures checkResponse ==> (r.Reject? <==> ServerError(res, field))
    ensures checkResponse && !ServerError(res, field) ==> r == Resolve(Payload(res, field))
    ensures checkResponse && !Truthy(res) ==> r == Reject(Bool(true))
    ensures checkResponse && Truthy(res) && Truthy(Get(res, "error")) ==> r == Reject(Get(res, "error"))
    ensures checkResponse && Truthy(res) && !Truthy(Get(res, "error")) && ServerError(res, field) ==>
              r == Reject(Get(Get(res, field), "error"))
    ensures r.Reject? ==> Truthy(r.reason)
  {
    if checkResponse then
      var error := Or(Or(Not(res), Get(res, "error")), And(Get(res, field), Get(Get(res, field), "error")));
      if Truthy(error) then Reject(error) else Resolve(Or(And(res, Get(res, field)), res))
    else
      Resolve(res)
  }
}
