/**
 * Error-shape normalisation (`handleError`) and the error test that
 * `calculateChange` applies before touching a response.
 */
module Errors {
  import opened Json

  const GenericError := "error"
  const NoMessage := "no message provided"

  /** `obj.errno || obj.status`: the guard of `handleError`. */
  predicate Reported(o: Record)
  {
    TruthyAt(o, "errno") || TruthyAt(o, "status")
  }

  /** `response.error || response.errno || response.status`: the test by
      which `calculateChange` hands a response back untouched. */
  predicate HasErrorIndicator(o: Record)
  {
    TruthyAt(o, "error") || Reported(o)
  }

  /** `handleError`: a payload carrying `errno` or `status` becomes a fresh
      `{error, message}` object; anything else is returned as it is. */
  function HandleError(obj: Record): (r: Record)
    ensures Reported(obj) ==> r.Keys == {"error", "message"}
    ensures Reported(obj) ==> Truthy(r["error"])
    ensures Reported(obj) ==>
      r["error"] == (if TruthyAt(obj, "errno") then obj["errno"] else obj["status"])
    ensures Reported(obj) ==>
      r["message"] == (if TruthyAt(obj, "code") then obj["code"]
                       else if TruthyAt(obj, "description") then obj["description"]
                       else Str(NoMessage))
    ensures !Reported(obj) ==> r == obj
  {
    if Reported(obj) then
      map["error" := Or(Get(obj, "errno"), Or(Get(obj, "status"), Str(GenericError))),
          "message" := Or(Get(obj, "code"), Or(Get(obj, "description"), Str(NoMessage)))]
    else obj
  }

  /** A normalised record carries neither `errno` nor `status`, so
      normalising it again changes nothing. */
  lemma HandleErrorIdempotent(obj: Record)
    ensures !Reported(HandleError(obj))
    ensures HandleError(HandleError(obj)) == HandleError(obj)
  {
  }

  /** Normalisation keeps a payload on the same side of the error test that
      `calculateChange` applies afterwards. */
  lemma HandleErrorKeepsErrorClass(obj: Record)
    ensures HasErrorIndicator(HandleError(obj)) <==> HasErrorIndicator(obj)
  {
  }
}
