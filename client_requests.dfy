/**
 * What the two client components share about a request to the API: the
 * body they post, the ways the `fetch` can end, and the fallback result
 * `{ languages: [] }` they use when it does not end well.
 */
module ClientRequests {
  import opened Wrappers
  import opened JsValues
  import opened ChatApi

  /**
   * How one request ends: a response that is not ok, with the body
   * `response.json()` gave (`None` when that threw); an ok response, with
   * its parsed body likewise; or a `fetch` that threw.
   */
  datatype FetchOutcome = NotOk(errorBody: Option<Json>) | Ok(data: Option<Json>) | FetchFailed

  /** `JSON.stringify({ textToTranslate, languages })`, read back by the handlers. */
  function BodyFor(text: string, languages: seq<string>): (b: RequestBody)
    ensures BodyText(b) == text && BodyLanguages(b) == languages
  {
    RequestBody(Some(text), Some(languages))
  }

  /** The requests `processTextForLanguages` sends for `text`: none for the empty text, else one. */
  function RequestsFor(text: string, languages: seq<string>): (r: seq<RequestBody>)
    ensures text == "" ==> r == []
    ensures text != "" ==> r == [BodyFor(text, languages)]
  {
    if text == "" then [] else [BodyFor(text, languages)]
  }

  /**
   * `data.result || { languages: [] }` for an ok response, where a `null`
   * body throws and the `catch`, like every other failure, gives the fallback.
   */
  function ResultOf(outcome: FetchOutcome): (r: Json)
    ensures outcome.Ok? && outcome.data.Some? && Truthy(Get(outcome.data.value, "result")) ==>
      Some(r) == Get(outcome.data.value, "result")
    ensures !(outcome.Ok? && outcome.data.Some? && Truthy(Get(outcome.data.value, "result"))) ==> r == EmptyLanguages
  {
    match outcome
    case Ok(Some(data)) => OrElse(Get(data, "result"), EmptyLanguages)
    case _ => EmptyLanguages
  }
}
