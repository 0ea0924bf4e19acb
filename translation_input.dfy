/**
 * `TranslationInput`: a text box that sends its text to `/api/translate`
 * on Enter or space at once and otherwise after a pause, and reports to its
 * parent through `onLoadingChange` and `onTranslationComplete`. The model
 * keeps what it does outwardly as a log of events.
 */
module TranslationInput {
  import opened Wrappers
  import opened JsValues
  import opened ChatApi
  import opened ClientRequests

  /** What the component does outwardly: a parent callback, or a request posted. */
  datatype Event = LoadingChanged(isLoading: bool) | Requested(body: RequestBody) | Completed(result: Json)

  /** The requests posted in a log. */
  function RequestCount(events: seq<Event>): nat
  {
    if events == [] then 0 else (if events[0].Requested? then 1 else 0) + RequestCount(events[1..])
  }

  /** The `onTranslationComplete` calls in a log. */
  function CompletionCount(events: seq<Event>): nat
  {
    if events == [] then 0 else (if events[0].Completed? then 1 else 0) + CompletionCount(events[1..])
  }

  /** Counting the events of a log piece by piece. */
  lemma {:induction false} CountsAppend(events: seq<Event>, more: seq<Event>)
    ensures RequestCount(events + more) == RequestCount(events) + RequestCount(more)
    ensures CompletionCount(events + more) == CompletionCount(events) + CompletionCount(more)
  {
    if events == [] {
      assert events + more == more;
    } else {
      assert (events + more)[1..] == events[1..] + more;
      CountsAppend(events[1..], more);
    }
  }

  /** The events of `processTextForLanguages` up to the `fetch`: nothing for the empty text. */
  function SendEvents(text: string, languages: seq<string>): (r: seq<Event>)
    ensures text == "" ==> r == []
    ensures text != "" ==> r == [LoadingChanged(true), Requested(BodyFor(text, languages))]
    ensures RequestCount(r) == |RequestsFor(text, languages)| && CompletionCount(r) == 0
  {
    if text == "" then []
    else
      var r := [LoadingChanged(true), Requested(BodyFor(text, languages))];
      assert r[1..][1..] == [];
      assert RequestCount(r[1..]) == 1 && CompletionCount(r[1..]) == 0;
      r
  }

  /**
   * The events after the `fetch` ends: the parent gets `data.result || {
   * languages: [] }` on success and the fallback on every failure, then
   * `finally` switches loading off.
   */
  function ResponseEvents(outcome: FetchOutcome): (r: seq<Event>)
    ensures r == [Completed(ResultOf(outcome)), LoadingChanged(false)]
    ensures RequestCount(r) == 0 && CompletionCount(r) == 1
    ensures !outcome.Ok? ==> r[0] == Completed(EmptyLanguages)
  {
    var r := [Completed(ResultOf(outcome)), LoadingChanged(false)];
    assert r[1..][1..] == [];
    assert RequestCount(r[1..]) == 0 && CompletionCount(r[1..]) == 0;
    r
  }

  /** Unlike the page, the component passes on a truthy result that is not an object. */
  lemma PassesAnyTruthyResult(s: string)
    requires s != ""
    ensures ResponseEvents(Ok(Some(JObj([("result", JStr(s))]))))[0] == Completed(JStr(s))
  {
  }

  /** The component's state and the log of what it has done. */
  class TranslationInput {
    var text: string
    var specialKeyPressed: bool
    var pending: Option<nat>
    var nextTimer: nat
    var languages: seq<string>
    var inFlight: nat
    var events: seq<Event>

    /** The live timer is one already scheduled, and every completion answers an earlier request. */
    ghost predicate Valid()
      reads this
    {
      (pending.Some? ==> pending.value < nextTimer) &&
      RequestCount(events) == CompletionCount(events) + inFlight
    }

    /** The first render, with the parent's `selectedLanguages`. */
    constructor(selectedLanguages: seq<string>)
      ensures Valid()
      ensures text == "" && !specialKeyPressed && pending.None? && nextTimer == 0
      ensures languages == selectedLanguages && inFlight == 0 && events == []
    {
      text := "";
      specialKeyPressed := false;
      pending := None;
      nextTimer := 0;
      languages := selectedLanguages;
      inFlight := 0;
      events := [];
    }

    /** The parent renders again with other `selectedLanguages`. */
    method Rerender(selectedLanguages: seq<string>)
      requires Valid()
      modifies this
      ensures Valid()
      ensures languages == selectedLanguages
      ensures text == old(text) && specialKeyPressed == old(specialKeyPressed)
      ensures pending == old(pending) && nextTimer == old(nextTimer)
      ensures inFlight == old(inFlight) && events == old(events)
    {
      languages := selectedLanguages;
    }

    /** `processTextForLanguages` up to the `fetch`. */
    method Send()
      requires Valid()
      modifies this
      ensures Valid()
      ensures events == old(events) + SendEvents(text, languages)
      ensures inFlight == old(inFlight) + |RequestsFor(text, languages)|
      ensures text == old(text) && specialKeyPressed == old(specialKeyPressed)
      ensures pending == old(pending) && nextTimer == old(nextTimer) && languages == old(languages)
    {
      CountsAppend(events, SendEvents(text, languages));
      events := events + SendEvents(text, languages);
      if text != "" {
        inFlight := inFlight + 1;
      }
    }

    /** `handleKeyDown`: Enter or space raises the flag, takes the text and sends it at once. */
    method KeyDown(key: string, value: string)
      requires Valid()
      modifies this
      ensures Valid()
      ensures key == "Enter" || key == " " ==>
        specialKeyPressed && text == value && events == old(events) + SendEvents(value, languages) &&
        inFlight == old(inFlight) + |RequestsFor(value, languages)|
      ensures !(key == "Enter" || key == " ") ==>
        specialKeyPressed == old(specialKeyPressed) && text == old(text) &&
        events == old(events) && inFlight == old(inFlight)
      ensures pending == old(pending) && nextTimer == old(nextTimer) && languages == old(languages)
    {
      if key == "Enter" || key == " " {
        specialKeyPressed := true;
        text := value;
        Send();
      }
    }

    /**
     * `handleChange`: right after a send key only the flag is lowered;
     * otherwise the waiting timer is replaced by exactly one new one.
     */
    method Change(value: string)
      requires Valid()
      modifies this
      ensures Valid()
      ensures text == value && !specialKeyPressed
      ensures old(specialKeyPressed) ==> pending == old(pending) && nextTimer == old(nextTimer)
      ensures !old(specialKeyPressed) ==> pending == Some(old(nextTimer)) && nextTimer == old(nextTimer) + 1
      ensures old(pending).Some? && !old(specialKeyPressed) ==> pending != old(pending)
      ensures languages == old(languages) && inFlight == old(inFlight) && events == old(events)
    {
      if specialKeyPressed {
        specialKeyPressed := false;
        text := value;
      } else {
        text := value;
        pending := Some(nextTimer);
        nextTimer := nextTimer + 1;
      }
    }

    /** The timer `id` is due: only the live timer fires, and only a non-empty text is sent. */
    method TimerFires(id: nat)
      requires Valid()
      modifies this
      ensures Valid()
      ensures pending == (if old(pending) == Some(id) then None else old(pending))
      ensures old(pending) == Some(id) ==>
        events == old(events) + SendEvents(text, languages) &&
        inFlight == old(inFlight) + |RequestsFor(text, languages)|
      ensures old(pending) != Some(id) ==> events == old(events) && inFlight == old(inFlight)
      ensures text == old(text) && specialKeyPressed == old(specialKeyPressed)
      ensures nextTimer == old(nextTimer) && languages == old(languages)
    {
      if pending == Some(id) {
        pending := None;
        if text != "" {
          Send();
        }
      }
    }

    /** A request ends: the parent gets the result, then loading is switched off. */
    method Respond(outcome: FetchOutcome)
      requires Valid() && inFlight > 0
      modifies this
      ensures Valid()
      ensures events == old(events) + ResponseEvents(outcome) && inFlight == old(inFlight) - 1
      ensures text == old(text) && specialKeyPressed == old(specialKeyPressed)
      ensures pending == old(pending) && nextTimer == old(nextTimer) && languages == old(languages)
    {
      CountsAppend(events, ResponseEvents(outcome));
      events := events + ResponseEvents(outcome);
      inFlight := inFlight - 1;
    }
  }
}
