/** The result slot of the form component (`predictedData`, `loading`, `error`),
    how `handleSubmit` moves it for each way the request can end
    (src/components/form.tsx:34-36, 43-89), and the panel and button the JSX
    derives from it (src/components/form.tsx:98-106, 113-119). */
module Submission {
  import opened Js

  /** What `await response.json()` and the read of `predicted_completion_date`
      give: the property's value (`undefined` when it is missing), or an
      exception, because the body is not JSON or decodes to `null`. */
  datatype Body = MalformedJson(message: string) | Json(predictedCompletionDate: JsValue)

  /** How the `fetch` ends: it rejects with an error, or a response arrives
      with a status and a body. */
  datatype Outcome = Rejected(message: string) | Response(status: int, body: Body)

  /** The catch branch runs: the request rejected, or the 200 body could not be read. */
  predicate Throws(o: Outcome) {
    o.Rejected? || (o.status == 200 && o.body.MalformedJson?)
  }

  /** The 200 branch runs to `setPredictedData`. */
  predicate Delivers(o: Outcome) {
    o.Response? && o.status == 200 && o.body.Json?
  }

  /** Any status other than 200: only a toast. */
  predicate SoftFailure(o: Outcome) {
    o.Response? && o.status != 200
  }

  /** Every outcome takes exactly one of the three paths. */
  lemma OutcomePaths(o: Outcome)
    ensures Throws(o) || Delivers(o) || SoftFailure(o)
    ensures !(Throws(o) && Delivers(o)) && !(Throws(o) && SoftFailure(o)) && !(Delivers(o) && SoftFailure(o))
  {
  }

  datatype ResultSlot = ResultSlot(predictedData: JsValue, loading: bool, error: bool)

  /** `useState(null)`, `useState(false)`, `useState(false)`. */
  function InitialSlot(): (s: ResultSlot)
    ensures s.predictedData == Null && !s.loading && !s.error
  {
    ResultSlot(Null, false, false)
  }

  /** `setLoading(true)`, once the request body has been built. */
  function StartLoading(s: ResultSlot): (r: ResultSlot)
    ensures r.loading
    ensures r.predictedData == s.predictedData && r.error == s.error
  {
    s.(loading := true)
  }

  /** The rest of `handleSubmit` once the request settles: the 200 branch
      stores the prediction, the catch branch raises `error`, a non-200 status
      touches neither, and `finally` clears `loading` on every path. */
  function Settle(s: ResultSlot, o: Outcome): (r: ResultSlot)
    ensures !r.loading
    ensures r.error == (s.error || Throws(o))
    ensures r.predictedData == if Delivers(o) then o.body.predictedCompletionDate else s.predictedData
  {
    match o
    case Rejected(_) => s.(error := true, loading := false)
    case Response(status, body) =>
      if status == 200 then
        match body
        case MalformedJson(_) => s.(error := true, loading := false)
        case Json(v) => s.(predictedData := v, loading := false)
      else s.(loading := false)
  }

  /** One whole `handleSubmit`. */
  function Submit(s: ResultSlot, o: Outcome): (r: ResultSlot)
    ensures !r.loading
    ensures r.error == (s.error || Throws(o))
    ensures r.predictedData == if Delivers(o) then o.body.predictedCompletionDate else s.predictedData
  {
    Settle(StartLoading(s), o)
  }

  /** A non-200 response leaves the slot as it was before the submission:
      a stale prediction stays on screen. */
  lemma SoftFailureKeepsSlot(s: ResultSlot, o: Outcome)
    requires SoftFailure(o) && !s.loading
    ensures Submit(s, o) == s
  {
  }

  /** `useToast` notification raised on each path. */
  datatype Toast = Toast(title: string, description: string)

  function Notification(o: Outcome): (t: Toast)
    ensures t.title == "Error" <==> Throws(o)
    ensures !Throws(o) ==> t.title == "Result"
    ensures Throws(o) ==> t.description == (if o.Rejected? then o.message else o.body.message)
    ensures Delivers(o) ==> t.description == "Prediction Successful"
    ensures SoftFailure(o) ==> t.description == "Prediction Failed"
  {
    match o
    case Rejected(msg) => Toast("Error", msg)
    case Response(status, body) =>
      if status == 200 then
        match body
        case MalformedJson(msg) => Toast("Error", msg)
        case Json(_) => Toast("Result", "Prediction Successful")
      else Toast("Result", "Prediction Failed")
  }

  /** The four mutually exclusive things the prediction panel can show. */
  datatype Display = Spinner | Value(shown: JsValue) | ErrorText | NoData

  /** The nested conditional of the panel: `loading`, then a truthy
      `predictedData`, then `error`, else the placeholder. */
  function Show(s: ResultSlot): (d: Display)
    ensures d == Spinner <==> s.loading
    ensures d.Value? <==> !s.loading && Truthy(s.predictedData)
    ensures d.Value? ==> d.shown == s.predictedData
    ensures d == ErrorText <==> !s.loading && !Truthy(s.predictedData) && s.error
    ensures d == NoData <==> !s.loading && !Truthy(s.predictedData) && !s.error
  {
    if s.loading then Spinner
    else if Truthy(s.predictedData) then Value(s.predictedData)
    else if s.error then ErrorText
    else NoData
  }

  datatype Button = Button(disabled: bool, caption: string)

  /** The Predict button: disabled, and relabelled, while a request is in flight. */
  function PredictButton(s: ResultSlot): (b: Button)
    ensures b.disabled <==> s.loading
    ensures b.caption == (if s.loading then "Predicting..." else "Predict")
  {
    Button(s.loading, if s.loading then "Predicting..." else "Predict")
  }

  /** Before the first submission the panel shows the placeholder and the
      button is enabled. */
  lemma InitialDisplay()
    ensures Show(InitialSlot()) == NoData
    ensures !PredictButton(InitialSlot()).disabled
  {
  }

  /** While the request is awaited the panel shows the spinner and the button
      cannot be pressed, whatever the slot held before. */
  lemma InFlightDisplay(s: ResultSlot)
    ensures Show(StartLoading(s)) == Spinner
    ensures PredictButton(StartLoading(s)).disabled
  {
  }

  /** A sequence of complete submissions, one per outcome, oldest first. */
  function Run(s: ResultSlot, os: seq<Outcome>): ResultSlot
    decreases |os|
  {
    if os == [] then s else Run(Submit(s, os[0]), os[1..])
  }

  lemma {:induction false} RunSnoc(s: ResultSlot, os: seq<Outcome>, o: Outcome)
    ensures Run(s, os + [o]) == Submit(Run(s, os), o)
    decreases |os|
  {
    if os != [] {
      assert (os + [o])[1..] == os[1..] + [o];
      RunSnoc(Submit(s, os[0]), os[1..], o);
    }
  }

  /** The prediction of the most recent outcome that delivered one, or `p`
      when none did. */
  function LastDelivered(os: seq<Outcome>, p: JsValue): JsValue
    decreases |os|
  {
    if os == [] then p
    else if Delivers(os[|os| - 1]) then os[|os| - 1].body.predictedCompletionDate
    else LastDelivered(os[..|os| - 1], p)
  }

  predicate AnyThrow(os: seq<Outcome>) {
    exists i :: 0 <= i < |os| && Throws(os[i])
  }

  /** After any sequence of submissions: `predictedData` is the last delivered
      prediction (neither a throw nor a non-200 status clears it); `error` is
      set exactly when it was set before or some submission threw, so it is
      never reset; `loading` is clear once at least one submission completed. */
  lemma {:induction false} RunState(s: ResultSlot, os: seq<Outcome>)
    ensures Run(s, os).predictedData == LastDelivered(os, s.predictedData)
    ensures Run(s, os).error <==> s.error || AnyThrow(os)
    ensures Run(s, os).loading == (s.loading && os == [])
    decreases |os|
  {
    if os != [] {
      var init, o := os[..|os| - 1], os[|os| - 1];
      assert os == init + [o];
      RunSnoc(s, init, o);
      RunState(s, init);
      if AnyThrow(os) && !Throws(o) {
        var i :| 0 <= i < |os| && Throws(os[i]);
        assert init[i] == os[i];
      }
      if AnyThrow(init) {
        var i :| 0 <= i < |init| && Throws(init[i]);
        assert os[i] == init[i];
      }
    }
  }

  /** Once `error` is set, no later submission clears it. */
  lemma ErrorNeverReset(s: ResultSlot, os: seq<Outcome>)
    requires s.error
    ensures Run(s, os).error
  {
    RunState(s, os);
  }

  /** What the panel shows after one or more submissions: the last delivered
      prediction when it is truthy, otherwise the error text if any submission
      ever threw, otherwise the placeholder. In particular a throw followed by
      a later success shows the value, and an empty-string prediction falls
      through to the error text or the placeholder. */
  lemma DisplayAfterRun(s: ResultSlot, os: seq<Outcome>)
    requires os != []
    ensures var p := LastDelivered(os, s.predictedData);
      Show(Run(s, os)) ==
        if Truthy(p) then Value(p)
        else if s.error || AnyThrow(os) then ErrorText
        else NoData
    ensures !PredictButton(Run(s, os)).disabled
  {
    RunState(s, os);
  }

  /** A truthy prediction hides a later failure: the value stays on screen
      after a submission that throws, because the panel tests `predictedData`
      before `error`. */
  lemma StaleValueHidesLaterError(s: ResultSlot, v: JsValue, o: Outcome)
    requires Truthy(v) && Throws(o)
    ensures var after := Submit(Submit(s, Response(200, Json(v))), o);
      after.error && Show(after) == Value(v)
  {
  }

  /** A 200 response without a usable `predicted_completion_date` (missing,
      `null` or `""`) stores that falsy value, so the panel falls back to the
      error text or the placeholder even though the request succeeded. */
  lemma FalsyPredictionFallsThrough(s: ResultSlot, v: JsValue)
    requires !Truthy(v)
    ensures Show(Submit(s, Response(200, Json(v)))) == if s.error then ErrorText else NoData
  {
  }
}
