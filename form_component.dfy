/** The `Form` component (src/components/form.tsx:10-89) as an object whose
    fields are its React state: `formState`, `predictedData`, `loading` and
    `error`. Each `set...` call of the source is an assignment to a field. */
module FormComponent {
  import opened Js
  import opened Payload
  import opened Submission

  class Form {
    var formState: FormState
    var predictedData: JsValue
    var loading: bool
    var error: bool

    /** The result slot the panel and the button are drawn from. */
    function Slot(): ResultSlot
      reads this
    {
      ResultSlot(predictedData, loading, error)
    }

    /** The component's first render: every field empty, no prediction, not
        loading, no error. */
    constructor ()
      ensures formState == EmptyForm()
      ensures Slot() == InitialSlot()
    {
      formState := EmptyForm();
      predictedData := Null;
      loading := false;
      error := false;
    }

    /** `handleInputChange`: the input with id `f` now holds `v`; nothing else
        changes. */
    method HandleInputChange(f: FieldId, v: string)
      modifies this`formState
      ensures formState == With(old(formState), f, v)
      ensures Get(formState, f) == v
      ensures forall g :: g != f ==> Get(formState, g) == Get(old(formState), g)
    {
      formState := With(formState, f, v);
    }

    /** The first half of `handleSubmit`, up to the `await`: the request body is
        built from the current form state, and only then is `loading` set. */
    method BeginSubmit(host: Host) returns (request: PredictionRequest)
      modifies this`loading
      ensures request == BuildRequest(formState, host)
      ensures Slot() == StartLoading(old(Slot()))
    {
      request := BuildRequest(formState, host);
      loading := true;
    }

    /** The second half of `handleSubmit`, once the request settles with
        outcome `o`: the status test, the catch branch and the `finally`. */
    method Settle(o: Outcome) returns (toast: Toast)
      modifies this`predictedData, this`loading, this`error
      ensures Slot() == Submission.Settle(old(Slot()), o)
      ensures toast == Notification(o)
    {
      match o {
        case Rejected(msg) =>
          error := true;
          toast := Toast("Error", msg);
        case Response(status, body) =>
          if status == 200 {
            match body {
              case MalformedJson(msg) =>
                error := true;
                toast := Toast("Error", msg);
              case Json(v) =>
                predictedData := v;
                toast := Toast("Result", "Prediction Successful");
            }
          } else {
            toast := Toast("Result", "Prediction Failed");
          }
      }
      loading := false;
    }

    /** One `handleSubmit` run to completion: the request posted, the slot
        moved by `Submit`, the toast raised; the form state is not touched. */
    method HandleSubmit(host: Host, o: Outcome) returns (request: PredictionRequest, toast: Toast)
      modifies this
      ensures formState == old(formState)
      ensures request == BuildRequest(formState, host)
      ensures Slot() == Submit(old(Slot()), o)
      ensures !loading
      ensures toast == Notification(o)
    {
      request := BeginSubmit(host);
      toast := Settle(o);
    }
  }
}
