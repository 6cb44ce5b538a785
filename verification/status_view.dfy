/** The status dispatch both views share: the fetch hook's `status` string
    picks what is rendered. */
module StatusView {

  /** What a view renders for a fetch status; `C` is the view's own content. */
  datatype View<C> =
    | ErrorView(message: string)   // the error message component
    | LoaderView                   // the spinner
    | ContentView(content: C)      // the list or the map
    | StatusText(text: string)     // the raw status string

  const FailureStatus := "failure"
  const LoadingStatus := "loading"
  const DoneStatus := "done"

  /** `switch (status)` in `DaeListResult`. */
  function Dispatch<C>(status: string, error: string, content: C): (v: View<C>)
    ensures v.ErrorView? <==> status == "failure"
    ensures v.LoaderView? <==> status == "loading"
    ensures v.ContentView? <==> status == "done"
    ensures v.ErrorView? ==> v.message == error
    ensures v.ContentView? ==> v.content == content
    ensures v.StatusText? ==> v.text == status
  {
    if status == FailureStatus then ErrorView(error)
    else if status == LoadingStatus then LoaderView
    else if status == DoneStatus then ContentView(content)
    else StatusText(status)
  }

  /** The status a rendered view stands for. */
  function StatusOf<C>(v: View<C>): string {
    match v
    case ErrorView(_) => FailureStatus
    case LoaderView => LoadingStatus
    case ContentView(_) => DoneStatus
    case StatusText(t) => t
  }

  /** The status can always be read back from what is rendered. */
  lemma DispatchRoundTrip<C>(status: string, error: string, content: C)
    ensures StatusOf(Dispatch(status, error, content)) == status
  {
  }

  /** Which kind of view appears depends on the status alone, not on the
      content, so both views switch the same way on the same status. */
  lemma SameStatusSameKind<C, D>(status: string, e1: string, c: C, e2: string, d: D)
    ensures Dispatch(status, e1, c).ErrorView? == Dispatch(status, e2, d).ErrorView?
    ensures Dispatch(status, e1, c).LoaderView? == Dispatch(status, e2, d).LoaderView?
    ensures Dispatch(status, e1, c).ContentView? == Dispatch(status, e2, d).ContentView?
    ensures StatusOf(Dispatch(status, e1, c)) == StatusOf(Dispatch(status, e2, d))
  {
  }
}
