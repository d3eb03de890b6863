/** The goal-progress dialog: its form state seeded from a goal, the field handlers, the
    "mark as completed" shortcut, submission with its range check and auto-completion, the
    messages after the update call, and the overdue flag and progress bar. */
module Goals {
  import opened Wrappers

  const Completed: string := "completed"
  const Pending: string := "pending"
  const DefaultFailureMessage: string := "Failed to update goal"

  /** A number field of the goal prop, where `undefined` and `null` behave differently in
      arithmetic: `Math.min(null, 100)` is 0, `Math.min(undefined, 100)` is `NaN`. */
  datatype JsNumber = Undefined | Null | Number(value: int)
  {
    /** The field as the `||` and comparison code sees it: both missing forms are falsy. */
    function AsOption(): Option<int>
    {
      if Number? then Some(value) else None
    }
  }

  /** The goal the dialog is opened on (only the fields it reads). `targetDate` is the date as a
      timestamp; `None` when absent or empty. */
  datatype Goal = Goal(id: int, progress: JsNumber, status: Option<string>,
                       notes: Option<string>, targetDate: Option<int>)

  /** The dialog's `formData` state, which is also the body of the update call. */
  datatype FormData = FormData(progress: int, status: string, notes: string)

  /** The `name` of the form element that changed. */
  datatype FormField = ProgressField | StatusField | NotesField

  datatype GoalNotice = InvalidProgress | GoalCompleted | ProgressUpdated | UpdateFailed(message: string)

  /** How the update call ended: the server's error may carry a message. */
  datatype UpdateResponse = Updated | Failed(serverMessage: Option<string>)

  /** What the dialog does that can be observed. */
  datatype GoalEvent =
    | Mutate(goalId: int, data: FormData)
    | InvalidateGoals
    | Toast(kind: ToastKind, notice: GoalNotice)
    | Close

  /** The form built from a goal; missing or falsy fields fall back to 0, "pending" and "". */
  function FormFromGoal(goal: Goal): (f: FormData)
    ensures f.progress == goal.progress.AsOption().GetOr(0)
    ensures f.notes == goal.notes.GetOr("")
    ensures f.status != ""
    ensures goal.status.Some? && goal.status.value != "" ==> f.status == goal.status.value
    ensures goal.status.None? || goal.status.value == "" ==> f.status == Pending
  {
    FormData(OrFallback(goal.progress.AsOption(), 0, 0), OrFallback(goal.status, "", Pending), OrFallback(goal.notes, "", ""))
  }

  /** `useState` with `goal?.…`: no goal gives the all-default form, and a goal gives the same
      form the `useEffect` seeding would. */
  function InitialForm(goal: Option<Goal>): (f: FormData)
    ensures goal.None? ==> f == FormData(0, Pending, "")
    ensures goal.Some? ==> f == FormFromGoal(goal.value)
  {
    match goal
    case None => FormData(0, Pending, "")
    case Some(g) => FormFromGoal(g)
  }

  /** `handleChange`: only the named field is written. Progress takes the parsed integer, 0 when it
      is `NaN` (`parsed` is what `parseInt` gave), and is not clamped; the other fields take
      `value` as is. */
  function Changed(f: FormData, name: FormField, value: string, parsed: Option<int>): (g: FormData)
    ensures name != ProgressField ==> g.progress == f.progress
    ensures name != StatusField ==> g.status == f.status
    ensures name != NotesField ==> g.notes == f.notes
    ensures name == ProgressField ==> g.progress == parsed.GetOr(0)
    ensures name == StatusField ==> g.status == value
    ensures name == NotesField ==> g.notes == value
  {
    match name
    case ProgressField => f.(progress := OrFallback(parsed, 0, 0))
    case StatusField => f.(status := value)
    case NotesField => f.(notes := value)
  }

  /** `markAsCompleted`. */
  function MarkedCompleted(f: FormData): (g: FormData)
    ensures g.status == Completed && g.progress == 100 && g.notes == f.notes
  {
    f.(status := Completed, progress := 100)
  }

  /** The body `handleSubmit` sends, or `None` when the range check rejects the form. */
  function SubmitPayload(f: FormData): (r: Option<FormData>)
    ensures r.None? <==> f.progress < 0 || f.progress > 100
    ensures r.Some? ==> r.value.progress == f.progress && r.value.notes == f.notes
    ensures r.Some? ==> (r.value.status == Completed <==> f.progress == 100 || f.status == Completed)
    ensures r.Some? && f.progress != 100 ==> r.value.status == f.status
  {
    if f.progress < 0 || f.progress > 100 then None
    else Some(f.(status := if f.progress == 100 then Completed else f.status))
  }

  /** What `handleSubmit` does for the goal `goalId`: an error toast and nothing else, or the
      update call. */
  function SubmitEvents(goalId: int, f: FormData): (es: seq<GoalEvent>)
    ensures |es| == 1
    ensures es[0].Mutate? <==> 0 <= f.progress <= 100
    ensures es[0].Mutate? ==> es[0].goalId == goalId && Some(es[0].data) == SubmitPayload(f)
    ensures !es[0].Mutate? ==> es[0] == Toast(ErrorToast, InvalidProgress)
  {
    match SubmitPayload(f)
    case None => [Toast(ErrorToast, InvalidProgress)]
    case Some(data) => [Mutate(goalId, data)]
  }

  /** Submitting with progress 100 always sends "completed", whatever the status field holds. */
  lemma FullProgressCompletes(goalId: int, f: FormData)
    requires f.progress == 100
    ensures SubmitEvents(goalId, f) == [Mutate(goalId, FormData(100, Completed, f.notes))]
  {
  }

  /** The shortcut leads to a submission that passes the range check and sends "completed". */
  lemma MarkThenSubmit(goalId: int, f: FormData)
    ensures SubmitEvents(goalId, MarkedCompleted(f)) == [Mutate(goalId, FormData(100, Completed, f.notes))]
    ensures SuccessNotice(MarkedCompleted(f)) == GoalCompleted
  {
  }

  /** The success toast after the update is chosen from the form's status field. */
  function SuccessNotice(f: FormData): (n: GoalNotice)
    ensures n == GoalCompleted <==> f.status == Completed
    ensures n != GoalCompleted ==> n == ProgressUpdated
  {
    if f.status == Completed then GoalCompleted else ProgressUpdated
  }

  /** Auto-completion does not change the message: progress 100 with the field still on
      "in_progress" sends "completed" but shows the plain "updated" toast. */
  lemma AutoCompletedShowsPlainMessage(f: FormData)
    requires f.progress == 100 && f.status == "in_progress"
    ensures SubmitPayload(f).Some? && SubmitPayload(f).value.status == Completed
    ensures SuccessNotice(f) == ProgressUpdated
  {
  }

  /** The error toast's text: the server's message, or the fallback when it gave none. */
  function FailureMessage(serverMessage: Option<string>): (m: string)
    ensures m != ""
    ensures serverMessage.Some? && serverMessage.value != "" ==> m == serverMessage.value
    ensures serverMessage.None? || serverMessage.value == "" ==> m == DefaultFailureMessage
  {
    OrFallback(serverMessage, "", DefaultFailureMessage)
  }

  /** The mutation's `onSuccess` and `onError`. */
  function SettledEvents(f: FormData, response: UpdateResponse): (es: seq<GoalEvent>)
    ensures forall e :: e in es ==> !e.Mutate?
    ensures InvalidateGoals in es <==> response.Updated?
    ensures Toast(SuccessToast, SuccessNotice(f)) in es <==> response.Updated?
    ensures Close in es <==> response.Updated?
    ensures response.Updated? ==> |es| == 3 && es[0] == InvalidateGoals && es[|es| - 1] == Close
    ensures response.Updated? ==> forall e :: e in es && e.Toast? ==> e.kind == SuccessToast
    ensures response.Failed? ==> |es| == 1 && es[0].Toast? && es[0].kind == ErrorToast &&
                                 es[0].notice == UpdateFailed(FailureMessage(response.serverMessage))
  {
    match response
    case Updated => [InvalidateGoals, Toast(SuccessToast, SuccessNotice(f)), Close]
    case Failed(m) => [Toast(ErrorToast, UpdateFailed(FailureMessage(m)))]
  }

  /** `isOverdue`: a target date before `now` on a goal not yet completed. */
  predicate IsOverdue(goal: Goal, now: int)
  {
    goal.targetDate.Some? && goal.targetDate.value < now && goal.status != Some(Completed)
  }

  /** A completed goal and a goal without a target date are never overdue, and an overdue goal
      stays overdue as time passes. */
  lemma OverdueFacts(goal: Goal, now: int, later: int)
    requires now <= later
    ensures goal.status == Some(Completed) ==> !IsOverdue(goal, now)
    ensures goal.targetDate.None? ==> !IsOverdue(goal, now)
    ensures IsOverdue(goal, now) ==> IsOverdue(goal, later)
  {
  }

  datatype BarColour = Green | Blue | Yellow | Red

  /** The progress bar's colour. A missing progress (`undefined` or `null`) fails every `>=`
      test, so it is red. */
  function BarColourOf(progress: JsNumber): (c: BarColour)
    ensures c == Green <==> progress.Number? && progress.value >= 100
    ensures c == Blue <==> progress.Number? && 75 <= progress.value < 100
    ensures c == Yellow <==> progress.Number? && 50 <= progress.value < 75
    ensures c == Red <==> !progress.Number? || progress.value < 50
  {
    if !progress.Number? then Red
    else if progress.value >= 100 then Green
    else if progress.value >= 75 then Blue
    else if progress.value >= 50 then Yellow
    else Red
  }

  function ColourRank(c: BarColour): nat
  {
    match c
    case Red => 0
    case Yellow => 1
    case Blue => 2
    case Green => 3
  }

  /** More progress never gives a lower band. */
  lemma BarColourMonotone(p: int, q: int)
    requires p <= q
    ensures ColourRank(BarColourOf(Number(p))) <= ColourRank(BarColourOf(Number(q)))
  {
  }

  /** The bar's width in percent: the progress, at most 100. `null` counts as 0, and an
      `undefined` progress gives `NaN`, modelled as `None`. */
  function BarWidth(progress: JsNumber): (w: Option<int>)
    ensures w.None? <==> progress.Undefined?
    ensures progress.Null? ==> w == Some(0)
    ensures progress.Number? ==> w.Some? && w.value <= 100 && w.value <= progress.value
    ensures progress.Number? ==> (w.value == progress.value <==> progress.value <= 100)
  {
    match progress
    case Undefined => None
    case Null => Some(0)
    case Number(p) => Some(if p < 100 then p else 100)
  }

  /** The dialog's state: the form, updated in place by its handlers, and the event log. */
  class GoalDialog {
    var goal: Option<Goal>
    var formData: FormData
    var events: seq<GoalEvent>

    constructor (goal: Option<Goal>)
      ensures this.goal == goal && formData == InitialForm(goal) && events == []
    {
      this.goal := goal;
      formData := InitialForm(goal);
      events := [];
    }

    /** A new `goal` prop and the `useEffect` on it: a goal reseeds the form, no goal leaves the
        form as it is. */
    method OnGoalChanged(goal: Option<Goal>)
      modifies this`goal, this`formData
      ensures this.goal == goal
      ensures formData == if goal.Some? then FormFromGoal(goal.value) else old(formData)
    {
      this.goal := goal;
      if goal.Some? {
        formData := FormFromGoal(goal.value);
      }
    }

    method HandleChange(name: FormField, value: string, parsed: Option<int>)
      modifies this`formData
      ensures formData == Changed(old(formData), name, value, parsed)
    {
      formData := Changed(formData, name, value, parsed);
    }

    method MarkAsCompleted()
      modifies this`formData
      ensures formData == MarkedCompleted(old(formData))
    {
      formData := MarkedCompleted(formData);
    }

    /** `handleSubmit`, reachable only while a goal is shown: the form itself is never changed. */
    method HandleSubmit()
      requires goal.Some?
      modifies this`events
      ensures events == old(events) + SubmitEvents(goal.value.id, formData)
    {
      if formData.progress < 0 || formData.progress > 100 {
        events := events + [Toast(ErrorToast, InvalidProgress)];
        return;
      }
      var dataToSubmit := formData.(status := if formData.progress == 100 then Completed else formData.status);
      events := events + [Mutate(goal.value.id, dataToSubmit)];
    }

    /** The update call's outcome arriving. */
    method OnUpdateSettled(response: UpdateResponse)
      modifies this`events
      ensures events == old(events) + SettledEvents(formData, response)
    {
      match response
      case Updated =>
        events := events + [InvalidateGoals, Toast(SuccessToast, SuccessNotice(formData)), Close];
      case Failed(m) =>
        events := events + [Toast(ErrorToast, UpdateFailed(FailureMessage(m)))];
    }
  }
}
