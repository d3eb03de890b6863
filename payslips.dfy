/** The monthly payslip dialog: the payroll query's filter, the period lookups, and the
    single and batch PDF downloads with their busy flags and notifications. */
module Payslips {
  import opened Wrappers
  import opened Sequences

  /** A payroll record as the list endpoint returns it (only the fields the dialog inspects). */
  datatype Payroll = Payroll(id: int, employeeId: int, month: int, year: int)

  /** The signed-in user. */
  datatype User = User(id: int, role: string)

  /** The employee drop-down: the empty option, or an option whose value went through `parseInt`
      (`None` when that gave `NaN`). */
  datatype EmployeeSelection = AllEmployees | Chosen(parsedId: Option<int>)

  predicate IsEmployee(user: Option<User>)
  {
    user.Some? && user.value.role == "employee"
  }

  predicate InPeriod(p: Payroll, month: int, year: int)
  {
    p.month == month && p.year == year
  }

  /** The records the query returns: the period filter first, then the role-dependent employee
      filter. A JavaScript `===` against `NaN` never holds, so `Chosen(None)` keeps nothing. */
  function VisiblePayrolls(all: seq<Payroll>, month: int, year: int, user: Option<User>,
                           selection: EmployeeSelection): (r: seq<Payroll>)
    ensures IsSubsequence(r, all)
    ensures forall p :: p in r ==> p in all && InPeriod(p, month, year) && multiset(r)[p] == multiset(all)[p]
    ensures IsEmployee(user) ==>
      forall p :: p in r <==> p in all && InPeriod(p, month, year) && p.employeeId == user.value.id
    ensures !IsEmployee(user) && selection.AllEmployees? ==>
      forall p :: p in r <==> p in all && InPeriod(p, month, year)
    ensures !IsEmployee(user) && selection.Chosen? ==>
      forall p :: p in r <==> p in all && InPeriod(p, month, year) && selection.parsedId == Some(p.employeeId)
  {
    var inPeriod := Filter(all, (p: Payroll) => InPeriod(p, month, year));
    if IsEmployee(user) then
      var own := Filter(inPeriod, (p: Payroll) => p.employeeId == user.value.id);
      FilterTwice(all, (p: Payroll) => InPeriod(p, month, year), (p: Payroll) => p.employeeId == user.value.id,
                  (p: Payroll) => InPeriod(p, month, year) && p.employeeId == user.value.id);
      own
    else if selection.Chosen? then
      var chosen := Filter(inPeriod, (p: Payroll) => selection.parsedId == Some(p.employeeId));
      FilterTwice(all, (p: Payroll) => InPeriod(p, month, year), (p: Payroll) => selection.parsedId == Some(p.employeeId),
                  (p: Payroll) => InPeriod(p, month, year) && selection.parsedId == Some(p.employeeId));
      chosen
    else
      inPeriod
  }

  /** What the employee drop-down holds does not matter to an employee caller. */
  lemma EmployeeIgnoresSelection(all: seq<Payroll>, month: int, year: int, user: Option<User>,
                                 s1: EmployeeSelection, s2: EmployeeSelection)
    requires IsEmployee(user)
    ensures VisiblePayrolls(all, month, year, user, s1) == VisiblePayrolls(all, month, year, user, s2)
    ensures forall p :: p in VisiblePayrolls(all, month, year, user, s1) ==> p.employeeId == user.value.id
  {
  }

  /** The year drop-down: this year and the two before it, newest first. */
  function Years(currentYear: int): (r: seq<int>)
    ensures |r| == 3 && r[0] == currentYear
    ensures forall i :: 0 < i < |r| ==> r[i] == r[i - 1] - 1
  {
    [currentYear, currentYear - 1, currentYear - 2]
  }

  datatype MonthEntry = MonthEntry(value: int, name: string)

  const Months: seq<MonthEntry> := [
    MonthEntry(1, "January"), MonthEntry(2, "February"), MonthEntry(3, "March"),
    MonthEntry(4, "April"), MonthEntry(5, "May"), MonthEntry(6, "June"),
    MonthEntry(7, "July"), MonthEntry(8, "August"), MonthEntry(9, "September"),
    MonthEntry(10, "October"), MonthEntry(11, "November"), MonthEntry(12, "December")]

  /** The lookup in the month table: the first entry whose value is `month`. */
  function FindMonth(entries: seq<MonthEntry>, month: int): (r: Option<MonthEntry>)
    ensures r.None? <==> forall k :: 0 <= k < |entries| ==> entries[k].value != month
    ensures r.Some? ==> exists k :: 0 <= k < |entries| && entries[k] == r.value && r.value.value == month &&
                                   forall j :: 0 <= j < k ==> entries[j].value != month
    decreases |entries|
  {
    if entries == [] then None
    else if entries[0].value == month then Some(entries[0])
    else
      var r := FindMonth(entries[1..], month);
      assert forall k :: 0 < k < |entries| ==> entries[k] == entries[1..][k - 1];
      r
  }

  /** The table lists the twelve months in calendar order. */
  lemma MonthsInOrder()
    ensures |Months| == 12
    ensures forall k :: 0 <= k < 12 ==> Months[k].value == k + 1 && Months[k].name != ""
  {
  }

  /** `getSelectedMonthName`: the month's name, or the empty string for a value outside 1..12. */
  function SelectedMonthName(month: int): (r: string)
    ensures 1 <= month <= 12 ==> r == Months[month - 1].name
    ensures !(1 <= month <= 12) ==> r == ""
  {
    MonthsInOrder();
    match FindMonth(Months, month)
    case Some(entry) => entry.name
    case None => ""
  }

  /** The fixed pause, in milliseconds, after each successful generation of a batch. */
  const PacingMs: nat := 500

  datatype Notice =
    | Downloaded(payroll: Payroll)
    | DownloadFailed(payroll: Payroll)
    | NoPayrollsFound
    | BatchDownloaded(count: nat)
    | BatchFailed(count: nat)

  /** What the dialog does that can be observed: generator calls, pauses and toasts. */
  datatype Event = Generate(payroll: Payroll) | Pause(ms: nat) | Toast(kind: ToastKind, notice: Notice)

  /** One turn of the batch loop: the call, then the pause only when the call succeeded. */
  function Attempt(p: Payroll, generate: Payroll -> bool): seq<Event>
  {
    if generate(p) then [Generate(p), Pause(PacingMs)] else [Generate(p)]
  }

  /** The events of the batch loop over `ps`. */
  function Attempts(ps: seq<Payroll>, generate: Payroll -> bool): seq<Event>
    decreases |ps|
  {
    if ps == [] then [] else Attempts(ps[..|ps| - 1], generate) + Attempt(ps[|ps| - 1], generate)
  }

  function Successes(ps: seq<Payroll>, generate: Payroll -> bool): nat
    decreases |ps|
  {
    if ps == [] then 0 else Successes(ps[..|ps| - 1], generate) + (if generate(ps[|ps| - 1]) then 1 else 0)
  }

  function Failures(ps: seq<Payroll>, generate: Payroll -> bool): nat
    decreases |ps|
  {
    if ps == [] then 0 else Failures(ps[..|ps| - 1], generate) + (if generate(ps[|ps| - 1]) then 0 else 1)
  }

  /** The two closing toasts, each only when its count is non-zero. */
  function Summary(successes: nat, failures: nat): (r: seq<Event>)
    ensures forall e :: e in r ==> e.Toast?
    ensures Toast(SuccessToast, BatchDownloaded(successes)) in r <==> successes > 0
    ensures Toast(ErrorToast, BatchFailed(failures)) in r <==> failures > 0
    ensures |r| == (if successes > 0 then 1 else 0) + (if failures > 0 then 1 else 0)
  {
    (if successes > 0 then [Toast(SuccessToast, BatchDownloaded(successes))] else []) +
    (if failures > 0 then [Toast(ErrorToast, BatchFailed(failures))] else [])
  }

  /** Everything a batch download over a non-empty list does. */
  function BatchEvents(ps: seq<Payroll>, generate: Payroll -> bool): seq<Event>
  {
    Attempts(ps, generate) + Summary(Successes(ps, generate), Failures(ps, generate))
  }

  /** The records handed to the generator, in call order. */
  function Generated(es: seq<Event>): seq<Payroll>
    decreases |es|
  {
    if es == [] then []
    else (if es[0].Generate? then [es[0].payroll] else []) + Generated(es[1..])
  }

  lemma {:induction false} GeneratedAppend(a: seq<Event>, b: seq<Event>)
    ensures Generated(a + b) == Generated(a) + Generated(b)
    decreases |a|
  {
    if a != [] {
      assert (a + b)[0] == a[0];
      assert (a + b)[1..] == a[1..] + b;
      GeneratedAppend(a[1..], b);
    } else {
      assert a + b == b;
    }
  }

  /** The batch calls the generator once per record, in list order, whatever the outcomes. */
  lemma {:induction false} AttemptsCallEachOnce(ps: seq<Payroll>, generate: Payroll -> bool)
    ensures Generated(Attempts(ps, generate)) == ps
    decreases |ps|
  {
    if ps != [] {
      var init, last := ps[..|ps| - 1], ps[|ps| - 1];
      AttemptsCallEachOnce(init, generate);
      GeneratedAppend(Attempts(init, generate), Attempt(last, generate));
      assert Generated(Attempt(last, generate)) == [last] by {
        assert Generated([Generate(last)]) == [last] by {
          assert [Generate(last)][1..] == [];
        }
        if generate(last) {
          assert Generated([Pause(PacingMs)]) == [] by {
            assert [Pause(PacingMs)][1..] == [];
          }
          assert Attempt(last, generate)[1..] == [Pause(PacingMs)];
        }
      }
      assert ps == init + [last];
    }
  }

  /** Every record ends up counted exactly once, as a success or as a failure. */
  lemma {:induction false} CountsCoverBatch(ps: seq<Payroll>, generate: Payroll -> bool)
    ensures Successes(ps, generate) + Failures(ps, generate) == |ps|
    decreases |ps|
  {
    if ps != [] {
      CountsCoverBatch(ps[..|ps| - 1], generate);
    }
  }

  /** In `es`, a pause always comes straight after a successful call, and a call is followed by a
      pause exactly when it succeeded. */
  ghost predicate PausesFollowSuccesses(es: seq<Event>, generate: Payroll -> bool)
  {
    && (forall k :: 0 <= k < |es| && es[k].Pause? ==>
          es[k].ms == PacingMs && 0 < k && es[k - 1].Generate? && generate(es[k - 1].payroll))
    && (forall k :: 0 <= k < |es| && es[k].Generate? ==>
          (generate(es[k].payroll) <==> k + 1 < |es| && es[k + 1].Pause?))
  }

  /** In the loop's events, a pause always comes straight after a successful call, and a call is
      followed by a pause exactly when it succeeded. */
  lemma {:induction false} PauseOnlyAfterSuccess(ps: seq<Payroll>, generate: Payroll -> bool)
    ensures PausesFollowSuccesses(Attempts(ps, generate), generate)
    decreases |ps|
  {
    if ps != [] {
      var init, last := ps[..|ps| - 1], ps[|ps| - 1];
      PauseOnlyAfterSuccess(init, generate);
      var front, tail := Attempts(init, generate), Attempt(last, generate);
      var es := front + tail;
      assert PausesFollowSuccesses(front, generate);
      assert tail[0] == Generate(last);
      assert generate(last) ==> |tail| == 2 && tail[1] == Pause(PacingMs);
      assert !generate(last) ==> |tail| == 1;
      forall k | 0 <= k < |es| && es[k].Pause?
        ensures es[k].ms == PacingMs && 0 < k && es[k - 1].Generate? && generate(es[k - 1].payroll)
      {
        if k >= |front| {
          assert es[k] == tail[k - |front|];
          assert k == |front| + 1;
          assert es[k - 1] == tail[0];
        } else {
          assert es[k] == front[k];
          assert es[k - 1] == front[k - 1];
        }
      }
      forall k | 0 <= k < |es| && es[k].Generate?
        ensures generate(es[k].payroll) <==> k + 1 < |es| && es[k + 1].Pause?
      {
        if k >= |front| {
          assert es[k] == tail[k - |front|];
          assert k == |front|;
          if generate(last) {
            assert es[k + 1] == tail[1];
          }
        } else {
          assert es[k] == front[k];
          if k + 1 < |front| {
            assert es[k + 1] == front[k + 1];
          } else {
            assert es[k + 1] == tail[0];
          }
        }
      }
    }
  }

  /** Neither the summary toasts nor anything else but a call reach the generator. */
  lemma BatchCallsEachOnce(ps: seq<Payroll>, generate: Payroll -> bool)
    ensures Generated(BatchEvents(ps, generate)) == ps
  {
    var s := Summary(Successes(ps, generate), Failures(ps, generate));
    AttemptsCallEachOnce(ps, generate);
    GeneratedAppend(Attempts(ps, generate), s);
    if |s| == 2 { assert s[1..][1..] == []; }
    if |s| >= 1 { assert Generated(s[1..]) == [] by { if |s| == 2 { assert s[1] in s; } } }
  }

  /** A batch started by an employee only ever generates that employee's own payslips. */
  lemma EmployeeBatchOnlyOwn(all: seq<Payroll>, month: int, year: int, user: Option<User>,
                             selection: EmployeeSelection, generate: Payroll -> bool)
    requires IsEmployee(user)
    ensures forall p :: p in Generated(BatchEvents(VisiblePayrolls(all, month, year, user, selection), generate)) ==>
      p.employeeId == user.value.id && InPeriod(p, month, year)
  {
    BatchCallsEachOnce(VisiblePayrolls(all, month, year, user, selection), generate);
  }

  /** The dialog's state: the period and employee selectors, the two busy flags and the log. */
  class PayslipDialog {
    const user: Option<User>
    var selectedMonth: int
    var selectedYear: int
    var selectedEmployee: EmployeeSelection
    var downloading: bool
    var downloadingAll: bool
    var events: seq<Event>

    /** Opens on the current month and year, all employees, nothing in progress. */
    constructor (user: Option<User>, currentMonth: int, currentYear: int)
      ensures this.user == user && selectedMonth == currentMonth && selectedYear == currentYear
      ensures selectedEmployee == AllEmployees && !downloading && !downloadingAll && events == []
    {
      this.user := user;
      selectedMonth, selectedYear := currentMonth, currentYear;
      selectedEmployee := AllEmployees;
      downloading, downloadingAll := false, false;
      events := [];
    }

    /** `handleDownloadSingle`: one generator call, one toast, and the busy flag cleared on
        either outcome. */
    method DownloadSingle(payroll: Payroll, generate: Payroll -> bool)
      modifies this`downloading, this`events
      ensures !downloading
      ensures events == old(events) + [Generate(payroll),
        if generate(payroll) then Toast(SuccessToast, Downloaded(payroll))
        else Toast(ErrorToast, DownloadFailed(payroll))]
    {
      downloading := true;
      events := events + [Generate(payroll)];
      if generate(payroll) {
        events := events + [Toast(SuccessToast, Downloaded(payroll))];
      } else {
        events := events + [Toast(ErrorToast, DownloadFailed(payroll))];
      }
      downloading := false;
    }

    /** `handleDownloadAll` over the query's data (`None` while it has not loaded). */
    method DownloadAll(payrollData: Option<seq<Payroll>>, generate: Payroll -> bool)
      modifies this`downloadingAll, this`events
      ensures payrollData.None? || payrollData.value == [] ==>
        events == old(events) + [Toast(ErrorToast, NoPayrollsFound)] && downloadingAll == old(downloadingAll)
      ensures payrollData.Some? && payrollData.value != [] ==>
        events == old(events) + BatchEvents(payrollData.value, generate) && !downloadingAll
    {
      if payrollData.None? || |payrollData.value| == 0 {
        events := events + [Toast(ErrorToast, NoPayrollsFound)];
        return;
      }
      var ps := payrollData.value;
      downloadingAll := true;
      var successCount, failureCount := 0, 0;
      for i := 0 to |ps|
        invariant downloadingAll
        invariant successCount == Successes(ps[..i], generate)
        invariant failureCount == Failures(ps[..i], generate)
        invariant events == old(events) + Attempts(ps[..i], generate)
      {
        assert ps[..i + 1][..i] == ps[..i];
        events := events + [Generate(ps[i])];
        if generate(ps[i]) {
          successCount := successCount + 1;
          events := events + [Pause(PacingMs)];
        } else {
          failureCount := failureCount + 1;
        }
      }
      assert ps[..|ps|] == ps;
      downloadingAll := false;
      if successCount > 0 {
        events := events + [Toast(SuccessToast, BatchDownloaded(successCount))];
      }
      if failureCount > 0 {
        events := events + [Toast(ErrorToast, BatchFailed(failureCount))];
      }
    }
  }
}
