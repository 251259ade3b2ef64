/** The date-picker tasks as producers of widget commands. A task issues a
    fixed list of commands, one at a time, each awaited before the next.
    What the widget does in response is not modelled: the commands are
    opaque, and the `Widget` only decides, from the commands issued so far,
    whether the next one fails. A command that fails is not logged, and
    nothing after it is issued. */
module DatePickerTasks {
  import opened Outcomes
  import opened Actors

  datatype Command =
    | ClickDateInput
    | SelectMonth(month: string)
    | SelectYear(year: string)
    | ClickDay(day: string)
    | ClickPrev
    | ClickNext

  /** The commands the page has carried out, oldest first. */
  type Log = seq<Command>

  /** The widget's answer to a command, given the commands before it: `None`
      when it is carried out, or the failure (element or option not found). */
  type Widget = (Log, Command) -> Option<Error>

  /** The task catalogue, one variant per task factory. */
  datatype Task =
    | ClickOnDateField
    | SelectDate(day: string)
    | NavigateToPreviousMonth
    | NavigateToNextMonth
    | SelectMonthFromDropdown(month: string)
    | SelectYearFromDropdown(year: string)
    | SelectCompleteDate(month: string, year: string, day: string)
    | ChangeExistingDate(newMonth: string, newYear: string, newDay: string)
    | NavigateMonthsBackward(numberOfMonths: int)
    | NavigateMonthsForward(numberOfMonths: int)
  {
    predicate IsSingleStep()
    {
      !SelectCompleteDate? && !ChangeExistingDate? && !NavigateMonthsBackward? && !NavigateMonthsForward?
    }
  }

  /** `c` issued `n` times, as a counted loop `for (i = 0; i < n; i++)` does. */
  function Repeat(c: Command, n: int): seq<Command>
    decreases n
  {
    if n <= 0 then [] else [c] + Repeat(c, n - 1)
  }

  /** The commands a task issues when none of them fails. */
  function Script(t: Task): seq<Command>
    decreases if t.IsSingleStep() then 0 else 1
  {
    match t
    case ClickOnDateField => [ClickDateInput]
    case SelectDate(day) => [ClickDay(day)]
    case NavigateToPreviousMonth => [ClickPrev]
    case NavigateToNextMonth => [ClickNext]
    case SelectMonthFromDropdown(month) => [SelectMonth(month)]
    case SelectYearFromDropdown(year) => [SelectYear(year)]
    case SelectCompleteDate(month, year, day) =>
      Script(Task.ClickOnDateField) + Script(Task.SelectMonthFromDropdown(month))
      + Script(Task.SelectYearFromDropdown(year)) + Script(Task.SelectDate(day))
    case ChangeExistingDate(newMonth, newYear, newDay) =>
      Script(Task.ClickOnDateField) + Script(Task.SelectMonthFromDropdown(newMonth))
      + Script(Task.SelectYearFromDropdown(newYear)) + Script(Task.SelectDate(newDay))
    case NavigateMonthsBackward(n) => Repeat(ClickPrev, n)
    case NavigateMonthsForward(n) => Repeat(ClickNext, n)
  }

  /** One command sent to the widget. */
  function Issue(w: Widget, c: Command, log: Log): Outcome<Log>
  {
    match w(log, c)
    case None => Done(log + [c])
    case Some(e) => Failed(log, e)
  }

  /** Commands sent one after the other; the first failure ends the run. */
  function IssueAll(w: Widget, cmds: seq<Command>, log: Log): Outcome<Log>
    decreases |cmds|
  {
    if cmds == [] then Done(log)
    else
      match Issue(w, cmds[0], log)
      case Done(next) => IssueAll(w, cmds[1..], next)
      case Failed(_, _) => Issue(w, cmds[0], log)
  }

  /** A task as the actor runs it: a function of the page's command log. */
  function Perform(w: Widget, t: Task): Log -> Outcome<Log>
  {
    log => IssueAll(w, Script(t), log)
  }

  /** Reference description of a run of `cmds` from `log`: the new log is
      `log` followed by the first `k` commands, each of which the widget
      carried out at its turn; the run completed if `k` is all of them, and
      otherwise failed with the widget's answer to command `k`. */
  ghost predicate IsRunOf(w: Widget, cmds: seq<Command>, log: Log, o: Outcome<Log>)
  {
    var k := |o.state| - |log|;
    && 0 <= k <= |cmds|
    && o.state == log + cmds[..k]
    && (forall i | 0 <= i < k :: w(log + cmds[..i], cmds[i]) == None)
    && (o.Done? <==> k == |cmds|)
    && (o.Failed? ==> w(o.state, cmds[k]) == Some(o.error))
  }

  /** A run of commands is the run the reference description gives. */
  lemma {:induction false} IssueAllIsRun(w: Widget, cmds: seq<Command>, log: Log)
    ensures IsRunOf(w, cmds, log, IssueAll(w, cmds, log))
    decreases |cmds|
  {
    if cmds != [] {
      match w(log, cmds[0])
      case None =>
        var next := log + [cmds[0]];
        IssueAllIsRun(w, cmds[1..], next);
        var o := IssueAll(w, cmds[1..], next);
        var k := |o.state| - |next|;
        assert o.state == log + cmds[..k + 1] by {
          assert cmds[..k + 1] == [cmds[0]] + cmds[1..][..k];
        }
        forall i | 0 <= i < k + 1
          ensures w(log + cmds[..i], cmds[i]) == None
        {
          if i == 0 {
            assert log + cmds[..i] == log;
          } else {
            assert log + cmds[..i] == next + cmds[1..][..i - 1];
            assert cmds[i] == cmds[1..][i - 1];
          }
        }
      case Some(_) =>
    }
  }

  /** The reference description fixes the outcome: there is one run only. */
  lemma RunIsUnique(w: Widget, cmds: seq<Command>, log: Log, o1: Outcome<Log>, o2: Outcome<Log>)
    requires IsRunOf(w, cmds, log, o1) && IsRunOf(w, cmds, log, o2)
    ensures o1 == o2
  {
  }

  /** Sending `a` then `b` is sending their concatenation. */
  lemma {:induction false} IssueAllAppend(w: Widget, a: seq<Command>, b: seq<Command>, log: Log)
    ensures IssueAll(w, a + b, log) ==
      match IssueAll(w, a, log)
      case Done(mid) => IssueAll(w, b, mid)
      case Failed(_, _) => IssueAll(w, a, log)
    decreases |a|
  {
    if a == [] {
      assert a + b == b;
    } else {
      assert (a + b)[0] == a[0] && (a + b)[1..] == a[1..] + b;
      match Issue(w, a[0], log)
      case Done(next) => IssueAllAppend(w, a[1..], b, next);
      case Failed(_, _) =>
    }
  }

  /** A single command sent on its own. */
  lemma IssueOne(w: Widget, c: Command, log: Log)
    ensures IssueAll(w, [c], log) == Issue(w, c, log)
  {
    assert [c][0] == c && [c][1..] == [];
  }

  /** A counted loop over `n` issues exactly `max(n, 0)` copies of `c`, and
      nothing else. */
  lemma {:induction false} RepeatIsCount(c: Command, n: int)
    ensures |Repeat(c, n)| == if n <= 0 then 0 else n
    ensures forall i | 0 <= i < |Repeat(c, n)| :: Repeat(c, n)[i] == c
    decreases n
  {
    if n > 0 {
      RepeatIsCount(c, n - 1);
    }
  }

  /** `NavigateMonthsBackward(n)` clicks Prev `max(n, 0)` times and
      `NavigateMonthsForward(n)` clicks Next `max(n, 0)` times. */
  lemma NavigationScripts(n: int)
    ensures |Script(Task.NavigateMonthsBackward(n))| == if n <= 0 then 0 else n
    ensures forall i | 0 <= i < |Script(Task.NavigateMonthsBackward(n))| ::
      Script(Task.NavigateMonthsBackward(n))[i] == ClickPrev
    ensures |Script(Task.NavigateMonthsForward(n))| == if n <= 0 then 0 else n
    ensures forall i | 0 <= i < |Script(Task.NavigateMonthsForward(n))| ::
      Script(Task.NavigateMonthsForward(n))[i] == ClickNext
  {
    RepeatIsCount(ClickPrev, n);
    RepeatIsCount(ClickNext, n);
  }

  /** A single-step task issues exactly one command. */
  lemma SingleStepScripts(t: Task)
    requires t.IsSingleStep()
    ensures |Script(t)| == 1
  {
  }

  /** The complete-date composite in its order. */
  lemma CompleteDateScript(month: string, year: string, day: string)
    ensures Script(Task.SelectCompleteDate(month, year, day))
      == [ClickDateInput, SelectMonth(month), SelectYear(year), ClickDay(day)]
  {
  }

  /** Changing a date is the same mechanism as selecting one. */
  lemma ChangeIsSelectComplete(w: Widget, month: string, year: string, day: string, log: Log)
    ensures Script(Task.ChangeExistingDate(month, year, day)) == Script(Task.SelectCompleteDate(month, year, day))
    ensures Perform(w, Task.ChangeExistingDate(month, year, day))(log)
      == Perform(w, Task.SelectCompleteDate(month, year, day))(log)
  {
  }

  /** The one-month tasks are the counted ones with a count of one. */
  lemma OneMonthNavigation(w: Widget, log: Log)
    ensures Script(Task.NavigateToPreviousMonth) == Script(Task.NavigateMonthsBackward(1))
    ensures Script(Task.NavigateToNextMonth) == Script(Task.NavigateMonthsForward(1))
  {
  }

  /** The command lists of several tasks, one after the other. */
  function Scripts(ts: seq<Task>): seq<Command>
    decreases |ts|
  {
    if ts == [] then [] else Script(ts[0]) + Scripts(ts[1..])
  }

  /** Tasks as the actor receives them. */
  function PerformAll(w: Widget, ts: seq<Task>): (fs: seq<Log -> Outcome<Log>>)
    ensures |fs| == |ts|
    decreases |ts|
  {
    if ts == [] then [] else [Perform(w, ts[0])] + PerformAll(w, ts[1..])
  }

  /** An actor attempting several tasks sends the commands of all of them in
      order, and stops at the first command that fails. */
  lemma {:induction false} AttemptsToIssuesScripts(w: Widget, ts: seq<Task>, log: Log)
    ensures RunAll(PerformAll(w, ts), log) == IssueAll(w, Scripts(ts), log)
    decreases |ts|
  {
    if ts != [] {
      var fs := PerformAll(w, ts);
      assert fs[0] == Perform(w, ts[0]) && fs[1..] == PerformAll(w, ts[1..]);
      IssueAllAppend(w, Script(ts[0]), Scripts(ts[1..]), log);
      match IssueAll(w, Script(ts[0]), log)
      case Done(mid) => AttemptsToIssuesScripts(w, ts[1..], mid);
      case Failed(_, _) =>
    }
  }

  // The tasks as the source runs them: awaited calls on the actor's page.

  /** One click or option selection on the page. */
  method Send(actor: Actor<Log>, w: Widget, c: Command) returns (r: Completion)
    modifies actor.page
    ensures Settled(actor.page.state, r) == Issue(w, c, old(actor.page.state))
  {
    match w(actor.page.state, c)
    case None =>
      actor.page.state := actor.page.state + [c];
      r := Resolved;
    case Some(e) =>
      r := Rejected(e);
  }

  /** Sends one command as a whole task. */
  method SendOnly(actor: Actor<Log>, w: Widget, c: Command) returns (r: Completion)
    modifies actor.page
    ensures Settled(actor.page.state, r) == IssueAll(w, [c], old(actor.page.state))
  {
    IssueOne(w, c, actor.page.state);
    r := Send(actor, w, c);
  }

  method ClickOnDateField(actor: Actor<Log>, w: Widget) returns (r: Completion)
    modifies actor.page
    ensures Settled(actor.page.state, r) == Perform(w, Task.ClickOnDateField)(old(actor.page.state))
  {
    r := SendOnly(actor, w, ClickDateInput);
  }

  method SelectDate(actor: Actor<Log>, w: Widget, day: string) returns (r: Completion)
    modifies actor.page
    ensures Settled(actor.page.state, r) == Perform(w, Task.SelectDate(day))(old(actor.page.state))
  {
    r := SendOnly(actor, w, ClickDay(day));
  }

  method NavigateToPreviousMonth(actor: Actor<Log>, w: Widget) returns (r: Completion)
    modifies actor.page
    ensures Settled(actor.page.state, r) == Perform(w, Task.NavigateToPreviousMonth)(old(actor.page.state))
  {
    r := SendOnly(actor, w, ClickPrev);
  }

  method NavigateToNextMonth(actor: Actor<Log>, w: Widget) returns (r: Completion)
    modifies actor.page
    ensures Settled(actor.page.state, r) == Perform(w, Task.NavigateToNextMonth)(old(actor.page.state))
  {
    r := SendOnly(actor, w, ClickNext);
  }

  method SelectMonthFromDropdown(actor: Actor<Log>, w: Widget, month: string) returns (r: Completion)
    modifies actor.page
    ensures Settled(actor.page.state, r) == Perform(w, Task.SelectMonthFromDropdown(month))(old(actor.page.state))
  {
    r := SendOnly(actor, w, SelectMonth(month));
  }

  method SelectYearFromDropdown(actor: Actor<Log>, w: Widget, year: string) returns (r: Completion)
    modifies actor.page
    ensures Settled(actor.page.state, r) == Perform(w, Task.SelectYearFromDropdown(year))(old(actor.page.state))
  {
    r := SendOnly(actor, w, SelectYear(year));
  }

  /** Open the field, then pick month, year and day, each awaited in turn;
      a rejection stops the sequence and is passed on. */
  method SelectCompleteDate(actor: Actor<Log>, w: Widget, month: string, year: string, day: string)
    returns (r: Completion)
    modifies actor.page
    ensures Settled(actor.page.state, r) == Perform(w, Task.SelectCompleteDate(month, year, day))(old(actor.page.state))
  {
    ghost var start := actor.page.state;
    ghost var cmds := Script(Task.SelectCompleteDate(month, year, day));
    CompleteDateScript(month, year, day);
    assert cmds == [ClickDateInput] + [SelectMonth(month), SelectYear(year), ClickDay(day)];
    IssueAllAppend(w, [ClickDateInput], [SelectMonth(month), SelectYear(year), ClickDay(day)], start);
    r := ClickOnDateField(actor, w);
    if r.Rejected? { return; }
    ghost var s1 := actor.page.state;
    IssueAllAppend(w, [SelectMonth(month)], [SelectYear(year), ClickDay(day)], s1);
    r := SelectMonthFromDropdown(actor, w, month);
    if r.Rejected? { return; }
    ghost var s2 := actor.page.state;
    IssueAllAppend(w, [SelectYear(year)], [ClickDay(day)], s2);
    r := SelectYearFromDropdown(actor, w, year);
    if r.Rejected? { return; }
    r := SelectDate(actor, w, day);
  }

  /** The same four steps as `SelectCompleteDate`, written out again. */
  method ChangeExistingDate(actor: Actor<Log>, w: Widget, newMonth: string, newYear: string, newDay: string)
    returns (r: Completion)
    modifies actor.page
    ensures Settled(actor.page.state, r) == Perform(w, Task.ChangeExistingDate(newMonth, newYear, newDay))(old(actor.page.state))
  {
    ghost var start := actor.page.state;
    ghost var cmds := Script(Task.ChangeExistingDate(newMonth, newYear, newDay));
    ChangeIsSelectComplete(w, newMonth, newYear, newDay, start);
    CompleteDateScript(newMonth, newYear, newDay);
    assert cmds == [ClickDateInput] + [SelectMonth(newMonth), SelectYear(newYear), ClickDay(newDay)];
    IssueAllAppend(w, [ClickDateInput], [SelectMonth(newMonth), SelectYear(newYear), ClickDay(newDay)], start);
    r := ClickOnDateField(actor, w);
    if r.Rejected? { return; }
    ghost var s1 := actor.page.state;
    IssueAllAppend(w, [SelectMonth(newMonth)], [SelectYear(newYear), ClickDay(newDay)], s1);
    r := SelectMonthFromDropdown(actor, w, newMonth);
    if r.Rejected? { return; }
    ghost var s2 := actor.page.state;
    IssueAllAppend(w, [SelectYear(newYear)], [ClickDay(newDay)], s2);
    r := SelectYearFromDropdown(actor, w, newYear);
    if r.Rejected? { return; }
    r := SelectDate(actor, w, newDay);
  }

  /** Clicks Prev `numberOfMonths` times, awaiting each click. */
  method NavigateMonthsBackward(actor: Actor<Log>, w: Widget, numberOfMonths: int) returns (r: Completion)
    modifies actor.page
    ensures Settled(actor.page.state, r) == Perform(w, Task.NavigateMonthsBackward(numberOfMonths))(old(actor.page.state))
  {
    r := ClickRepeatedly(actor, w, ClickPrev, numberOfMonths);
  }

  /** Clicks Next `numberOfMonths` times, awaiting each click. */
  method NavigateMonthsForward(actor: Actor<Log>, w: Widget, numberOfMonths: int) returns (r: Completion)
    modifies actor.page
    ensures Settled(actor.page.state, r) == Perform(w, Task.NavigateMonthsForward(numberOfMonths))(old(actor.page.state))
  {
    r := ClickRepeatedly(actor, w, ClickNext, numberOfMonths);
  }

  /** The counted loop both navigation tasks share. */
  method ClickRepeatedly(actor: Actor<Log>, w: Widget, c: Command, n: int) returns (r: Completion)
    modifies actor.page
    ensures Settled(actor.page.state, r) == IssueAll(w, Repeat(c, n), old(actor.page.state))
  {
    ghost var start := actor.page.state;
    var i := 0;
    while i < n
      invariant 0 <= i && (i <= n || i == 0)
      invariant IssueAll(w, Repeat(c, n - i), actor.page.state) == IssueAll(w, Repeat(c, n), start)
      decreases n - i
    {
      assert Repeat(c, n - i)[0] == c && Repeat(c, n - i)[1..] == Repeat(c, n - i - 1);
      r := Send(actor, w, c);
      if r.Rejected? { return; }
      i := i + 1;
    }
    r := Resolved;
  }
}
