/** The actor of the Screenplay pattern: a name, the browser page it owns,
    a fail-fast sequencer for tasks and a pass-through for questions.
    A task is modelled as a function from the page's state to an outcome;
    the state `S` is abstract here. */
module Actors {
  import opened Outcomes

  /** Runs `tasks` left to right from `s`: each task starts from the state
      the previous one left, and the first failure ends the run. */
  function RunAll<S>(tasks: seq<S -> Outcome<S>>, s: S): Outcome<S>
    decreases |tasks|
  {
    if tasks == [] then Done(s)
    else
      match tasks[0](s)
      case Done(next) => RunAll(tasks[1..], next)
      case Failed(_, _) => tasks[0](s)
  }

  /** Continues an outcome with more tasks, unless it already failed. */
  function Continue<S>(o: Outcome<S>, rest: seq<S -> Outcome<S>>): Outcome<S>
  {
    match o
    case Done(s) => RunAll(rest, s)
    case Failed(_, _) => o
  }

  /** Reference definition of a sequential run, built from the last task
      backwards: run all but the last task, then the last one if nothing
      failed. */
  function RunFromEnd<S>(tasks: seq<S -> Outcome<S>>, s: S): Outcome<S>
    decreases |tasks|
  {
    if tasks == [] then Done(s)
    else
      match RunFromEnd(tasks[..|tasks| - 1], s)
      case Done(before) => tasks[|tasks| - 1](before)
      case Failed(_, _) => RunFromEnd(tasks[..|tasks| - 1], s)
  }

  /** No tasks: the state is left as it was and the run succeeds. */
  lemma RunAllEmpty<S>(s: S)
    ensures RunAll([], s) == Done(s)
  {
  }

  /** Running two lists one after the other is running their concatenation. */
  lemma {:induction false} RunAllAppend<S>(a: seq<S -> Outcome<S>>, b: seq<S -> Outcome<S>>, s: S)
    ensures RunAll(a + b, s) == Continue(RunAll(a, s), b)
    decreases |a|
  {
    if a == [] {
      assert a + b == b;
    } else {
      assert (a + b)[0] == a[0];
      assert (a + b)[1..] == a[1..] + b;
      match a[0](s)
      case Done(next) => RunAllAppend(a[1..], b, next);
      case Failed(_, _) =>
    }
  }

  /** The fold agrees with the reference definition: each task is applied,
      in the order given, to the state the tasks before it produced. */
  lemma {:induction false} RunAllLeftToRight<S>(tasks: seq<S -> Outcome<S>>, s: S)
    ensures RunAll(tasks, s) == RunFromEnd(tasks, s)
    decreases |tasks|
  {
    if tasks != [] {
      var n := |tasks| - 1;
      var init, last := tasks[..n], tasks[n];
      assert tasks == init + [last];
      RunAllAppend(init, [last], s);
      RunAllLeftToRight(init, s);
      match RunAll(init, s)
      case Done(before) =>
        assert [last][0] == last && [last][1..] == [];
        assert RunAll([last], before) == last(before) by {
          match last(before)
          case Done(after) => assert RunAll([last][1..], after) == Done(after);
          case Failed(_, _) =>
        }
      case Failed(_, _) =>
    }
  }

  /** Fail-fast: when task `k` is the first to fail, the run returns exactly
      its failure, and the tasks after it play no part. */
  lemma {:induction false} FailFast<S>(tasks: seq<S -> Outcome<S>>, k: nat, s: S)
    requires k < |tasks|
    requires RunAll(tasks[..k], s).Done?
    requires tasks[k](RunAll(tasks[..k], s).state).Failed?
    ensures RunAll(tasks, s) == tasks[k](RunAll(tasks[..k], s).state)
  {
    assert tasks == tasks[..k] + tasks[k..];
    RunAllAppend(tasks[..k], tasks[k..], s);
    assert tasks[k..][0] == tasks[k];
  }

  /** Once a prefix of the list has failed, appending more tasks changes
      nothing: the later tasks never run. */
  lemma {:induction false} LaterTasksNeverRun<S>(ran: seq<S -> Outcome<S>>, later: seq<S -> Outcome<S>>, s: S)
    requires RunAll(ran, s).Failed?
    ensures RunAll(ran + later, s) == RunAll(ran, s)
  {
    RunAllAppend(ran, later, s);
  }

  /** The browser page an actor owns: a handle onto state that tasks change. */
  class Page<S> {
    var state: S

    constructor (initial: S)
      ensures state == initial
    {
      state := initial;
    }
  }

  class Actor<S> {
    const name: string
    const page: Page<S>

    /** `name` and `page` are fixed here and are constants afterwards. */
    constructor (name: string, page: Page<S>)
      ensures this.name == name && this.page == page
    {
      this.name := name;
      this.page := page;
    }

    /** Awaits each task in turn against this actor's page; the first
        rejection stops the loop and is passed to the caller. */
    method AttemptsTo(tasks: seq<S -> Outcome<S>>) returns (c: Completion)
      modifies page
      ensures Settled(page.state, c) == RunAll(tasks, old(page.state))
    {
      ghost var start := page.state;
      for i := 0 to |tasks|
        invariant RunAll(tasks[i..], page.state) == RunAll(tasks, start)
      {
        assert tasks[i..][0] == tasks[i] && tasks[i..][1..] == tasks[i + 1..];
        var o := tasks[i](page.state);
        page.state := o.state;
        if o.Failed? {
          return Rejected(o.error);
        }
      }
      assert tasks[|tasks|..] == [];
      return Resolved;
    }

    /** Returns the question's answer about the page, changing nothing. */
    method Asks<T>(question: S -> T) returns (answer: T)
      ensures answer == question(page.state)
    {
      answer := question(page.state);
    }
  }
}
