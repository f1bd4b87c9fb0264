/** What every execution of the workflow does, whatever the functions
    return: the order of its states, and how many notifications it sends. */
module WorkflowRuns {
  import opened Wrappers
  import opened Json
  import opened Workflow

  const ValidPath: seq<State> :=
    [FetchCustomerData, ExtractCustomerData, ValidateApplication, IsApplicationValid,
     ParallelProcessing, PrepareRiskAssessment, AssessRisk, RetrieveLoanHistory,
     MakeLoanDecision, UpdateLoanHistory, SendNotification]

  const InvalidPath: seq<State> :=
    [FetchCustomerData, ExtractCustomerData, ValidateApplication, IsApplicationValid,
     NotifyValidationFailure]

  /** The states an execution has left when it is in `s`. */
  function Before(s: State): seq<State>
  {
    match s
    case FetchCustomerData => []
    case ExtractCustomerData => ValidPath[..1]
    case ValidateApplication => ValidPath[..2]
    case IsApplicationValid => ValidPath[..3]
    case ParallelProcessing => ValidPath[..4]
    case PrepareRiskAssessment => ValidPath[..5]
    case AssessRisk => ValidPath[..6]
    case RetrieveLoanHistory => ValidPath[..7]
    case MakeLoanDecision => ValidPath[..8]
    case UpdateLoanHistory => ValidPath[..9]
    case SendNotification => ValidPath[..10]
    case NotifyValidationFailure => InvalidPath[..4]
    case _ => []
  }

  /** The number of notification invocations. */
  function Notifications(cs: seq<Call>): nat
  {
    if cs == [] then 0
    else (if cs[0].fn == NotificationFn then 1 else 0) + Notifications(cs[1..])
  }

  lemma {:induction false} NotificationsAppend(xs: seq<Call>, ys: seq<Call>)
    ensures Notifications(xs + ys) == Notifications(xs) + Notifications(ys)
  {
    if xs == [] {
      assert xs + ys == ys;
    } else {
      assert (xs + ys)[0] == xs[0];
      assert (xs + ys)[1..] == xs[1..] + ys;
      NotificationsAppend(xs[1..], ys);
    }
  }

  function Last<T>(s: seq<T>): T
    requires s != []
  {
    s[|s| - 1]
  }

  /** The shape of every execution reachable from the start: a running one
      has passed exactly the states before its own and sent nothing; a
      finished one has walked a prefix of one of the two paths, and sent
      one notification if it succeeded, at most one if it failed, and that
      one only when the notification itself was the failing state. */
  predicate Shaped(x: Execution)
  {
    if !x.state.Terminal() then
      x.state != NotifyError && x.trace == Before(x.state) && Notifications(x.calls) == 0
    else if x.state == Succeeded then
      (x.trace == ValidPath || x.trace == InvalidPath) && Notifications(x.calls) == 1
    else
      x.trace != [] && (x.trace <= ValidPath || x.trace <= InvalidPath)
      && Notifications(x.calls) <= 1
      && (Notifications(x.calls) == 1 ==> Last(x.trace) == SendNotification || Last(x.trace) == NotifyValidationFailure)
  }

  lemma BeforeOnPath(s: State)
    requires !s.Terminal() && s != NotifyError
    ensures Before(s) + [s] <= ValidPath || Before(s) + [s] <= InvalidPath
  {
  }

  /** The calls one step adds: those of its task, or the Parallel
      state's two, or none. */
  lemma StepAdds(w: Wiring, l: Lambdas, x: Execution) returns (added: seq<Call>)
    requires !x.state.Terminal()
    ensures Step(w, l, x).calls == x.calls + added
    ensures IsTask(x.state) ==> |added| <= 1 && (|added| == 1 ==> added[0].fn == TaskFn(x.state))
    ensures !IsTask(x.state) ==> forall i :: 0 <= i < |added| ==> added[i].fn != NotificationFn
    ensures Step(w, l, x).state == Succeeded ==> IsTask(x.state) && |added| == 1
  {
    var y := Step(w, l, x);
    added := y.calls[|x.calls|..];
    assert y.calls == x.calls + added;
    if IsTask(x.state) {
      TaskAdds(w, l, x);
    } else if x.state == ParallelProcessing {
      ParallelAdds(l, x);
    }
  }

  lemma TaskAdds(w: Wiring, l: Lambdas, x: Execution)
    requires IsTask(x.state)
    ensures var y := Step(w, l, x); var p := TaskPayload(w, x.state, x.data);
      && (p.None? ==> y.calls == x.calls && y.state.Failed?)
      && (p.Some? ==> y.calls == x.calls + [Call(TaskFn(x.state), p.value)])
  {
  }

  lemma ParallelAdds(l: Lambdas, x: Execution)
    requires x.state == ParallelProcessing
    ensures var y := Parallel(l, x); var input := BranchInput(x.data);
      && (input.None? ==> y.calls == x.calls)
      && (input.Some? ==> y.calls == x.calls + [Call(CreditCheckFn, input.value), Call(IncomeVerificationFn, input.value)])
  {
  }

  /** The notifications one step adds. */
  lemma StepCalls(w: Wiring, l: Lambdas, x: Execution)
    requires !x.state.Terminal()
    ensures var y := Step(w, l, x);
      && Notifications(y.calls) == Notifications(x.calls) + Notifications(y.calls[|x.calls|..])
      && (x.state != SendNotification && x.state != NotifyValidationFailure && x.state != NotifyError ==>
            Notifications(y.calls[|x.calls|..]) == 0)
      && Notifications(y.calls[|x.calls|..]) <= 1
      && (y.state == Succeeded ==> Notifications(y.calls[|x.calls|..]) == 1)
  {
    var y := Step(w, l, x);
    var added := StepAdds(w, l, x);
    assert y.calls[|x.calls|..] == added;
    NotificationsAppend(x.calls, added);
    if |added| == 2 {
      assert added == [added[0]] + [added[1]];
      NotificationsAppend([added[0]], [added[1]]);
    }
    if y.state == Succeeded {
      assert y.state == Next(x.state);
      assert x.state == SendNotification || x.state == NotifyValidationFailure || x.state == NotifyError;
      assert added == [added[0]];
    }
  }

  /** Moving on appends the state left to the states before it. */
  lemma BeforeNext(s: State)
    requires !s.Terminal() && s != NotifyError
    ensures !Next(s).Terminal() ==> Before(Next(s)) == Before(s) + [s]
    ensures Next(s) == Succeeded ==> Before(s) + [s] == ValidPath || Before(s) + [s] == InvalidPath
    ensures s == IsApplicationValid ==> Before(NotifyValidationFailure) == Before(s) + [s]
  {
  }

  lemma StepShaped(w: Wiring, l: Lambdas, x: Execution)
    requires !x.state.Terminal() && Shaped(x)
    ensures Shaped(Step(w, l, x))
  {
    var y := Step(w, l, x);
    StepCalls(w, l, x);
    BeforeNext(x.state);
    if y.state.Failed? {
      BeforeOnPath(x.state);
      assert Last(y.trace) == x.state;
    }
  }

  lemma {:induction false} LoopShaped(w: Wiring, l: Lambdas, x: Execution)
    requires Shaped(x)
    ensures Shaped(Loop(w, l, x))
    decreases Rank(x.state)
  {
    if !x.state.Terminal() {
      StepShaped(w, l, x);
      LoopShaped(w, l, Step(w, l, x));
    }
  }

  /** Every execution ends, having walked a prefix of the valid or of the
      invalid path; a successful one walked all of one of them. Notify
      Error is never visited. */
  lemma RunOrder(w: Wiring, l: Lambdas, input: Json)
    ensures var y := Run(w, l, input);
      && y.state.Terminal()
      && (y.trace <= ValidPath || y.trace <= InvalidPath)
      && (y.state == Succeeded ==> y.trace == ValidPath || y.trace == InvalidPath)
      && NotifyError !in y.trace
  {
    var y := Run(w, l, input);
    LoopShaped(w, l, Execution(FetchCustomerData, input, [], []));
    assert Shaped(y);
    PathsAvoidNotifyError(y.trace);
  }

  /** Notify Error lies on neither path, so not on any prefix of one. */
  lemma PathsAvoidNotifyError(t: seq<State>)
    requires t <= ValidPath || t <= InvalidPath
    ensures NotifyError !in t
  {
  }

  /** A successful execution sent exactly one notification; a failed one
      sent at most one, and one only when the failing state was the
      notification itself. */
  lemma RunNotifies(w: Wiring, l: Lambdas, input: Json)
    ensures var y := Run(w, l, input);
      && (y.state == Succeeded ==> Notifications(y.calls) == 1)
      && (y.state.Failed? ==> Notifications(y.calls) <= 1)
      && (y.state.Failed? && Notifications(y.calls) == 1 ==>
            Last(y.trace) == SendNotification || Last(y.trace) == NotifyValidationFailure)
  {
    LoopShaped(w, l, Execution(FetchCustomerData, input, [], []));
  }
}
