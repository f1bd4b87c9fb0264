/** The notification handler (src/lambdas/notification/index.ts): it picks
    the decision from `loanDecision.Payload`, else from `decision`, sends
    (simulated, so the outcome is a parameter) and reports the channel. The
    message text renders numbers through a `show` parameter. */
module Notification {
  import opened Wrappers
  import opened LoanTypes
  import opened JsNumber

  /** `{ Payload: ... }` as a Lambda task stores a result. */
  datatype Envelope = Envelope(payload: Option<Decision>)

  /** Of the application the handler reads the amount and the customer. */
  datatype NotifiedApplication = NotifiedApplication(amount: Option<real>, customerId: Option<string>)

  datatype NotificationEvent = NotificationEvent(
    application: Option<NotifiedApplication>,
    loanDecision: Option<Envelope>,
    decision: Option<Decision>)

  const MissingDecision: string := "Invalid notification event structure: missing decision data"
  const SendFailed: string := "Failed to send notification"

  /** `loanDecision.Payload` first, then `decision`. */
  function SelectDecision(e: NotificationEvent): (r: Result<Decision, string>)
    ensures e.loanDecision.Some? && e.loanDecision.value.payload.Some? ==>
              r == Ok(e.loanDecision.value.payload.value)
    ensures !(e.loanDecision.Some? && e.loanDecision.value.payload.Some?) && e.decision.Some? ==>
              r == Ok(e.decision.value)
    ensures r.Err? <==> (e.loanDecision.None? || e.loanDecision.value.payload.None?) && e.decision.None?
    ensures r.Err? ==> r.error == MissingDecision
  {
    if e.loanDecision.Some? && e.loanDecision.value.payload.Some? then Ok(e.loanDecision.value.payload.value)
    else if e.decision.Some? then Ok(e.decision.value)
    else Err(MissingDecision)
  }

  /** A template placeholder: an absent value prints as `undefined`. */
  function ShowOptional(x: Option<real>, show: real -> string): string
  {
    if x.Some? then show(x.value) else "undefined"
  }

  function ShowWire(x: Option<Wire>, show: real -> string): string
  {
    match x
    case None => "undefined"
    case Some(Null) => "null"
    case Some(Number(v)) => show(v)
  }

  const ApprovedPrefix: string := "Congratulations! " + "Your loan application for $"
  const DeclinedPrefix: string :=
    "We regret to inform you " + "that your loan application " + "has been declined. Reason: "

  const ApprovedMiddle: string := " has been approved with an interest rate of "

  /** The message for the customer: congratulations with the amount and the
      rate, or the decline with its reason. Only reached with an
      application: reading a field of a missing one raises. */
  function Message(application: NotifiedApplication, d: Decision, show: real -> string): (m: string)
    ensures d.approved ==> ApprovedPrefix <= m
    ensures !d.approved ==> DeclinedPrefix <= m
  {
    if d.approved then
      ApprovedPrefix + ShowOptional(application.amount, show) + ApprovedMiddle
      + ShowWire(d.interestRate, show) + "%"
    else
      DeclinedPrefix + (if d.reason.Some? then d.reason.value else "undefined")
  }

  /** The two kinds of message never look alike. */
  lemma MessagesDiffer(a1: NotifiedApplication, d1: Decision,
                       a2: NotifiedApplication, d2: Decision, show: real -> string)
    requires d1.approved && !d2.approved
    ensures Message(a1, d1, show) != Message(a2, d2, show)
  {
    assert ApprovedPrefix[0] == 'C';
    assert DeclinedPrefix[0] == 'W';
    assert Message(a1, d1, show)[0] == ApprovedPrefix[0];
    assert Message(a2, d2, show)[0] == DeclinedPrefix[0];
  }

  /** The approval message carries the requested amount and the rate, in
      that order; an absent amount prints as `undefined`. */
  lemma ApprovalCarriesAmountAndRate(a: NotifiedApplication, d: Decision, show: real -> string)
    requires d.approved
    ensures Message(a, d, show)
            == ApprovedPrefix + ShowOptional(a.amount, show) + ApprovedMiddle
               + ShowWire(d.interestRate, show) + "%"
    ensures a.amount.Some? ==>
              Message(a, d, show)[|ApprovedPrefix|..|ApprovedPrefix| + |show(a.amount.value)|]
              == show(a.amount.value)
  {
    var m := Message(a, d, show);
    if a.amount.Some? {
      var x := show(a.amount.value);
      assert m == (ApprovedPrefix + x) + (ApprovedMiddle + ShowWire(d.interestRate, show) + "%");
      assert (ApprovedPrefix + x)[|ApprovedPrefix|..] == x;
    }
  }

  /** The decline message ends in the reason. */
  lemma DeclineCarriesReason(a: NotifiedApplication, d: Decision, show: real -> string)
    requires !d.approved && d.reason.Some?
    ensures Message(a, d, show) == DeclinedPrefix + d.reason.value
  {
  }

  /** The handler: the decision is selected before any send; a failed send
      raises, and so does a missing application, whose field reads fail
      inside the same `try`, rethrown as the send failure; otherwise the
      result reports `sent` on both channels at `now`. */
  function Notify(e: NotificationEvent, sendSucceeds: bool, now: string): (r: Result<NotificationResult, string>)
    ensures SelectDecision(e).Err? ==> r == Err(MissingDecision)
    ensures SelectDecision(e).Ok? && (!sendSucceeds || e.application.None?) ==> r == Err(SendFailed)
    ensures r.Ok? <==> SelectDecision(e).Ok? && sendSucceeds && e.application.Some?
    ensures r.Ok? ==> r.value == NotificationResult(true, Both, now)
  {
    var decision :- SelectDecision(e);
    if !sendSucceeds || e.application.None? then Err(SendFailed)
    else Ok(NotificationResult(true, Both, now))
  }
}
