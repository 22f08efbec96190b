/**
 * What each `add_*` callback of `ReportPortalHandler` sends: the status and
 * issue of the finished item, and for an unexpected success an error log
 * line before it.
 */
module Outcomes {
  import opened Common
  import opened Comments
  import opened Remote
  import Levels

  /** The result callbacks, one per outcome, with their arguments. */
  datatype TestOutcome =
    | Success
    | Skip(reason: string)
    | Failure(exceptionString: string)
    | Error(exceptionString: string)
    | ExpectedFailure(exceptionString: string)
    | UnexpectedSuccess

  /** The error line logged for an unexpected success. */
  const UNEXPECTED_SUCCESS_MESSAGE := "The test was supposed to fail, but instead it has passed"

  /** The outcome's callback raises: a failure or an error whose text has no non-empty line. */
  predicate Raises(o: TestOutcome) {
    (o.Failure? || o.Error?) && Reason(o.exceptionString).None?
  }

  /**
   * The status and issue the item is finished with; `None` when the
   * callback raises before finishing it.
   */
  function Verdict(o: TestOutcome): (v: Option<(Status, Option<Issue>)>)
    ensures v.None? <==> Raises(o)
    ensures v.Some? ==> (v.value.0 == Passed <==> o.Success? || o.ExpectedFailure?)
    ensures v.Some? ==> (v.value.0 == Skipped <==> o.Skip?)
    ensures v.Some? ==> (v.value.1.Some? <==> o.Skip? || o.Failure? || o.Error?)
  {
    match o
    case Success => Some((Passed, None))
    case Skip(reason) => Some((Skipped, Some(Issue(NoDefect, reason))))
    case Failure(text) =>
      var reason := Reason(text);
      if reason.None? then None else Some((Failed, Some(Issue(ProductBug, reason.value))))
    case Error(text) =>
      var reason := Reason(text);
      if reason.None? then None else Some((Failed, Some(Issue(AutomationBug, reason.value))))
    case ExpectedFailure(_) => Some((Passed, None))
    case UnexpectedSuccess => Some((Failed, None))
  }

  /** The classification table, row by row. */
  lemma ClassificationTable(reason: string, text: string)
    requires Reason(text).Some?
    ensures Verdict(Success) == Some((Passed, None))
    ensures Verdict(ExpectedFailure(text)) == Some((Passed, None))
    ensures Verdict(Skip(reason)) == Some((Skipped, Some(Issue(NoDefect, reason))))
    ensures Verdict(Failure(text)) == Some((Failed, Some(Issue(ProductBug, Reason(text).value))))
    ensures Verdict(Error(text)) == Some((Failed, Some(Issue(AutomationBug, Reason(text).value))))
    ensures Verdict(UnexpectedSuccess) == Some((Failed, None))
  {
  }

  /**
   * A failure's or an error's comment is the last non-empty line of its
   * text: non-empty, a single line, and followed only by empty lines.
   */
  lemma FailureComment(o: TestOutcome)
    requires (o.Failure? || o.Error?) && !Raises(o)
    ensures var issue := Verdict(o).value.1.value;
      && issue.issueType == (if o.Failure? then ProductBug else AutomationBug)
      && NoNewline(issue.comment)
      && IsLastNonEmpty(Split(o.exceptionString), issue.comment)
  {
  }

  /** The calls a callback makes, in order; `None` when it raises before any. */
  function OutcomeCalls(o: TestOutcome): (calls: Option<seq<Call>>)
    ensures calls.None? <==> Raises(o)
  {
    match Verdict(o)
    case None => None
    case Some((status, issue)) =>
      if o.UnexpectedSuccess? then
        Some([Log(UNEXPECTED_SUCCESS_MESSAGE, Levels.Error), FinishItem(status, issue)])
      else
        Some([FinishItem(status, issue)])
  }

  /**
   * Every callback that completes finishes the item exactly once, last; only
   * an unexpected success logs anything, one error line before the finish.
   */
  lemma OneFinishPerOutcome(o: TestOutcome)
    requires !Raises(o)
    ensures var calls := OutcomeCalls(o).value;
      && FinishCount(calls) == 1
      && calls[|calls| - 1] == FinishItem(Verdict(o).value.0, Verdict(o).value.1)
      && (o.UnexpectedSuccess? ==> calls == [Log(UNEXPECTED_SUCCESS_MESSAGE, Levels.Error), FinishItem(Failed, None)])
      && (!o.UnexpectedSuccess? ==> |calls| == 1)
  {
    var calls := OutcomeCalls(o).value;
    if o.UnexpectedSuccess? {
      assert calls[1..][1..] == [];
      assert FinishCount(calls[1..]) == 1;
    } else {
      assert calls[1..] == [];
    }
  }

  /** The calls of several callbacks made one after another on the same test. */
  function CallsOf(outcomes: seq<TestOutcome>): seq<Call>
    requires forall i :: 0 <= i < |outcomes| ==> !Raises(outcomes[i])
  {
    if outcomes == [] then []
    else OutcomeCalls(outcomes[0]).value + CallsOf(outcomes[1..])
  }

  /**
   * Nothing merges the callbacks: a test reported through several of them is
   * finished once per callback.
   */
  lemma {:induction false} FinishPerCallback(outcomes: seq<TestOutcome>)
    requires forall i :: 0 <= i < |outcomes| ==> !Raises(outcomes[i])
    ensures FinishCount(CallsOf(outcomes)) == |outcomes|
  {
    if outcomes != [] {
      OneFinishPerOutcome(outcomes[0]);
      FinishPerCallback(outcomes[1..]);
      FinishCountAppend(OutcomeCalls(outcomes[0]).value, CallsOf(outcomes[1..]));
    }
  }

  /** A skip is finished as SKIPPED with the reason as a no-defect comment. */
  lemma SkippedScenario()
    ensures OutcomeCalls(Skip("Reason for skipping.")) ==
      Some([FinishItem(Skipped, Some(Issue(NoDefect, "Reason for skipping.")))])
  {
  }

  /** A failed assertion is filed as a product bug under its summary line. */
  lemma FailedScenario()
    ensures OutcomeCalls(Failure("Traceback...\nAssertionError: x != y")) ==
      Some([FinishItem(Failed, Some(Issue(ProductBug, "AssertionError: x != y")))])
  {
    TracebackComment();
  }
}
