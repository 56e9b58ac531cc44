/** The review ledger and the Goal machine together: the gate an event comes with is the ledger's. */
module GoalReview {
  import opened Prelude
  import opened GoalState
  import opened GoalMachine
  import opened GoalGate
  import ReviewWorkspace
  import ReviewProtocol
  import ReviewRun
  import ReviewTheorems
  import ReviewHistory

  /** Some calls and events of the review before each event of the machine, for which its gate is open only if the ledger's is. */
  ghost predicate GatedBy(ws: ReviewWorkspace.Workspace, reviews: seq<seq<ReviewRun.Action>>, events: seq<Event>) {
    && |reviews| == |events|
    && forall i | 0 <= i < |events| && Opens(events[i]) :: LedgerOpens(ws, reviews[i])
  }

  predicate LedgerOpens(ws: ReviewWorkspace.Workspace, review: seq<ReviewRun.Action>) {
    var s := ReviewRun.Run(ReviewRun.Initial(ws), review);
    ReviewProtocol.AssertDry(s.memory, ReviewWorkspace.ManifestOf(s.ws))
  }

  /** The review behind an event holds a certified history of the workspace as it then is. */
  ghost predicate Reviewed(ws: ReviewWorkspace.Workspace, review: seq<ReviewRun.Action>) {
    var s := ReviewRun.Run(ReviewRun.Initial(ws), review);
    && ReviewWorkspace.ManifestOf(s.ws).Some?
    && ReviewTheorems.Certified(s.memory, ReviewWorkspace.ManifestOf(s.ws).value)
    && exists t :: ReviewHistory.Told(review, ReviewWorkspace.ManifestOf(s.ws).value, t)
  }

  lemma OpenIsReviewed(ws: ReviewWorkspace.Workspace, review: seq<ReviewRun.Action>)
    requires LedgerOpens(ws, review)
    ensures Reviewed(ws, review)
  {
    ReviewTheorems.GateCertifiesHistory(ws, review);
    var t := ReviewHistory.GateTellsHistory(ws, review);
  }

  /**
   A run that got past its backend review did so at an event at which the review
   ledger held a certified history: every file read as it was, behind a test that
   had failed on a broken workspace and passed on this one, before a clean watch
   and a test that exited with zero.
   */
  lemma PassedIsReviewed(
    m: Machine, events: seq<Event>, ws: ReviewWorkspace.Workspace, reviews: seq<seq<ReviewRun.Action>>)
    requires Initial(m) && GatedBy(ws, reviews, events)
    requires Run(m, events).disk.cursor > 1 || Run(m, events).live.cursor > 1
    ensures exists i | 0 <= i < |events| :: Opens(events[i]) && Reviewed(ws, reviews[i])
  {
    if forall i | 0 <= i < |events| :: !Opens(events[i]) {
      ClosedGateHoldsRuns(m, events);
      assert false;
    }
    var i :| 0 <= i < |events| && Opens(events[i]);
    OpenIsReviewed(ws, reviews[i]);
  }
}
