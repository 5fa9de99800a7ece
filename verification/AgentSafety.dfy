/** The delivery theorems, read off the imperative agent: whatever sequence of its methods has
    run since it was created, its recorded history is a run of `Delivery`. */
module AgentSafety {
  import opened Files
  import opened PendingReports
  import opened Delivery
  import opened DeliverySafety
  import opened ReportSubmission

  /** A report that the agent has saved is in its directory with the wire fields first
      submitted, or the dashboard holds it unchanged, or has refused it. */
  lemma AgentLosesNothing(a: Agent, name: Name)
    requires a.Valid() && Init(a.states[0]) && name in a.World().history.saved
    ensures
      || OnDisk(a.disk, a.World().history, name)
      || AcceptedIntact(a.remote, a.World().history, name)
      || name in a.World().history.rejected
  {
    hide OnDisk, AcceptedIntact, Init, Next;
    NoReportLost(a.states, a.steps, |a.steps|, name);
  }

  /** The dashboard's accepted list holds no id twice and only payloads as first submitted. */
  lemma AgentIsAcceptedOnce(a: Agent)
    requires a.Valid() && Init(a.states[0])
    ensures forall i, j | 0 <= i < j < |a.remote.accepted| :: ReportId(a.remote.accepted[i]) != ReportId(a.remote.accepted[j])
    ensures forall i | 0 <= i < |a.remote.accepted| ::
      && ReportId(a.remote.accepted[i]).Str?
      && Report(ReportId(a.remote.accepted[i]).s) in a.World().history.origin
      && a.World().history.origin[Report(ReportId(a.remote.accepted[i]).s)] == a.remote.accepted[i]
  {
    hide Init, Next, ReportId;
    AcceptedOnceAndIntact(a.states, a.steps, |a.steps|);
  }
}
