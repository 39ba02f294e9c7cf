/**
 What users' requests can and cannot do to a campaign's status, over runs of the
 campaign handlers and the sending pipeline.
 */
module CampaignRuns {
  import opened Wrappers
  import opened Campaigns
  import opened UnsubscribeRule

  /** Along the trace the scheduler never starts the campaign. */
  predicate NeverPromoted(trace: seq<Action>, id: CampaignID) {
    forall k :: 0 <= k < |trace| ==> trace[k] != Promote(id)
  }

  /**
   A campaign with a send date is not set running by any request or edit, in
   whatever order they come: it takes the scheduler.
   */
  lemma {:induction false} DatedNeedsScheduler(ts: Templates, trace: seq<Action>, id: CampaignID)
    requires After(ts, trace).Some? && NeverPromoted(trace, id)
    ensures var t := After(ts, trace).value; id in t && t[id].status == Running ==> !t[id].sendAt
  {
    if trace != [] {
      DatedNeedsScheduler(ts, trace[..|trace| - 1], id);
    }
  }

  /** A request that lets a campaign with a send date run schedules it, and then the scheduler starts it. */
  lemma RequestThenScheduler(ts: Templates, t: Table, id: CampaignID)
    requires id in t && t[id].sendAt && Enabled(ts, t, Request(id, Running, false))
    ensures var u := Next(ts, t, Request(id, Running, false));
      && u[id].status == Scheduled && Enabled(ts, u, Promote(id))
      && Next(ts, u, Promote(id)) == t[id := t[id].(status := Running, reason := None)]
  {
  }

  /** The sending pipeline does not write the campaign's status along the trace. */
  predicate LeftAlone(trace: seq<Action>, id: CampaignID) {
    forall k :: 0 <= k < |trace| ==> !(trace[k].SenderStops? && trace[k].id == id)
  }

  predicate Closed(t: Table, id: CampaignID) {
    id in t && (t[id].status == Cancelled || t[id].status == Finished)
  }

  lemma StepStaysClosed(ts: Templates, t: Table, a: Action, id: CampaignID)
    requires Enabled(ts, t, a) && Closed(t, id) && !(a.SenderStops? && a.id == id)
    ensures Closed(Next(ts, t, a), id)
    ensures t[id].status == Finished ==> Next(ts, t, a)[id].status == Finished
  {
  }

  /**
   A cancelled campaign is not set running, scheduled or paused, or made a draft,
   by any requests, edits, automatic pauses or the scheduler, nor is a finished
   one; the one request either lets through is to finish it.
   */
  lemma {:induction false} ClosedStaysClosed(ts: Templates, trace: seq<Action>, n: nat, id: CampaignID)
    requires n <= |trace| && After(ts, trace).Some? && After(ts, trace[..n]).Some?
    requires Closed(After(ts, trace[..n]).value, id) && LeftAlone(trace[n..], id)
    ensures Closed(After(ts, trace).value, id)
    ensures After(ts, trace[..n]).value[id].status == Finished ==> After(ts, trace).value[id].status == Finished
  {
    if n == |trace| {
      assert trace[..n] == trace;
    } else {
      hide Enabled, Next, Closed;
      var m := |trace| - 1;
      assert trace[..m][..n] == trace[..n];
      assert forall k :: 0 <= k < |trace[..m][n..]| ==> trace[..m][n..][k] == trace[n..][k];
      ClosedStaysClosed(ts, trace[..m], n, id);
      assert trace[m] == trace[n..][m - n];
      StepStaysClosed(ts, After(ts, trace[..m]).value, trace[m], id);
      assert Closed(After(ts, trace).value, id);
    }
  }

  /** The pipeline's own write looks at nothing: a send that stops after its campaign was cancelled pauses it. */
  lemma SenderReopens(ts: Templates, t: Table, id: CampaignID)
    requires Closed(t, id)
    ensures Enabled(ts, t, SenderStops(id, Paused)) && !Closed(Next(ts, t, SenderStops(id, Paused)), id)
  {
  }
}
