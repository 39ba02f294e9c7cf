/**
 The campaign gate over whole runs: while a list is being validated, what is
 sent to it was scheduled already. Status requests are split into their check
 and their write, and the pause that ends ScrubList into one step a campaign, so
 that anything may come between.
 */
module CampaignGate {
  import opened Wrappers
  import opened ScrubModel
  import opened ScrubBatching
  import opened ScrubStore
  import opened Campaigns

  /**
   The validation being followed: of this list with these e-mails, under this job
   identifier, with Scrub configured throughout.
   */
  datatype Config = Config(tenant: int, list: ListID, emails: seq<Email>, job: JobID, settings: ScrubSettings)

  /** How far ScrubList has come. */
  datatype Phase = Idle | Submitting | Pausing | Returned

  /**
   starting holds the status requests whose check has passed and whose write
   is still to come; due the campaigns that are still to be paused. The rest
   is history: whether the job ever stopped processing, which campaigns on the
   list were scheduled when the running ones were looked up, which of them had
   a request in flight when the job row was inserted, and which an edit put on
   the list since.
   */
  datatype World = World(
    campaigns: map<CampaignID, Campaign>, jobs: map<JobID, Job>, starting: set<(CampaignID, Status)>,
    phase: Phase, due: set<CampaignID>,
    lapsed: bool, scheduled: set<CampaignID>, early: set<CampaignID>, joined: set<CampaignID>)

  datatype Action =
    | Create(id: CampaignID, campaign: Campaign)
    | Check(id: CampaignID, to: Status)
    | Commit(id: CampaignID, to: Status)
    | Stop(id: CampaignID, to: Status)
    | Promote(id: CampaignID)
    | Change(id: CampaignID, edit: Edit)
    | Insert
    | LookUp
    | Pause(id: CampaignID)
    | Return
    | OtherJob(job: JobID, other: Job)
    | Progress(job: JobID, seen: seq<BatchRow>)
    | Drop(job: JobID)

  predicate OnList(cfg: Config, c: Campaign) {
    TargetsAny(c, cfg.tenant, [cfg.list])
  }

  predicate Starts(s: Status) {
    s.Running? || s.Scheduled?
  }

  function ScheduledOn(cfg: Config, w: World): set<CampaignID> {
    set i | i in w.campaigns && OnList(cfg, w.campaigns[i]) && w.campaigns[i].status.Scheduled?
  }

  predicate HasRequest(w: World, id: CampaignID) {
    exists p :: p in w.starting && p.0 == id
  }

  /** The campaigns on the list with a request in flight. */
  function InFlightOn(cfg: Config, w: World): set<CampaignID> {
    set i | i in w.campaigns && OnList(cfg, w.campaigns[i]) && HasRequest(w, i)
  }

  /** The job row of a list cut into chunks. */
  function OurJob(cfg: Config): Job {
    NewJob(cfg.tenant, cfg.list, |Chunks(cfg.emails, MAX_BATCH_EMAILS)|, |cfg.emails|)
  }

  /**
   What sets a campaign back: a user's request to finish it, to make a draft of a
   scheduled one, to pause or to cancel one that runs; or a write of the sending
   pipeline, which looks at nothing and so may land after the campaign has been
   stopped otherwise.
   */
  predicate StopAllowed(c: Campaign, to: Status) {
    match to
    case Finished => true
    case Draft => c.status.Scheduled?
    case Paused => !c.status.Draft? && !c.status.Scheduled?
    case Cancelled => !c.status.Draft? && !c.status.Scheduled?
    case _ => false
  }

  predicate Enabled(cfg: Config, w: World, a: Action) {
    match a
    case Create(id, campaign) => id !in w.campaigns && campaign.status.Draft?
      && forall p :: p in w.starting ==> p.0 != id
    case Check(id, to) => id in w.campaigns && Starts(to)
      && !GateBlocks(w.jobs, Some(cfg.settings), w.campaigns[id], {})
    case Commit(id, to) => id in w.campaigns && (id, to) in w.starting
    case Stop(id, to) => id in w.campaigns && StopAllowed(w.campaigns[id], to)
    case Promote(id) => id in w.campaigns && w.campaigns[id].status.Scheduled?
    case Change(id, edit) => id in w.campaigns && CanEdit(w.campaigns[id].status)
    case Insert => w.phase.Idle? && cfg.job !in w.jobs && cfg.emails != [] && !ActiveJob(w.jobs, cfg.tenant, cfg.list)
    case LookUp => w.phase.Submitting?
    case Pause(id) => w.phase.Pausing? && id in w.due && id in w.campaigns
    case Return => w.phase.Pausing? && w.due == {}
    case OtherJob(job, other) => job !in w.jobs && job != cfg.job
    case Progress(job, seen) => job in w.jobs
    case Drop(job) => job in w.jobs
  }

  predicate Joins(cfg: Config, c: Campaign, e: Edit) {
    !OnList(cfg, c) && OnList(cfg, Edited(c, e))
  }

  function Next(cfg: Config, w: World, a: Action): World
    requires Enabled(cfg, w, a)
  {
    match a
    case Create(id, campaign) => w.(campaigns := w.campaigns[id := campaign])
    case Check(id, to) => w.(starting := w.starting + {(id, to)})
    case Commit(id, to) =>
      w.(starting := w.starting - {(id, to)},
         campaigns := if StatusAllowed(w.campaigns[id], to)
                      then w.campaigns[id := WithStatus(w.campaigns[id], to)] else w.campaigns)
    case Stop(id, to) => w.(campaigns := w.campaigns[id := WithStatus(w.campaigns[id], to)])
    case Promote(id) => w.(campaigns := w.campaigns[id := w.campaigns[id].(status := Running)])
    case Change(id, edit) =>
      w.(campaigns := w.campaigns[id := Edited(w.campaigns[id], edit)],
         joined := if !w.phase.Idle? && Joins(cfg, w.campaigns[id], edit) then w.joined + {id} else w.joined)
    case Insert =>
      w.(phase := Submitting, early := InFlightOn(cfg, w), joined := {}, jobs := w.jobs[cfg.job := OurJob(cfg)])
    case LookUp =>
      w.(phase := Pausing, due := Sending(w.campaigns, cfg.tenant, [cfg.list]), scheduled := ScheduledOn(cfg, w))
    case Pause(id) =>
      w.(due := w.due - {id},
         campaigns := if w.campaigns[id].status.Running?
                      then w.campaigns[id := AutoPaused(w.campaigns[id], "scrub_job_started")] else w.campaigns)
    case Return => w.(phase := Returned)
    case OtherJob(job, other) => w.(jobs := w.jobs[job := other])
    case Progress(job, seen) =>
      var p := Aggregate(w.jobs[job].row.total, seen);
      w.(jobs := w.jobs[job := w.jobs[job].(row := ProgressRow(p, w.jobs[job].row.total))],
         lapsed := w.lapsed || (job == cfg.job && p.done))
    case Drop(job) => w.(jobs := w.jobs - {job}, lapsed := w.lapsed || job == cfg.job)
  }

  function After(cfg: Config, w: World, trace: seq<Action>): Option<World> {
    if trace == [] then Some(w)
    else
      var before := After(cfg, w, trace[..|trace| - 1]);
      var a := trace[|trace| - 1];
      if before.Some? && Enabled(cfg, before.value, a) then Some(Next(cfg, before.value, a)) else None
  }

  /** Any campaigns and jobs, and any requests to start in flight, before ScrubList inserts its row. */
  predicate Initial(cfg: Config, w: World) {
    && w.phase.Idle? && !w.lapsed && GateArmed(Some(cfg.settings))
    && forall p :: p in w.starting ==> Starts(p.1)
  }

  predicate JobHolds(cfg: Config, w: World) {
    && cfg.job in w.jobs && w.jobs[cfg.job].tenant == cfg.tenant && cfg.list in w.jobs[cfg.job].lists
    && w.jobs[cfg.job].row.status.Processing? && w.jobs[cfg.job].row.total == OurJob(cfg).row.total
  }

  predicate FlightsKnown(cfg: Config, w: World) {
    forall p :: p in w.starting && p.0 in w.campaigns && OnList(cfg, w.campaigns[p.0]) ==> p.0 in w.early + w.joined
  }

  predicate SendersKnown(cfg: Config, w: World) {
    forall i :: i in w.campaigns && OnList(cfg, w.campaigns[i]) ==>
      && (w.campaigns[i].status.Running? ==> i in w.due + w.scheduled + w.early + w.joined)
      && (w.campaigns[i].status.Scheduled? ==> i in w.scheduled + w.early + w.joined)
  }

  predicate Gated(cfg: Config, w: World) {
    && (!w.phase.Idle? && !w.lapsed ==> JobHolds(cfg, w) && FlightsKnown(cfg, w))
    && (w.phase.Pausing? || w.phase.Returned? ==> w.lapsed || SendersKnown(cfg, w))
    && (w.phase.Returned? ==> w.due == {})
  }

  /** A campaign on the list cannot pass the check while the job is processing. */
  lemma OnListIsBlocked(cfg: Config, w: World, c: Campaign)
    requires GateArmed(Some(cfg.settings)) && JobHolds(cfg, w) && OnList(cfg, c)
    ensures GateBlocks(w.jobs, Some(cfg.settings), c, {})
  {
    assert ActiveJob(w.jobs, cfg.tenant, cfg.list);
    var k :| 0 <= k < |c.lists| && c.lists[k] in [cfg.list];
    assert c.lists[k] in c.lists && c.lists[k] == cfg.list;
  }

  predicate OnCampaigns(a: Action) {
    a.Create? || a.Check? || a.Commit? || a.Stop? || a.Promote? || a.Change?
  }

  lemma CampaignStepKeepsGated(cfg: Config, w: World, a: Action)
    requires GateArmed(Some(cfg.settings)) && Enabled(cfg, w, a) && Gated(cfg, w) && OnCampaigns(a)
    ensures Gated(cfg, Next(cfg, w, a))
  {
    if a.Check? && !w.phase.Idle? && !w.lapsed && OnList(cfg, w.campaigns[a.id]) {
      OnListIsBlocked(cfg, w, w.campaigns[a.id]);
    }
  }

  lemma JobStepKeepsGated(cfg: Config, w: World, a: Action)
    requires Enabled(cfg, w, a) && Gated(cfg, w) && !OnCampaigns(a)
    ensures Gated(cfg, Next(cfg, w, a))
  {
  }

  lemma StepKeepsGated(cfg: Config, w: World, a: Action)
    requires GateArmed(Some(cfg.settings)) && Enabled(cfg, w, a) && Gated(cfg, w)
    ensures Gated(cfg, Next(cfg, w, a))
  {
    hide *;
    if OnCampaigns(a) {
      CampaignStepKeepsGated(cfg, w, a);
    } else {
      JobStepKeepsGated(cfg, w, a);
    }
  }

  lemma {:induction false} AlwaysGated(cfg: Config, w0: World, trace: seq<Action>, w: World)
    requires Initial(cfg, w0) && After(cfg, w0, trace) == Some(w)
    ensures Gated(cfg, w)
  {
    if trace != [] {
      var before := After(cfg, w0, trace[..|trace| - 1]);
      AlwaysGated(cfg, w0, trace[..|trace| - 1], before.value);
      StepKeepsGated(cfg, before.value, trace[|trace| - 1]);
    }
  }

  /**
   As long as the job is processing, a campaign being sent to the list was
   scheduled when the running ones were looked up, or a request to start it had
   passed its check before the job row was there, or an edit put it on the list.
   */
  lemma GateHolds(cfg: Config, w0: World, trace: seq<Action>, w: World, id: CampaignID)
    requires Initial(cfg, w0) && After(cfg, w0, trace) == Some(w)
    requires w.phase.Returned? && !w.lapsed
    requires id in w.campaigns && IsSendingTo(w.campaigns[id], cfg.tenant, [cfg.list])
    ensures id in w.scheduled || id in w.early || id in w.joined
  {
    AlwaysGated(cfg, w0, trace, w);
    assert OnList(cfg, w.campaigns[id]);
  }

  /** ScrubList with nothing in between: the row, the lookup, a pause for each campaign, and the return. */
  function ScrubListTrace(order: seq<CampaignID>): seq<Action> {
    [Insert, LookUp] + seq(|order|, k requires 0 <= k < |order| => Pause(order[k])) + [Return]
  }

  /** The middle of that trace: some of the campaigns paused, the others still due. */
  ghost predicate PausedSome(cfg: Config, w0: World, w: World, done: set<CampaignID>) {
    && w.phase.Pausing? && w.due == Sending(w0.campaigns, cfg.tenant, [cfg.list]) - done
    && w.early == InFlightOn(cfg, w0) && w.joined == {} && !w.lapsed && w.starting == w0.starting
    && w.scheduled == ScheduledOn(cfg, w0)
    && w.campaigns == PausedAll(w0.campaigns, Sending(w0.campaigns, cfg.tenant, [cfg.list]) * done, "scrub_job_started")
    && w.jobs == w0.jobs[cfg.job := OurJob(cfg)]
  }

  function Firsts(order: seq<CampaignID>, k: nat): set<CampaignID>
    requires k <= |order|
  {
    set i | i in order[..k]
  }

  lemma AfterNext(cfg: Config, w0: World, trace: seq<Action>, n: nat)
    requires n < |trace| && After(cfg, w0, trace[..n]).Some?
    requires Enabled(cfg, After(cfg, w0, trace[..n]).value, trace[n])
    ensures After(cfg, w0, trace[..n + 1]) == Some(Next(cfg, After(cfg, w0, trace[..n]).value, trace[n]))
  {
    hide Enabled, Next;
    assert trace[..n + 1][..n] == trace[..n];
  }

  lemma {:induction false} PausesSoFar(cfg: Config, w0: World, order: seq<CampaignID>, k: nat)
    requires Initial(cfg, w0) && Enabled(cfg, w0, Insert) && k <= |order|
    requires forall i :: i in order ==> i in Sending(w0.campaigns, cfg.tenant, [cfg.list])
    requires forall i, j :: 0 <= i < j < |order| ==> order[i] != order[j]
    ensures var w := After(cfg, w0, ScrubListTrace(order)[..2 + k]);
      w.Some? && PausedSome(cfg, w0, w.value, Firsts(order, k))
  {
    hide After, Enabled, Next, PausedSome, Initial, Sending;
    var trace := ScrubListTrace(order);
    if k == 0 {
      assert trace[..2] == [Insert, LookUp];
      assert Firsts(order, 0) == {};
      StartsPausing(cfg, w0);
    } else {
      PausesSoFar(cfg, w0, order, k - 1);
      var w := After(cfg, w0, trace[..1 + k]).value;
      var done := Firsts(order, k - 1);
      assert order[k - 1] in order && order[k - 1] !in done;
      PausesOne(cfg, w0, w, done, order[k - 1]);
      AfterNext(cfg, w0, trace, 1 + k);
      assert order[..k] == order[..k - 1] + [order[k - 1]];
      assert Firsts(order, k) == done + {order[k - 1]};
    }
  }

  lemma StartsPausing(cfg: Config, w0: World)
    requires Initial(cfg, w0) && Enabled(cfg, w0, Insert)
    ensures After(cfg, w0, [Insert, LookUp]).Some?
    ensures PausedSome(cfg, w0, After(cfg, w0, [Insert, LookUp]).value, {})
  {
    assert [Insert, LookUp][..1] == [Insert] && [Insert][..0] == [];
    assert After(cfg, w0, []) == Some(w0);
    assert After(cfg, w0, [Insert]) == Some(Next(cfg, w0, Insert));
    var w := After(cfg, w0, [Insert, LookUp]).value;
    assert w.campaigns == PausedAll(w0.campaigns, {}, "scrub_job_started");
  }

  lemma PausesOne(cfg: Config, w0: World, w: World, done: set<CampaignID>, id: CampaignID)
    requires PausedSome(cfg, w0, w, done) && id !in done && id in Sending(w0.campaigns, cfg.tenant, [cfg.list])
    ensures Enabled(cfg, w, Pause(id)) && PausedSome(cfg, w0, Next(cfg, w, Pause(id)), done + {id})
  {
  }

  /** The listing a SELECT of the running campaigns returns: each once, in any order. */
  ghost predicate ListsSending(cfg: Config, w: World, order: seq<CampaignID>) {
    && (forall i :: i in order <==> i in Sending(w.campaigns, cfg.tenant, [cfg.list]))
    && (forall i, j :: 0 <= i < j < |order| ==> order[i] != order[j])
  }

  /**
   ScrubList, when no request on the list is in flight, leaves nothing being
   sent to the list and every schedule as it was.
   */
  lemma ScrubListPauses(cfg: Config, w0: World, order: seq<CampaignID>)
    requires Initial(cfg, w0) && Enabled(cfg, w0, Insert) && InFlightOn(cfg, w0) == {} && ListsSending(cfg, w0, order)
    ensures After(cfg, w0, ScrubListTrace(order)).Some?
    ensures var w1 := After(cfg, w0, ScrubListTrace(order)).value;
      && w1.phase.Returned? && !w1.lapsed && JobHolds(cfg, w1) && w1.early == {} && w1.joined == {}
      && Sending(w1.campaigns, cfg.tenant, [cfg.list]) == {}
      && w1.scheduled == ScheduledOn(cfg, w1) == ScheduledOn(cfg, w0)
      && w1.campaigns == PausedAll(w0.campaigns, Sending(w0.campaigns, cfg.tenant, [cfg.list]), "scrub_job_started")
      && w1.jobs == w0.jobs[cfg.job := OurJob(cfg)]
  {
    var trace, n := ScrubListTrace(order), |order|;
    PausesSoFar(cfg, w0, order, n);
    var w := After(cfg, w0, trace[..2 + n]).value;
    FirstsAll(order, Sending(w0.campaigns, cfg.tenant, [cfg.list]));
    ReturnsPaused(cfg, w0, w, Firsts(order, n));
    assert trace[2 + n] == Return && trace[..3 + n] == trace;
    AfterNext(cfg, w0, trace, 2 + n);
  }

  lemma FirstsAll(order: seq<CampaignID>, ids: set<CampaignID>)
    requires forall i :: i in order <==> i in ids
    ensures Firsts(order, |order|) == ids
  {
    assert order[..|order|] == order;
    forall i
      ensures i in Firsts(order, |order|) <==> i in ids
    {
      assert i in Firsts(order, |order|) <==> i in order;
    }
  }

  lemma ReturnsPaused(cfg: Config, w0: World, w: World, done: set<CampaignID>)
    requires PausedSome(cfg, w0, w, done) && done == Sending(w0.campaigns, cfg.tenant, [cfg.list])
    ensures Enabled(cfg, w, Return)
    ensures var w1 := Next(cfg, w, Return);
      && w1.phase.Returned? && !w1.lapsed && JobHolds(cfg, w1) && w1.early == InFlightOn(cfg, w0) && w1.joined == {}
      && Sending(w1.campaigns, cfg.tenant, [cfg.list]) == {}
      && w1.scheduled == ScheduledOn(cfg, w1) == ScheduledOn(cfg, w0)
      && w1.campaigns == PausedAll(w0.campaigns, Sending(w0.campaigns, cfg.tenant, [cfg.list]), "scrub_job_started")
      && w1.jobs == w0.jobs[cfg.job := OurJob(cfg)]
  {
    assert cfg.list in [cfg.list] && w.campaigns.Keys == w0.campaigns.Keys;
    forall i | i in w.campaigns
      ensures !IsSendingTo(w.campaigns[i], cfg.tenant, [cfg.list])
      ensures i in ScheduledOn(cfg, w) <==> i in ScheduledOn(cfg, w0)
    {
      assert OnList(cfg, w.campaigns[i]) == OnList(cfg, w0.campaigns[i]);
    }
    assert ScheduledOn(cfg, w) == ScheduledOn(cfg, w0);
  }

  ghost predicate PutOn(cfg: Config, trace: seq<Action>, id: CampaignID) {
    exists k :: 0 <= k < |trace| && trace[k].Change? && trace[k].id == id && cfg.list in trace[k].edit.lists
  }

  /** After ScrubList returned, its history stays, and only edits put campaigns on the list. */
  lemma {:induction false} AfterReturn(cfg: Config, w1: World, trace: seq<Action>, w: World)
    requires GateArmed(Some(cfg.settings)) && w1.phase.Returned? && Gated(cfg, w1) && After(cfg, w1, trace) == Some(w)
    ensures w.phase.Returned? && Gated(cfg, w) && w.scheduled == w1.scheduled && w.early == w1.early
    ensures forall id :: id in w.joined ==> id in w1.joined || PutOn(cfg, trace, id)
  {
    if trace != [] {
      hide Enabled, Next, Gated, PutOn;
      var n := |trace| - 1;
      var before := After(cfg, w1, trace[..n]).value;
      AfterReturn(cfg, w1, trace[..n], before);
      StepKeepsGated(cfg, before, trace[n]);
      StepAfterReturn(cfg, before, trace[n]);
      forall id | id in w.joined && id !in w1.joined
        ensures PutOn(cfg, trace, id)
      {
        PutOnBy(cfg, trace, id);
      }
    }
  }

  lemma StepAfterReturn(cfg: Config, w: World, a: Action)
    requires w.phase.Returned? && Enabled(cfg, w, a)
    ensures var next := Next(cfg, w, a);
      && next.phase.Returned? && next.scheduled == w.scheduled && next.early == w.early
      && forall id :: id in next.joined ==> id in w.joined || (a.Change? && a.id == id && cfg.list in a.edit.lists)
  {
  }

  lemma PutOnBy(cfg: Config, trace: seq<Action>, id: CampaignID)
    requires trace != []
    ensures var a := trace[|trace| - 1];
      PutOn(cfg, trace[..|trace| - 1], id) || (a.Change? && a.id == id && cfg.list in a.edit.lists) ==>
      PutOn(cfg, trace, id)
  {
  }

  /**
   With requests handled one at a time: from the moment ScrubList returned, for
   as long as its job is processing, a campaign being sent to the list was
   already scheduled then, or has been put on the list by an edit since.
   */
  lemma GateHoldsForAtomicHandlers(cfg: Config, w0: World, order: seq<CampaignID>, w1: World,
                                   trace: seq<Action>, w: World, id: CampaignID)
    requires Initial(cfg, w0) && Enabled(cfg, w0, Insert) && InFlightOn(cfg, w0) == {} && ListsSending(cfg, w0, order)
    requires After(cfg, w0, ScrubListTrace(order)) == Some(w1)
    requires After(cfg, w1, trace) == Some(w) && !w.lapsed
    requires id in Sending(w.campaigns, cfg.tenant, [cfg.list])
    ensures id in ScheduledOn(cfg, w1) || PutOn(cfg, trace, id)
  {
    hide After, Enabled, Sending, ScheduledOn, PutOn;
    ScrubListPauses(cfg, w0, order);
    AlwaysGated(cfg, w0, ScrubListTrace(order), w1);
    AfterReturn(cfg, w1, trace, w);
    SenderIsKnown(cfg, w, id);
  }

  lemma SenderIsKnown(cfg: Config, w: World, id: CampaignID)
    requires Gated(cfg, w) && w.phase.Returned? && !w.lapsed
    requires id in Sending(w.campaigns, cfg.tenant, [cfg.list])
    ensures id in w.scheduled + w.early + w.joined
  {
  }

  predicate OtherJobActive(jobs: map<JobID, Job>, tenant: int, list: ListID, id: JobID) {
    exists j :: j in jobs && j != id && jobs[j].tenant == tenant && list in jobs[j].lists
      && jobs[j].row.status.Processing?
  }

  /**
   The gate does not last until the job row is deleted: the progress write that
   finds every chunk terminal keeps the row and opens the gate, before the
   reconcile has begun.
   */
  lemma GateOpensWhenDone(d: Db, id: JobID, order: seq<BatchID>, list: ListID)
    requires id in d.jobs && list in d.jobs[id].lists && IsListing(order, RowsOf(d.batches, id).Keys)
    ensures id in WithJobProgress(d, id, order).jobs
    ensures ActiveJob(WithJobProgress(d, id, order).jobs, d.jobs[id].tenant, list) <==>
      || !Aggregate(d.jobs[id].row.total, ListedRows(order, RowsOf(d.batches, id))).done
      || OtherJobActive(d.jobs, d.jobs[id].tenant, list, id)
  {
    var p := Aggregate(d.jobs[id].row.total, ListedRows(order, RowsOf(d.batches, id)));
    GateWithRow(d.jobs, id, ProgressRow(p, d.jobs[id].row.total), list);
  }

  lemma GateWithRow(jobs: map<JobID, Job>, id: JobID, row: JobRow, list: ListID)
    requires id in jobs && list in jobs[id].lists
    ensures ActiveJob(jobs[id := jobs[id].(row := row)], jobs[id].tenant, list) <==>
      row.status.Processing? || OtherJobActive(jobs, jobs[id].tenant, list, id)
  {
    var after := jobs[id := jobs[id].(row := row)];
    if row.status.Processing? {
      assert id in after;
    }
    if OtherJobActive(jobs, jobs[id].tenant, list, id) {
      var j :| j in jobs && j != id && jobs[j].tenant == jobs[id].tenant && list in jobs[j].lists
               && jobs[j].row.status.Processing?;
      assert j in after && after[j] == jobs[j];
    }
    if ActiveJob(after, jobs[id].tenant, list) && !row.status.Processing? {
      var j :| j in after && after[j].tenant == jobs[id].tenant && list in after[j].lists
               && after[j].row.status.Processing?;
      assert j in jobs && j != id && jobs[j] == after[j];
    }
  }

  lemma Then(cfg: Config, w0: World, trace: seq<Action>, w: World, a: Action)
    requires After(cfg, w0, trace) == Some(w) && Enabled(cfg, w, a)
    ensures After(cfg, w0, trace + [a]) == Some(Next(cfg, w, a))
  {
  }

  lemma {:induction false} AllCompleted(n: nat) returns (seen: seq<BatchRow>)
    ensures |seen| == n && Totals(seen).0 == n
  {
    if n == 0 {
      seen := [];
    } else {
      var fewer := AllCompleted(n - 1);
      seen := fewer + [BatchRow(Completed, 1, 1, 0)];
      assert seen[..n - 1] == fewer;
    }
  }

  /**
   So, whatever the list, once all its chunks are completed a draft on it can be
   started while the job row is still there.
   */
  lemma GateOpensBeforeRelease(cfg: Config, w0: World, order: seq<CampaignID>, id: CampaignID)
    returns (trace: seq<Action>, w: World)
    requires Initial(cfg, w0) && Enabled(cfg, w0, Insert) && InFlightOn(cfg, w0) == {} && ListsSending(cfg, w0, order)
    requires id in w0.campaigns && OnList(cfg, w0.campaigns[id])
      && forall l :: l in w0.campaigns[id].lists ==> l == cfg.list
    requires w0.campaigns[id].status.Draft? && !w0.campaigns[id].sendAt
    ensures After(cfg, w0, trace) == Some(w) && w.phase.Returned? && cfg.job in w.jobs
    ensures id in Sending(w.campaigns, cfg.tenant, [cfg.list])
    ensures id !in w.scheduled && id !in w.early && id !in w.joined
  {
    ScrubListPauses(cfg, w0, order);
    hide After, ListsSending;
    var w1 := After(cfg, w0, ScrubListTrace(order)).value;
    var seen := AllCompleted(OurJob(cfg).row.total);
    Then(cfg, w0, ScrubListTrace(order), w1, Action.Progress(cfg.job, seen));
    var w2 := Next(cfg, w1, Action.Progress(cfg.job, seen));
    NothingBlocks(cfg, w0, w2, w0.campaigns[id]);
    trace := ScrubListTrace(order) + [Action.Progress(cfg.job, seen)];
    Then(cfg, w0, trace, w2, Check(id, Running));
    trace := trace + [Check(id, Running)];
    var w3 := Next(cfg, w2, Check(id, Running));
    Then(cfg, w0, trace, w3, Commit(id, Running));
    trace, w := trace + [Commit(id, Running)], Next(cfg, w3, Commit(id, Running));
  }

  lemma NothingBlocks(cfg: Config, w0: World, w: World, c: Campaign)
    requires cfg.job in w.jobs && w.jobs[cfg.job].row.status.Completed? && !ActiveJob(w0.jobs, cfg.tenant, cfg.list)
    requires forall j :: j in w.jobs && j != cfg.job ==> j in w0.jobs && w.jobs[j] == w0.jobs[j]
    requires c.tenant == cfg.tenant && forall l :: l in c.lists ==> l == cfg.list
    ensures !GateBlocks(w.jobs, Some(cfg.settings), c, {})
  {
  }

  /**
   A run, from the insertion on, that ends with a campaign being sent to the
   list that no schedule or edit explains.
   */
  ghost predicate Escapes(cfg: Config, w0: World, trace: seq<Action>, w: World, id: CampaignID) {
    && After(cfg, w0, [Insert] + trace) == Some(w) && w.phase.Returned? && !w.lapsed
    && id in Sending(w.campaigns, cfg.tenant, [cfg.list]) && id !in w.scheduled && id !in w.joined
  }

  lemma {:induction false} EarlyStays(cfg: Config, w0: World, trace: seq<Action>, w: World)
    requires Enabled(cfg, w0, Insert) && After(cfg, w0, [Insert] + trace) == Some(w)
    ensures !w.phase.Idle? && w.early == InFlightOn(cfg, w0)
  {
    if trace == [] {
      assert [Insert] + trace == [Insert] && [Insert][..0] == [];
      assert After(cfg, w0, []) == Some(w0);
    } else {
      hide Enabled, Next, InFlightOn;
      var n := |trace| - 1;
      assert ([Insert] + trace)[..n + 1] == [Insert] + trace[..n];
      var before := After(cfg, w0, [Insert] + trace[..n]).value;
      EarlyStays(cfg, w0, trace[..n], before);
      StepKeepsEarly(cfg, before, trace[n]);
    }
  }

  lemma StepKeepsEarly(cfg: Config, w: World, a: Action)
    requires !w.phase.Idle? && Enabled(cfg, w, a)
    ensures !Next(cfg, w, a).phase.Idle? && Next(cfg, w, a).early == w.early
  {
  }

  /** Still in phase, not paused any more, but as scheduled, edited and requested as before. */
  predicate PausedRest(w: World, next: World) {
    && next.phase == w.phase && next.due == {} && next.starting == w.starting && next.scheduled == w.scheduled
    && next.joined == w.joined && next.lapsed == w.lapsed
    && (forall i :: i in w.campaigns && i !in w.due ==> i in next.campaigns && next.campaigns[i] == w.campaigns[i])
  }

  lemma NoneIsEmpty(ids: set<CampaignID>)
    requires forall i :: i !in ids
    ensures ids == {}
  {
    assert forall i :: i in ids ==> i in {};
  }

  lemma {:induction false} PausesRest(cfg: Config, w0: World, trace: seq<Action>, w: World)
    returns (more: seq<Action>, next: World)
    requires After(cfg, w0, trace) == Some(w) && w.phase.Pausing? && w.due <= w.campaigns.Keys
    ensures trace <= more && After(cfg, w0, more) == Some(next) && PausedRest(w, next)
    decreases |w.due|
  {
    hide After;
    if i :| i in w.due {
      Then(cfg, w0, trace, w, Pause(i));
      more, next := PausesRest(cfg, w0, trace + [Pause(i)], Next(cfg, w, Pause(i)));
    } else {
      NoneIsEmpty(w.due);
      more, next := trace, w;
    }
  }

  /** The edit that changes nothing but whether there is a send date. */
  function Dated(c: Campaign, sendAt: bool): Edit {
    Edit.Edit(sendAt, c.lists, c.visual, c.template, c.body)
  }

  /** Before the lookup, a campaign with a request in flight is set back to where the request can start it. */
  lemma SetsBack(cfg: Config, w0: World, trace: seq<Action>, w: World, id: CampaignID)
    returns (more: seq<Action>, next: World)
    requires After(cfg, w0, trace) == Some(w) && id in w.campaigns
    ensures trace <= more && After(cfg, w0, more) == Some(next)
    ensures id in next.campaigns && (next.campaigns[id].status.Draft? || next.campaigns[id].status.Paused?)
    ensures next == w.(campaigns := next.campaigns) && next.campaigns[id].lists == w.campaigns[id].lists
    ensures next.campaigns[id].tenant == w.campaigns[id].tenant
  {
    hide After;
    var c := w.campaigns[id];
    if c.status.Draft? || c.status.Paused? {
      more, next := trace, w;
    } else {
      var to := if c.status.Scheduled? then Draft else Paused;
      Then(cfg, w0, trace, w, Stop(id, to));
      more, next := trace + [Stop(id, to)], Next(cfg, w, Stop(id, to));
    }
  }

  /** After the return, the request is written and its campaign sent. */
  lemma GetsSent(cfg: Config, w0: World, trace: seq<Action>, w: World, id: CampaignID, to: Status)
    returns (more: seq<Action>, next: World)
    requires After(cfg, w0, trace) == Some(w) && w.phase.Returned? && !w.lapsed && id in w.campaigns
    requires (id, to) in w.starting && Starts(to)
    requires OnList(cfg, w.campaigns[id]) && (w.campaigns[id].status.Draft? || w.campaigns[id].status.Paused?)
    ensures trace <= more && After(cfg, w0, more) == Some(next) && next.phase.Returned? && !next.lapsed
    ensures id in Sending(next.campaigns, cfg.tenant, [cfg.list])
    ensures next.scheduled == w.scheduled && next.joined == w.joined
  {
    hide After;
    var edit := Change(id, Dated(w.campaigns[id], to.Scheduled?));
    Then(cfg, w0, trace, w, edit);
    var edited := Next(cfg, w, edit);
    assert OnList(cfg, edited.campaigns[id]);
    Then(cfg, w0, trace + [edit], edited, Commit(id, to));
    more, next := trace + [edit] + [Commit(id, to)], Next(cfg, edited, Commit(id, to));
    assert OnList(cfg, next.campaigns[id]);
    if to.Scheduled? {
      Then(cfg, w0, more, next, Promote(id));
      more, next := more + [Promote(id)], Next(cfg, next, Promote(id));
      assert OnList(cfg, next.campaigns[id]);
    }
  }

  /**
   A request that passed its check before the job row was there can start its
   campaign while the job is processing.
   */
  lemma EarlyStartSlipsThrough(cfg: Config, w0: World, id: CampaignID) returns (trace: seq<Action>, w: World)
    requires Initial(cfg, w0) && Enabled(cfg, w0, Insert) && id in InFlightOn(cfg, w0)
    ensures Escapes(cfg, w0, trace, w, id)
  {
    var p :| p in w0.starting && p.0 == id;
    assert After(cfg, w0, []) == Some(w0);
    Then(cfg, w0, [], w0, Insert);
    assert [] + [Insert] == [Insert];
    hide After;
    var w1 := Next(cfg, w0, Insert);
    var t3;
    t3, w := SlipsThrough(cfg, w0, [Insert], w1, id, p.1);
    assert t3 == [Insert] + t3[1..];
    trace := t3[1..];
  }

  lemma SlipsThrough(cfg: Config, w0: World, t0: seq<Action>, w1: World, id: CampaignID, to: Status)
    returns (trace: seq<Action>, w: World)
    requires After(cfg, w0, t0) == Some(w1) && w1.phase.Submitting? && !w1.lapsed && w1.joined == {}
    requires id in w1.campaigns && OnList(cfg, w1.campaigns[id]) && (id, to) in w1.starting && Starts(to)
    ensures t0 <= trace && After(cfg, w0, trace) == Some(w) && w.phase.Returned? && !w.lapsed
    ensures id in Sending(w.campaigns, cfg.tenant, [cfg.list]) && id !in w.scheduled && id !in w.joined
  {
    hide After, Sending;
    var t1, w2 := SetsBack(cfg, w0, t0, w1, id);
    assert OnList(cfg, w2.campaigns[id]);
    hide OnList;
    var t2, w3 := LooksUpAndReturns(cfg, w0, t1, w2, id);
    trace, w := GetsSent(cfg, w0, t2, w3, id, to);
  }

  /** What the lookup does not find running or scheduled goes through to the return as it is. */
  lemma LooksUpAndReturns(cfg: Config, w0: World, trace: seq<Action>, w: World, id: CampaignID)
    returns (more: seq<Action>, next: World)
    requires After(cfg, w0, trace) == Some(w) && w.phase.Submitting?
    requires id in w.campaigns && (w.campaigns[id].status.Draft? || w.campaigns[id].status.Paused?)
    ensures trace <= more && After(cfg, w0, more) == Some(next) && next.phase.Returned?
    ensures id in next.campaigns && next.campaigns[id] == w.campaigns[id] && id !in next.scheduled
    ensures next.starting == w.starting && next.joined == w.joined && next.lapsed == w.lapsed
  {
    hide After;
    Then(cfg, w0, trace, w, LookUp);
    var looked := Next(cfg, w, LookUp);
    var t1, w1 := PausesRest(cfg, w0, trace + [LookUp], looked);
    Then(cfg, w0, t1, w1, Return);
    more, next := t1 + [Return], Next(cfg, w1, Return);
  }

  /**
   Some campaign is sent to the list, its job processing, that neither its
   schedule nor an edit explains, in some run from the insertion on, exactly when
   a campaign on the list has a request in flight at the insertion.
   */
  lemma EarlyStartExactly(cfg: Config, w0: World)
    requires Initial(cfg, w0) && Enabled(cfg, w0, Insert)
    ensures (exists trace, w, id :: Escapes(cfg, w0, trace, w, id)) <==> InFlightOn(cfg, w0) != {}
  {
    if trace, w, id :| Escapes(cfg, w0, trace, w, id) {
      hide After, Enabled, InFlightOn;
      EarlyStays(cfg, w0, trace, w);
      GateHolds(cfg, w0, [Insert] + trace, w, id);
      assert id in InFlightOn(cfg, w0);
    }
    if InFlightOn(cfg, w0) != {} {
      var id :| id in InFlightOn(cfg, w0);
      var trace, w := EarlyStartSlipsThrough(cfg, w0, id);
    }
  }
}
