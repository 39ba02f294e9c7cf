/**
 Campaign handlers: status changes, edits, the automatic pause, and the start
 of a list validation, which pauses what is being sent to the list.
 */
module Campaigns {
  import opened Wrappers
  import opened ScrubModel
  import opened ScrubStore
  import opened Text
  import opened UnsubscribeTag

  type CampaignID = int
  type TemplateID = int

  datatype Status = Draft | Scheduled | Running | Paused | Cancelled | Finished

  datatype Campaign = Campaign(
    tenant: int, status: Status, sendAt: bool, lists: seq<ListID>, visual: bool, template: Option<TemplateID>,
    body: string, reason: Option<string>)

  /** The fields of an edit that matter here. */
  datatype Edit = Edit(sendAt: bool, lists: seq<ListID>, visual: bool, template: Option<TemplateID>, body: string)

  datatype Templates = Templates(bodies: map<TemplateID, string>, standard: string)

  datatype CampaignError = NotFound | NoUnsubscribeLink | ValidationRunning | NotAllowed | CannotEdit | InvalidFields

  /** The template around a campaign when it is sent: its own, or else the default one. */
  function TemplateBody(ts: Templates, template: Option<TemplateID>): string {
    if template.Some? && template.value in ts.bodies then ts.bodies[template.value] else ts.standard
  }

  /** The template a preview shows: its own or none. */
  function PreviewBody(ts: Templates, template: Option<TemplateID>): string {
    if template.Some? && template.value in ts.bodies then ts.bodies[template.value] else ""
  }

  predicate HasUnsubscribeLink(visual: bool, templateBody: string, body: string) {
    (!visual && HasUnsubscribeTag(templateBody)) || HasUnsubscribeTag(body)
  }

  /** What is sent lets its reader unsubscribe. */
  predicate Unsubscribable(ts: Templates, c: Campaign) {
    HasUnsubscribeLink(c.visual, TemplateBody(ts, c.template), c.body)
  }

  predicate CanEdit(s: Status) {
    s.Draft? || s.Paused? || s.Scheduled?
  }

  predicate StatusAllowed(c: Campaign, to: Status) {
    match to
    case Draft => c.status.Scheduled?
    case Scheduled => (c.status.Draft? || c.status.Paused?) && c.sendAt
    case Running => c.status.Paused? || c.status.Draft?
    case Paused => c.status.Running?
    case Cancelled => c.status.Running? || c.status.Paused?
    case Finished => true
  }

  /** A campaign with a send date is scheduled when it is told to run. */
  function StoredStatus(c: Campaign, to: Status): Status {
    if c.sendAt && to.Running? then Scheduled else to
  }

  function WithStatus(c: Campaign, to: Status): Campaign {
    c.(status := StoredStatus(c, to), reason := if to.Paused? then c.reason else None)
  }

  /** An edit that takes the send date away unschedules; a visual campaign keeps no template. */
  function Edited(c: Campaign, e: Edit): Campaign {
    Campaign(c.tenant, if c.status.Scheduled? && !e.sendAt then Draft else c.status, e.sendAt, e.lists, e.visual,
             if e.visual then None else e.template, e.body, c.reason)
  }

  /** The template campaignHasUnsubLink looks at: the edit's own, or what was loaded with the campaign before it. */
  function CheckedTemplate(ts: Templates, c: Campaign, e: Edit): Result<string, CampaignError> {
    if e.template.Some? && !e.visual then
      if e.template.value in ts.bodies then Ok(ts.bodies[e.template.value]) else Err(NotFound)
    else Ok(TemplateBody(ts, c.template))
  }

  predicate ActiveJob(jobs: map<JobID, Job>, tenant: int, list: ListID) {
    exists j :: j in jobs && jobs[j].tenant == tenant && list in jobs[j].lists && jobs[j].row.status.Processing?
  }

  predicate GateArmed(settings: Option<ScrubSettings>) {
    settings.Some? && ScrubValidationEnabled(settings.value) && settings.value.integrationID != ""
  }

  /** Whether a list of the campaign is being validated, as far as the lookups that succeed can tell. */
  predicate GateBlocks(jobs: map<JobID, Job>, settings: Option<ScrubSettings>, c: Campaign, unread: set<ListID>) {
    GateArmed(settings) && exists l :: l in c.lists && l !in unread && ActiveJob(jobs, c.tenant, l)
  }

  /** Scrub is configured and the list known to have no validation under way. */
  predicate Clear(jobs: map<JobID, Job>, tenant: int, list: ListID, settings: Option<ScrubSettings>, readable: bool) {
    settings.Some? && Configured(settings.value) && readable && !ActiveJob(jobs, tenant, list)
  }

  predicate TargetsAny(c: Campaign, tenant: int, lists: seq<ListID>) {
    c.tenant == tenant && exists k :: 0 <= k < |c.lists| && c.lists[k] in lists
  }

  predicate IsSendingTo(c: Campaign, tenant: int, lists: seq<ListID>) {
    c.status.Running? && TargetsAny(c, tenant, lists)
  }

  /** What the automatic pause does to one campaign. */
  function AutoPaused(c: Campaign, reason: string): Campaign {
    c.(status := Paused, reason := if c.reason.None? then Some(reason) else c.reason)
  }

  function PausedAll(campaigns: map<CampaignID, Campaign>, ids: set<CampaignID>, reason: string)
    : map<CampaignID, Campaign> {
    map i | i in campaigns :: if i in ids then AutoPaused(campaigns[i], reason) else campaigns[i]
  }

  function Sending(campaigns: map<CampaignID, Campaign>, tenant: int, lists: seq<ListID>): set<CampaignID> {
    set i | i in campaigns && IsSendingTo(campaigns[i], tenant, lists)
  }

  lemma NoneOnNoList(campaigns: map<CampaignID, Campaign>, tenant: int, lists: seq<ListID>, reason: string)
    requires lists == []
    ensures PausedAll(campaigns, Sending(campaigns, tenant, lists), reason) == campaigns
  {
    forall i | i in campaigns
      ensures !IsSendingTo(campaigns[i], tenant, lists)
    {
    }
  }

  lemma InBoth(a: seq<ListID>, b: seq<ListID>)
    ensures (exists k :: 0 <= k < |a| && a[k] in b) <==> (exists l :: l in a && l in b)
  {
    if exists k :: 0 <= k < |a| && a[k] in b {
      var k :| 0 <= k < |a| && a[k] in b;
      var l := a[k];
      assert l in a && l in b;
    } else {
      forall l | l in a ensures l !in b {
        var k :| 0 <= k < |a| && a[k] == l;
        assert a[k] !in b;
      }
    }
  }

  lemma TargetsExact(tenant: int, lists: seq<ListID>)
    ensures forall c: Campaign :: TargetsAny(c, tenant, lists) <==>
      (c.tenant == tenant && exists l :: l in c.lists && l in lists)
  {
    forall c: Campaign
      ensures TargetsAny(c, tenant, lists) <==> (c.tenant == tenant && exists l :: l in c.lists && l in lists)
    {
      InBoth(c.lists, lists);
    }
  }

  lemma OnlySlashes(s: string)
    ensures TrimRightSlash(s) == "" <==> forall c :: c in s ==> c == '/'
  {
    TrimRightSlashExact(s);
    var t := TrimRightSlash(s);
    if t != "" {
      assert t[|t| - 1] == s[|t| - 1] && s[|t| - 1] in s;
    } else {
      assert forall k :: 0 <= k < |s| ==> s[k] == '/';
    }
  }

  class App {
    const store: Store
    const templates: Templates
    var campaigns: map<CampaignID, Campaign>

    constructor (store: Store, templates: Templates)
      ensures this.store == store && this.templates == templates && campaigns == map[]
    {
      this.store := store;
      this.templates := templates;
      campaigns := map[];
    }

    /** unread are the lists whose lookup fails: an error is logged and the next list tried. */
    method CheckScrubJobOnCampaign(settings: Option<ScrubSettings>, c: Campaign, unread: set<ListID>)
      returns (blocked: bool)
      ensures blocked <==> GateBlocks(store.jobs, settings, c, unread)
      ensures blocked <==>
        && settings.Some? && settings.value.enabled && settings.value.url != "" && settings.value.apiKey != ""
        && settings.value.integrationID != ""
        && exists l, j :: l in c.lists && l !in unread && j in store.jobs
             && store.jobs[j].tenant == c.tenant && l in store.jobs[j].lists && store.jobs[j].row.status == Processing
    {
      if !GateArmed(settings) {
        return false;
      }
      for k := 0 to |c.lists|
        invariant forall i :: 0 <= i < k ==> c.lists[i] in unread || !ActiveJob(store.jobs, c.tenant, c.lists[i])
      {
        if c.lists[k] !in unread && ActiveJob(store.jobs, c.tenant, c.lists[k]) {
          return true;
        }
      }
      return false;
    }

    /**
     A user's request to move a campaign to another status. It is accepted if the
     transition is allowed and, for a start, the mail has an unsubscribe tag in its
     body or its own template and no list is being validated. A campaign with a
     send date that is told to run is scheduled; nothing else changes but the
     reason of an automatic pause, which is kept by a pause and cleared otherwise.
     */
    method UpdateCampaignStatus(id: CampaignID, to: Status, settings: Option<ScrubSettings>, unread: set<ListID>)
      returns (r: Result<Campaign, CampaignError>)
      modifies this
      ensures r.Ok? <==>
        && id in old(campaigns)
        && StatusAllowed(old(campaigns)[id], to)
        && ((to.Running? || to.Scheduled?) ==>
              var c := old(campaigns)[id];
              && HasUnsubscribeLink(c.visual, PreviewBody(templates, c.template), c.body)
              && !GateBlocks(store.jobs, settings, c, unread))
      ensures r.Ok? ==>
        var c := old(campaigns)[id];
        && (to == Draft ==> c.status == Scheduled)
        && (to == Scheduled ==> (c.status == Draft || c.status == Paused) && c.sendAt)
        && (to == Running ==> c.status == Draft || c.status == Paused)
        && (to == Paused ==> c.status == Running)
        && (to == Cancelled ==> c.status == Running || c.status == Paused)
        && (to == Running || to == Scheduled ==>
              || HasUnsubscribeTag(c.body)
              || (!c.visual && c.template.Some? && c.template.value in templates.bodies
                  && HasUnsubscribeTag(templates.bodies[c.template.value])))
      ensures r == Err(NotAllowed) ==>
        id in old(campaigns) &&
        var from := old(campaigns)[id].status;
        match to
        case Draft => from != Scheduled
        case Scheduled => (from != Draft && from != Paused) || !old(campaigns)[id].sendAt
        case Running => from != Draft && from != Paused
        case Paused => from != Running
        case Cancelled => from != Running && from != Paused
        case Finished => false
      ensures r == Err(NotFound) <==> id !in old(campaigns)
      ensures r == Err(NoUnsubscribeLink) <==>
        && id in old(campaigns) && (to.Running? || to.Scheduled?)
        && var c := old(campaigns)[id]; !HasUnsubscribeLink(c.visual, PreviewBody(templates, c.template), c.body)
      ensures r == Err(ValidationRunning) ==> GateBlocks(store.jobs, settings, old(campaigns)[id], unread)
      ensures r.Ok? ==> campaigns == old(campaigns)[id := WithStatus(old(campaigns)[id], to)]
      ensures r.Ok? ==>
        var c := old(campaigns)[id];
        campaigns == old(campaigns)[id := c.(
          status := if c.sendAt && to == Running then Scheduled else to,
          reason := if to == Paused then c.reason else None)]
      ensures r.Err? ==> campaigns == old(campaigns)
    {
      if id !in campaigns {
        return Err(NotFound);
      }
      var c := campaigns[id];
      if to.Running? || to.Scheduled? {
        if !HasUnsubscribeLink(c.visual, PreviewBody(templates, c.template), c.body) {
          return Err(NoUnsubscribeLink);
        }
        var blocked := CheckScrubJobOnCampaign(settings, c, unread);
        if blocked {
          return Err(ValidationRunning);
        }
      }
      if !StatusAllowed(c, to) {
        return Err(NotAllowed);
      }
      campaigns := campaigns[id := c.(status := StoredStatus(c, to))];
      if !to.Paused? {
        campaigns := campaigns[id := campaigns[id].(reason := None)];
      }
      return Ok(campaigns[id]);
    }

    /**
     A user's edit; valid is the outcome of the field checks. A scheduled campaign
     whose send date is taken away becomes a draft again, and has to keep a tag in
     its body or in the template the check looks at.
     */
    method UpdateCampaign(id: CampaignID, e: Edit, valid: bool) returns (r: Result<Campaign, CampaignError>)
      modifies this
      ensures r.Ok? <==>
        && id in old(campaigns) && CanEdit(old(campaigns)[id].status) && valid
        && (old(campaigns)[id].status.Scheduled? ==>
              var checked := CheckedTemplate(templates, old(campaigns)[id], e);
              checked.Ok? && HasUnsubscribeLink(e.visual, checked.value, e.body))
      ensures r.Ok? ==> campaigns == old(campaigns)[id := Edited(old(campaigns)[id], e)]
      ensures r.Ok? <==>
        && valid && id in old(campaigns)
        && var c := old(campaigns)[id];
           && (c.status == Draft || c.status == Paused || c.status == Scheduled)
           && (c.status == Scheduled && e.template.Some? && !e.visual ==> e.template.value in templates.bodies)
           && (c.status == Scheduled && !HasUnsubscribeTag(e.body) ==>
                 && !e.visual
                 && var looked := if e.template.Some? then e.template else c.template;
                    HasUnsubscribeTag(if looked.Some? && looked.value in templates.bodies
                                      then templates.bodies[looked.value] else templates.standard))
      ensures r.Ok? ==>
        var c := old(campaigns)[id];
        campaigns == old(campaigns)[id := c.(
          status := if c.status == Scheduled && !e.sendAt then Draft else c.status, sendAt := e.sendAt,
          lists := e.lists, visual := e.visual, template := if e.visual then None else e.template, body := e.body)]
      ensures r.Err? ==> campaigns == old(campaigns)
    {
      if id !in campaigns {
        return Err(NotFound);
      }
      var c := campaigns[id];
      if !CanEdit(c.status) {
        return Err(CannotEdit);
      }
      if !valid {
        return Err(InvalidFields);
      }
      if c.status.Scheduled? {
        var checked := CheckedTemplate(templates, c, e);
        if checked.Err? {
          return Err(checked.error);
        }
        if !HasUnsubscribeLink(e.visual, checked.value, e.body) {
          return Err(NoUnsubscribeLink);
        }
      }
      campaigns := campaigns[id := Edited(c, e)];
      return Ok(campaigns[id]);
    }

    /** order lists what the query for running campaigns returned: each once. */
    method PauseCampaignsForRiskySubscriber(tenant: int, lists: seq<ListID>, reason: string, order: seq<CampaignID>)
      requires forall i :: i in order <==> i in Sending(campaigns, tenant, lists)
      requires forall j, k :: 0 <= j < k < |order| ==> order[j] != order[k]
      modifies this
      ensures campaigns == PausedAll(old(campaigns), Sending(old(campaigns), tenant, lists), reason)
      ensures campaigns.Keys == old(campaigns).Keys
      ensures forall i :: i in campaigns ==>
        var c := old(campaigns)[i];
        campaigns[i] ==
          if c.tenant == tenant && c.status == Running && exists l :: l in c.lists && l in lists
          then c.(status := Paused, reason := if c.reason.Some? then c.reason else Some(reason)) else c
    {
      TargetsExact(tenant, lists);
      if |lists| == 0 {
        NoneOnNoList(campaigns, tenant, lists, reason);
        return;
      }
      for k := 0 to |order|
        invariant campaigns.Keys == old(campaigns).Keys
        invariant forall i :: i in campaigns ==>
          campaigns[i] == if i in order[..k] then AutoPaused(old(campaigns)[i], reason) else old(campaigns)[i]
      {
        assert order[k] in order && order[k] !in order[..k];
        assert forall i :: i in order[..k + 1] <==> i in order[..k] || i == order[k];
        var c := campaigns[order[k]];
        if !StatusAllowed(c, Paused) {
          continue;
        }
        campaigns := campaigns[order[k] := c.(status := StoredStatus(c, Paused))];
        if campaigns[order[k]].reason.None? {
          campaigns := campaigns[order[k] := campaigns[order[k]].(reason := Some(reason))];
        }
      }
      assert order[..|order|] == order;
      forall i | i in campaigns
        ensures campaigns[i] == PausedAll(old(campaigns), Sending(old(campaigns), tenant, lists), reason)[i]
      {
        assert i in order <==> i in Sending(old(campaigns), tenant, lists);
      }
      assert campaigns == PausedAll(old(campaigns), Sending(old(campaigns), tenant, lists), reason);
    }

    /**
     The start of a list's validation. settings and emails are None when they
     cannot be read, readable is whether the lookup of an active job succeeds.
     */
    method ScrubList(tenant: int, list: ListID, settings: Option<ScrubSettings>, readable: bool,
                     emails: Option<seq<Email>>, replies: nat -> Option<int>, order: seq<CampaignID>)
      returns (r: Result<JobID, Error>)
      requires ValidDb(store.State())
      requires forall i :: i in order <==> i in Sending(campaigns, tenant, [list])
      requires forall j, k :: 0 <= j < k < |order| ==> order[j] != order[k]
      modifies this, store
      ensures r.Ok? ==>
        && Clear(old(store.jobs), tenant, list, settings, readable) && emails.Some? && emails.value != []
        && (store.State(), r)
          == AfterSubmission(old(store.State()), tenant, settings.value, list, emails.value, replies)
        && campaigns == PausedAll(old(campaigns), Sending(old(campaigns), tenant, [list]), "scrub_job_started")
      ensures r.Err? ==> campaigns == old(campaigns)
      ensures r.Err? && r.error != SubmitFailed ==> store.State() == old(store.State())
      ensures settings.None? <==> r == Err(SettingsUnreadable)
      ensures settings.Some? && !Configured(settings.value) <==> r == Err(NotConfigured)
      ensures r == Err(NotConfigured) <==>
        settings.Some? &&
        var s := settings.value;
        || !s.enabled || s.url == "" || s.apiKey == "" || s.integrationID == ""
        || forall c :: c in TrimSpace(s.rootURL) ==> c == '/'
      ensures r == Err(TooManyJobs) ==>
        exists j :: j in old(store.jobs) && old(store.jobs)[j].tenant == tenant && list in old(store.jobs)[j].lists
                    && old(store.jobs)[j].row.status == Processing
      ensures settings.Some? && Configured(settings.value) && !readable <==> r == Err(JobsUnreadable)
      ensures settings.Some? && Configured(settings.value) && readable && ActiveJob(old(store.jobs), tenant, list) <==>
              r == Err(TooManyJobs)
      ensures Clear(old(store.jobs), tenant, list, settings, readable) && emails.None? <==> r == Err(EmailsUnreadable)
      ensures Clear(old(store.jobs), tenant, list, settings, readable) && emails == Some([])
        <==> r == Err(NoSubscribers)
    {
      if settings.None? {
        return Err(SettingsUnreadable);
      }
      OnlySlashes(TrimSpace(settings.value.rootURL));
      hide TrimSpace, TrimRightSlash;
      if !GateArmed(settings) {
        return Err(NotConfigured);
      }
      if CallbackRoot(settings.value) == "" {
        return Err(NotConfigured);
      }
      if !readable {
        return Err(JobsUnreadable);
      }
      if ActiveJob(store.jobs, tenant, list) {
        return Err(TooManyJobs);
      }
      if emails.None? {
        return Err(EmailsUnreadable);
      }
      if |emails.value| == 0 {
        return Err(NoSubscribers);
      }
      var sub := store.SubmitScrubListValidation(tenant, settings.value, list, emails.value, replies);
      if sub.Err? {
        return Err(SubmitFailed);
      }
      PauseCampaignsForRiskySubscriber(tenant, [list], "scrub_job_started", order);
      return sub;
    }
  }
}
