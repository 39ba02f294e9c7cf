/**
 Whether every campaign that is scheduled or being sent lets its reader
 unsubscribe, over runs of the campaign handlers with templates fixed.
 */
module UnsubscribeRule {
  import opened Wrappers
  import opened UnsubscribeTag
  import opened Campaigns

  type Table = map<CampaignID, Campaign>

  /** gated says whether a validation blocks the request: it only ever turns one down. */
  datatype Action =
    | Create(id: CampaignID, campaign: Campaign)
    | Change(id: CampaignID, edit: Edit)
    | Request(id: CampaignID, to: Status, gated: bool)
    | AutoPause(id: CampaignID, reason: string)
    | Promote(id: CampaignID)
    | SenderStops(id: CampaignID, to: Status)

  predicate RequestPasses(ts: Templates, c: Campaign, to: Status, gated: bool) {
    StatusAllowed(c, to) &&
    (to.Running? || to.Scheduled? ==> HasUnsubscribeLink(c.visual, PreviewBody(ts, c.template), c.body) && !gated)
  }

  predicate ChangePasses(ts: Templates, c: Campaign, e: Edit) {
    CanEdit(c.status) &&
    (c.status.Scheduled? ==>
       var checked := CheckedTemplate(ts, c, e);
       checked.Ok? && HasUnsubscribeLink(e.visual, checked.value, e.body))
  }

  predicate Enabled(ts: Templates, t: Table, a: Action) {
    match a
    case Create(id, campaign) => id !in t && campaign.status.Draft?
    case Change(id, edit) => id in t && ChangePasses(ts, t[id], edit)
    case Request(id, to, gated) => id in t && RequestPasses(ts, t[id], to, gated)
    case AutoPause(id, reason) => id in t && t[id].status.Running?
    case Promote(id) => id in t && t[id].status.Scheduled?
    case SenderStops(id, to) => id in t && (to.Paused? || to.Cancelled? || to.Finished?)
  }

  function Next(ts: Templates, t: Table, a: Action): Table
    requires Enabled(ts, t, a)
  {
    match a
    case Create(id, campaign) => t[id := campaign]
    case Change(id, edit) => t[id := Edited(t[id], edit)]
    case Request(id, to, gated) => t[id := WithStatus(t[id], to)]
    case AutoPause(id, reason) => t[id := AutoPaused(t[id], reason)]
    case Promote(id) => t[id := t[id].(status := Running)]
    case SenderStops(id, to) => t[id := t[id].(status := to)]
  }

  function After(ts: Templates, trace: seq<Action>): Option<Table> {
    if trace == [] then Some(map[])
    else
      var before := After(ts, trace[..|trace| - 1]);
      var a := trace[|trace| - 1];
      if before.Some? && Enabled(ts, before.value, a) then Some(Next(ts, before.value, a)) else None
  }

  predicate Sends(c: Campaign) {
    c.status.Scheduled? || c.status.Running?
  }

  predicate Covered(ts: Templates, c: Campaign) {
    Sends(c) ==> Unsubscribable(ts, c)
  }

  predicate AllCovered(ts: Templates, t: Table) {
    forall id :: id in t ==> Covered(ts, t[id])
  }

  /**
   An accepted edit takes the way out of a scheduled campaign exactly when it
   leaves a campaign that still is scheduled without a template of its own, and
   neither the new body nor the default template has a tag. The check lets it
   pass because it looks at the template the campaign had before.
   */
  predicate Uncovers(ts: Templates, c: Campaign, e: Edit) {
    c.status.Scheduled? && e.sendAt && !e.visual && e.template.None?
    && !HasUnsubscribeTag(e.body) && !HasUnsubscribeTag(ts.standard)
  }

  lemma EditCoveredExactly(ts: Templates, c: Campaign, e: Edit)
    requires ChangePasses(ts, c, e)
    ensures Covered(ts, Edited(c, e)) <==> !Uncovers(ts, c, e)
    ensures Uncovers(ts, c, e) ==>
      c.template.Some? && c.template.value in ts.bodies && HasUnsubscribeTag(ts.bodies[c.template.value])
  {
  }

  predicate Avoids(ts: Templates, t: Table, a: Action) {
    a.Change? && a.id in t ==> !Uncovers(ts, t[a.id], a.edit)
  }

  lemma StepKeepsCovered(ts: Templates, t: Table, a: Action)
    requires Enabled(ts, t, a) && AllCovered(ts, t) && Avoids(ts, t, a)
    ensures AllCovered(ts, Next(ts, t, a))
  {
  }

  predicate SomeTagged(ts: Templates) {
    exists k :: k in ts.bodies && HasUnsubscribeTag(ts.bodies[k])
  }

  /**
   Every scheduled or running campaign of a reachable state lets its reader
   unsubscribe, if the default template has a tag or no template has one.
   */
  lemma {:induction false} AlwaysCovered(ts: Templates, trace: seq<Action>)
    requires HasUnsubscribeTag(ts.standard) || !SomeTagged(ts)
    requires After(ts, trace).Some?
    ensures AllCovered(ts, After(ts, trace).value)
  {
    if trace != [] {
      hide HasUnsubscribeTag, Next, AllCovered, Uncovers;
      var n := |trace| - 1;
      AlwaysCovered(ts, trace[..n]);
      var t, a := After(ts, trace[..n]).value, trace[n];
      if a.Change? && Uncovers(ts, t[a.id], a.edit) {
        UncoveringNeeds(ts, t[a.id], a.edit);
      }
      StepKeepsCovered(ts, t, a);
    }
  }

  lemma UncoveringNeeds(ts: Templates, c: Campaign, e: Edit)
    requires ChangePasses(ts, c, e) && Uncovers(ts, c, e)
    ensures !HasUnsubscribeTag(ts.standard) && SomeTagged(ts)
  {
    EditCoveredExactly(ts, c, e);
    var k := c.template.value;
    assert k in ts.bodies && HasUnsubscribeTag(ts.bodies[k]);
  }

  /** Otherwise a run leaves a scheduled campaign without one: an edit takes its template away. */
  lemma SometimesUncovered(ts: Templates, k: TemplateID) returns (trace: seq<Action>)
    requires !HasUnsubscribeTag(ts.standard) && k in ts.bodies && HasUnsubscribeTag(ts.bodies[k])
    ensures After(ts, trace).Some? && !AllCovered(ts, After(ts, trace).value)
  {
    assert !HasUnsubscribeTag("");
    hide HasUnsubscribeTag;
    var c := Campaign(1, Draft, true, [1], false, Some(k), "", None);
    var create, schedule := Create(1, c), Request(1, Scheduled, false);
    var strip := Change(1, Edit.Edit(true, [1], false, None, ""));
    Then(ts, [], map[], create);
    Then(ts, [] + [create], map[1 := c], schedule);
    var scheduled := WithStatus(c, Scheduled);
    assert map[1 := c][1 := scheduled] == map[1 := scheduled];
    Then(ts, [] + [create] + [schedule], map[1 := scheduled], strip);
    trace := [] + [create] + [schedule] + [strip];
    var stripped := Edited(scheduled, strip.edit);
    assert !Covered(ts, stripped);
    assert After(ts, trace).value[1] == stripped;
  }

  lemma Then(ts: Templates, trace: seq<Action>, t: Table, a: Action)
    requires After(ts, trace) == Some(t) && Enabled(ts, t, a)
    ensures After(ts, trace + [a]) == Some(Next(ts, t, a))
  {
  }
}
