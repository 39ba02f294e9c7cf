/**
 The data of list validation: batch and job rows, Scrub's history records, and
 the tables a finished validation writes to. Row-level writes are functions
 from table to table, shared by the imperative store and the step system.
 */
module ScrubModel {
  import opened Wrappers

  type Email = string
  type JobID = nat
  type BatchID = nat
  type ListID = int
  type SubID = int

  /** Callback statuses are stored verbatim, so an unknown one is possible. */
  datatype BatchStatus = Pending | Processing | Completed | Failed | Unknown(text: string)

  predicate Terminal(s: BatchStatus) {
    s.Completed? || s.Failed?
  }

  datatype BatchRow = BatchRow(status: BatchStatus, submitted: int, validated: int, invalid: int)

  datatype JobRow = JobRow(
    total: int, completed: int, submitted: int, validated: int, invalid: int, status: BatchStatus)

  /** One record of Scrub's validation history. Anything but "valid" counts as invalid. */
  datatype HistoryRecord = HistoryRecord(email: Email, valid: bool)

  datatype Verdict = Unchecked | Deliverable | Undeliverable | OtherVerdict(text: string)

  datatype Subscriber = Subscriber(tenant: int, email: Email, verdict: Verdict)

  datatype Subscription = Unconfirmed | Confirmed | Unsubscribed

  datatype ListSummary = ListSummary(valid: int, invalid: int)

  datatype Tables = Tables(
    subscribers: map<SubID, Subscriber>,
    subscriptions: map<(SubID, ListID), Subscription>,
    summaries: map<ListID, Option<ListSummary>>)

  /** UPDATE subscribers SET scrub_status WHERE tenant_id AND email = ANY. */
  function Tag(db: Tables, tenant: int, emails: seq<Email>, v: Verdict): Tables {
    db.(subscribers := map i | i in db.subscribers ::
      if db.subscribers[i].tenant == tenant && db.subscribers[i].email in emails
      then db.subscribers[i].(verdict := v) else db.subscribers[i])
  }

  /** The tenant's subscribers whose e-mail is listed. */
  function SubscribersByEmail(db: Tables, tenant: int, emails: seq<Email>): set<SubID> {
    set i | i in db.subscribers
            && db.subscribers[i].tenant == tenant && db.subscribers[i].email in emails
  }

  /** Existing subscriptions of ids to lists become unsubscribed. */
  function Unsubscribe(db: Tables, ids: set<SubID>, lists: seq<ListID>): Tables {
    db.(subscriptions := map k | k in db.subscriptions ::
      if k.0 in ids && k.1 in lists then Unsubscribed else db.subscriptions[k])
  }

  /** UPDATE lists SET the last-validated summary WHERE id. */
  function Summarise(db: Tables, list: ListID, valid: int, invalid: int): Tables {
    if list in db.summaries
    then db.(summaries := db.summaries[list := Some(ListSummary(valid, invalid))])
    else db
  }

  function SummariseAll(db: Tables, lists: seq<ListID>, valid: int, invalid: int): Tables
    decreases |lists|
  {
    if lists == [] then db
    else Summarise(SummariseAll(db, lists[..|lists| - 1], valid, invalid), lists[|lists| - 1], valid, invalid)
  }
}
