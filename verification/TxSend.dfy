/**
 Sending a transactional request: a lookup, a rendering, a log entry and a push
 for each recipient in turn. Rendering overwrites the request's subject and
 plain text, which the next recipient's record then starts from.
 */
module TxSend {
  import opened Wrappers
  import opened TxMessages

  /** What a lookup in the subscriber database comes to. */
  datatype Lookup = Found(id: int, email: string) | Missing | Broken

  /**
   The outside of one send, with fixed answers. For the recipient at n: the
   lookup, the subject and plain text rendering leaves (None when it fails), the
   row identifier the log gives (None when it cannot be written), the public
   identifier generated for it, and whether the queue takes the message.
   */
  datatype Outside = Outside(
    template: bool, templateAlt: string, lookup: nat -> Lookup, render: nat -> Option<(string, string)>,
    create: nat -> Option<int>, uuid: nat -> string, push: nat -> bool)

  datatype Entry = Entry(uuid: string, row: int, recipient: string, subscriberID: int, queued: bool, payload: Payload)

  /** A message handed to the manager: for whom, and the row and public identifier it carries. */
  datatype Handed = Handed(recipient: string, row: int, uuid: string)

  /** What becomes of a recipient: the send breaks off before logging, or it is logged as failed or as queued. */
  datatype Fate =
    | Breaks
    | Fails(recipient: string, subscriberID: int)
    | Unrendered(recipient: string, subscriberID: int)
    | Queues(recipient: string, subscriberID: int, taken: bool)

  function Rendering(o: Outside, n: nat, email: string, id: int): Fate {
    if o.render(n).None? then Unrendered(email, id) else Queues(email, id, o.push(n))
  }

  function FateOf(m: TxMessage, r: Recipient, n: nat, o: Outside): Fate {
    var email := if m.ids == [] then r.name else "";
    if m.mode == EXTERNAL then Rendering(o, n, email, 0)
    else
      match o.lookup(n)
      case Found(id, found) => Rendering(o, n, found, id)
      case Broken => Breaks
      case Missing =>
        if m.mode == FALLBACK then Rendering(o, n, email, 0) else Fails(if email == "" then IDLabel(r.id) else email, 0)
  }

  /** The record of a recipient, if the log takes it. m is the request as rendering left it. */
  function Logged(m: TxMessage, r: Recipient, n: nat, f: Fate, o: Outside, attachments: seq<string>): Option<Entry>
    requires !f.Breaks?
  {
    if o.create(n).None? then None
    else Some(Entry(o.uuid(n), o.create(n).value, f.recipient, f.subscriberID, f.Queues?,
                    PayloadOf(m, f.recipient, r.id, attachments)))
  }

  function HandedFor(n: nat, f: Fate, o: Outside): Handed
    requires f.Queues?
  {
    if o.create(n).None? then Handed(f.recipient, 0, "") else Handed(f.recipient, o.create(n).value, o.uuid(n))
  }

  /** The run so far: log has an element for each recipient handled, None where the log could not be written. */
  datatype Progress = Progress(
    m: TxMessage, log: seq<Option<Entry>>, handed: seq<Handed>, missing: bool, stop: Option<TxError>)

  function AsRendered(m: TxMessage, n: nat, f: Fate, o: Outside): TxMessage {
    if f.Queues? && o.render(n).Some? then m.(subject := o.render(n).value.0, altBody := o.render(n).value.1) else m
  }

  function Step(p: Progress, r: Recipient, n: nat, o: Outside, attachments: seq<string>): Progress {
    var f := FateOf(p.m, r, n, o);
    if f.Breaks? then p.(stop := Some(LookupFailed))
    else
      var m := AsRendered(p.m, n, f, o);
      Progress(m, p.log + [Logged(m, r, n, f, o, attachments)],
               if f.Queues? then p.handed + [HandedFor(n, f, o)] else p.handed,
               p.missing || f.Fails?,
               if f.Unrendered? then Some(RenderFailed) else if f.Queues? && !f.taken then Some(PushFailed) else None)
  }

  function RunTo(m: TxMessage, rs: seq<Recipient>, o: Outside, attachments: seq<string>, n: nat): Progress
    requires n <= |rs|
  {
    if n == 0 then Progress(m, [], [], false, None)
    else
      var p := RunTo(m, rs, o, attachments, n - 1);
      if p.stop.Some? then p else Step(p, rs[n - 1], n - 1, o, attachments)
  }

  function Entries(log: seq<Option<Entry>>): seq<Entry> {
    if log == [] then []
    else Entries(log[..|log| - 1]) + if log[|log| - 1].Some? then [log[|log| - 1].value] else []
  }

  function UUIDs(entries: seq<Entry>): seq<string> {
    seq(|entries|, k requires 0 <= k < |entries| => entries[k].uuid)
  }

  lemma EntriesSnoc(log: seq<Option<Entry>>, e: Option<Entry>)
    ensures Entries(log + [e]) == Entries(log) + if e.Some? then [e.value] else []
    ensures UUIDs(Entries(log + [e])) == UUIDs(Entries(log)) + if e.Some? then [e.value.uuid] else []
  {
  }

  /** The failed entry of a recipient whose template does not exist. */
  function WithoutTemplate(m: TxMessage, rs: seq<Recipient>, o: Outside, attachments: seq<string>, n: nat)
    : seq<Option<Entry>>
    requires n <= |rs|
  {
    if n == 0 then []
    else WithoutTemplate(m, rs, o, attachments, n - 1)
         + [Logged(m, rs[n - 1], n - 1, Fails(rs[n - 1].name, 0), o, attachments)]
  }

  function Verdict(p: Progress): Option<TxError> {
    if p.stop.Some? then p.stop else if p.missing then Some(SubscribersNotFound) else None
  }

  class Transactional {
    var log: seq<Entry>
    var queue: seq<Handed>

    constructor ()
      ensures log == [] && queue == []
    {
      log, queue := [], [];
    }

    /** One recipient's record; the reference is None when it cannot be written. */
    method LogTx(m: TxMessage, r: Recipient, n: nat, f: Fate, o: Outside, attachments: seq<string>)
      returns (ref: Option<Entry>)
      requires !f.Breaks?
      modifies `log
      ensures ref == Logged(m, r, n, f, o, attachments)
      ensures log == old(log) + if ref.Some? then [ref.value] else []
    {
      var row := o.create(n);
      if row.None? {
        return None;
      }
      var entry := Entry(o.uuid(n), row.value, f.recipient, f.subscriberID, f.Queues?,
                         PayloadOf(m, f.recipient, r.id, attachments));
      log := log + [entry];
      return Some(entry);
    }

    method SendTx(env: Env, req: TxMessage, o: Outside, attachments: seq<string>)
      returns (ids: seq<string>, error: Option<TxError>)
      modifies this
      ensures !Valid(env, req) ==> ids == [] && error.Some? && log == old(log) && queue == old(queue)
      ensures Valid(env, req) && !o.template ==>
        var m := Validated(env, req);
        var failed := WithoutTemplate(m, Recipients(m), o, attachments, |Recipients(m)|);
        && log == old(log) + Entries(failed) && ids == UUIDs(Entries(failed)) && queue == old(queue)
        && error == Some(TemplateNotFound) && FailedAs(m, o, attachments, failed)
      ensures Valid(env, req) && o.template ==>
        var m := Validated(env, req)
          .(altBody := if Validated(env, req).altBody == "" then o.templateAlt else Validated(env, req).altBody);
        var p := RunTo(m, Recipients(m), o, attachments, |Recipients(m)|);
        && log == old(log) + Entries(p.log) && ids == UUIDs(Entries(p.log))
        && queue == old(queue) + p.handed && error == Verdict(p)
        && SentAs(m, o, attachments, p.log, p.handed, error)
    {
      var valid := ValidateTxMessage(env, req);
      if valid.Err? {
        return [], Some(valid.error);
      }
      hide Valid, Validated;
      var m := valid.value;
      if !o.template {
        WithoutTemplateFailed(m, o, attachments);
        ids := LogWithoutTemplate(m, Recipients(m), o, attachments);
        return ids, Some(TemplateNotFound);
      }
      if m.altBody == "" {
        m := m.(altBody := o.templateAlt);
      }
      RunSentAs(m, o, attachments);
      ids, error := SendEach(m, Recipients(m), o, attachments);
    }

    method LogWithoutTemplate(m: TxMessage, rs: seq<Recipient>, o: Outside, attachments: seq<string>)
      returns (ids: seq<string>)
      modifies `log
      ensures var entries := Entries(WithoutTemplate(m, rs, o, attachments, |rs|));
        log == old(log) + entries && ids == UUIDs(entries)
    {
      ids := [];
      hide Logged;
      for n := 0 to |rs|
        invariant log == old(log) + Entries(WithoutTemplate(m, rs, o, attachments, n))
        invariant ids == UUIDs(Entries(WithoutTemplate(m, rs, o, attachments, n)))
      {
        var ref := LogTx(m, rs[n], n, Fails(rs[n].name, 0), o, attachments);
        EntriesSnoc(WithoutTemplate(m, rs, o, attachments, n), ref);
        if ref.Some? {
          ids := ids + [ref.value.uuid];
        }
      }
    }

    /** The loop over recipients. */
    method SendEach(first: TxMessage, rs: seq<Recipient>, o: Outside, attachments: seq<string>)
      returns (ids: seq<string>, error: Option<TxError>)
      modifies this
      ensures var p := RunTo(first, rs, o, attachments, |rs|);
        && log == old(log) + Entries(p.log) && ids == UUIDs(Entries(p.log))
        && queue == old(queue) + p.handed && error == Verdict(p)
    {
      NoProgress(first, rs, o, attachments);
      hide FateOf, Logged, Entries, UUIDs, HandedFor, PayloadOf, RunTo;
      var m := first;
      var notFound := false;
      ids := [];
      Nothing();
      for n := 0 to |rs|
        invariant var p := RunTo(first, rs, o, attachments, n);
          && p.stop.None? && m == p.m && notFound == p.missing && queue == old(queue) + p.handed
          && log == old(log) + Entries(p.log) && ids == UUIDs(Entries(p.log))
      {
        ghost var p := RunTo(first, rs, o, attachments, n);
        RunNext(first, rs, o, attachments, n);
        var f := FateOf(m, rs[n], n, o);
        if f.Breaks? {
          StaysStopped(first, rs, o, attachments, n + 1, |rs|);
          return ids, Some(LookupFailed);
        }
        if f.Queues? && o.render(n).Some? {
          m := m.(subject := o.render(n).value.0, altBody := o.render(n).value.1);
        }
        var ref := LogTx(m, rs[n], n, f, o, attachments);
        EntriesSnoc(p.log, ref);
        if ref.Some? {
          ids := ids + [ref.value.uuid];
        }
        if f.Fails? {
          notFound := true;
          continue;
        }
        if f.Unrendered? {
          StaysStopped(first, rs, o, attachments, n + 1, |rs|);
          return ids, Some(RenderFailed);
        }
        HandsOver(n, f, o, ref, m, rs[n], attachments);
        queue := queue + [if ref.Some? then Handed(f.recipient, ref.value.row, ref.value.uuid)
                          else Handed(f.recipient, 0, "")];
        if !f.taken {
          StaysStopped(first, rs, o, attachments, n + 1, |rs|);
          return ids, Some(PushFailed);
        }
      }
      if notFound {
        return ids, Some(SubscribersNotFound);
      }
      return ids, None;
    }
  }

  lemma NoProgress(first: TxMessage, rs: seq<Recipient>, o: Outside, attachments: seq<string>)
    ensures RunTo(first, rs, o, attachments, 0) == Progress(first, [], [], false, None)
  {
  }

  lemma RunNext(first: TxMessage, rs: seq<Recipient>, o: Outside, attachments: seq<string>, n: nat)
    requires n < |rs| && RunTo(first, rs, o, attachments, n).stop.None?
    ensures RunTo(first, rs, o, attachments, n + 1)
      == Step(RunTo(first, rs, o, attachments, n), rs[n], n, o, attachments)
  {
  }

  lemma Nothing()
    ensures Entries([]) == [] && UUIDs([]) == []
  {
  }

  lemma HandsOver(n: nat, f: Fate, o: Outside, ref: Option<Entry>, m: TxMessage, r: Recipient, attachments: seq<string>)
    requires f.Queues? && ref == Logged(m, r, n, f, o, attachments)
    ensures HandedFor(n, f, o)
         == if ref.Some? then Handed(f.recipient, ref.value.row, ref.value.uuid) else Handed(f.recipient, 0, "")
  {
  }

  lemma {:induction false} StaysStopped(m: TxMessage, rs: seq<Recipient>, o: Outside, attachments: seq<string>, n: nat,
                                        k: nat)
    requires n <= k <= |rs| && RunTo(m, rs, o, attachments, n).stop.Some?
    ensures RunTo(m, rs, o, attachments, k) == RunTo(m, rs, o, attachments, n)
  {
    hide Step, FateOf;
    if n < k {
      StaysStopped(m, rs, o, attachments, n, k - 1);
    }
  }

  /** The entry of a recipient: named as its fate says, queued or failed, and with a payload to it alone. */
  ghost predicate EntryFor(e: Entry, m: TxMessage, r: Recipient, n: nat, o: Outside) {
    var f := FateOf(m, r, n, o);
    && !f.Breaks? && o.create(n) == Some(e.row) && e.uuid == o.uuid(n)
    && e.recipient == f.recipient && e.subscriberID == f.subscriberID && e.queued == f.Queues?
    && e.payload.id == (if r.id > 0 then r.id else 0) && e.payload.email == (if r.id > 0 then "" else f.recipient)
    && e.payload.mode == m.mode && e.payload.templateID == m.templateID && e.payload.data == m.data
  }

  predicate GoesOn(f: Fate) {
    f.Fails? || (f.Queues? && f.taken)
  }

  /** Only the subject and plain text change along the way. */
  lemma {:induction false} OnlyRendered(m: TxMessage, rs: seq<Recipient>, o: Outside, attachments: seq<string>, n: nat)
    requires n <= |rs|
    ensures var q := RunTo(m, rs, o, attachments, n).m; q == m.(subject := q.subject, altBody := q.altBody)
  {
    if n > 0 {
      OnlyRendered(m, rs, o, attachments, n - 1);
    }
  }

  /** The messages of the first n recipients, in order. */
  function HandedUpTo(m: TxMessage, rs: seq<Recipient>, o: Outside, n: nat): seq<Handed>
    requires n <= |rs|
  {
    if n == 0 then []
    else
      var f := FateOf(m, rs[n - 1], n - 1, o);
      HandedUpTo(m, rs, o, n - 1) + if f.Queues? then [HandedFor(n - 1, f, o)] else []
  }

  /** Why a run that handled h of the recipients came to this stop. */
  predicate Stopped(m: TxMessage, rs: seq<Recipient>, o: Outside, h: nat, stop: Option<TxError>) {
    match stop
    case None => h == |rs|
    case Some(LookupFailed) => h < |rs| && FateOf(m, rs[h], h, o).Breaks?
    case Some(RenderFailed) => 0 < h <= |rs| && FateOf(m, rs[h - 1], h - 1, o).Unrendered?
    case Some(PushFailed) => 0 < h <= |rs| && var f := FateOf(m, rs[h - 1], h - 1, o); f.Queues? && !f.taken
    case _ => false
  }

  /** The first n recipients' run: a prefix is handled, one after another, and it ends where a fate says so. */
  ghost predicate Prefix(m: TxMessage, rs: seq<Recipient>, o: Outside, n: nat, p: Progress)
    requires n <= |rs|
  {
    && |p.log| <= n && Stopped(m, rs[..n], o, |p.log|, p.stop)
    && (forall k :: 0 <= k < |p.log| - 1 ==> GoesOn(FateOf(m, rs[k], k, o)))
    && (p.stop.None? && n > 0 ==> GoesOn(FateOf(m, rs[n - 1], n - 1, o)))
    && (p.stop == Some(LookupFailed) && |p.log| > 0 ==> GoesOn(FateOf(m, rs[|p.log| - 1], |p.log| - 1, o)))
  }

  ghost predicate EachLogged(m: TxMessage, rs: seq<Recipient>, o: Outside, p: Progress)
    requires |p.log| <= |rs|
  {
    forall k :: 0 <= k < |p.log| ==>
      (p.log[k].Some? <==> o.create(k).Some?) && (p.log[k].Some? ==> EntryFor(p.log[k].value, m, rs[k], k, o))
  }

  /** What one step adds, by the fate of the request as it came. */
  lemma StepShape(m: TxMessage, rs: seq<Recipient>, o: Outside, attachments: seq<string>, n: nat, p: Progress)
    requires n < |rs| && p.stop.None? && p.m == m.(subject := p.m.subject, altBody := p.m.altBody)
    ensures var q := Step(p, rs[n], n, o, attachments); var f := FateOf(m, rs[n], n, o);
      && (f.Breaks? ==> q == p.(stop := Some(LookupFailed)))
      && (!f.Breaks? ==>
            && |q.log| == |p.log| + 1 && q.log[..|p.log|] == p.log
            && (q.log[|p.log|].Some? <==> o.create(n).Some?)
            && (q.log[|p.log|].Some? ==> EntryFor(q.log[|p.log|].value, m, rs[n], n, o))
            && q.handed == p.handed + (if f.Queues? then [HandedFor(n, f, o)] else [])
            && (GoesOn(f) <==> q.stop.None?)
            && (q.stop.None? || (q.stop == Some(RenderFailed) && f.Unrendered?)
                || (q.stop == Some(PushFailed) && f.Queues? && !f.taken)))
  {
  }

  lemma LogGrows(m: TxMessage, rs: seq<Recipient>, o: Outside, p: Progress, q: Progress)
    requires |q.log| == |p.log| + 1 <= |rs| && q.log[..|p.log|] == p.log && EachLogged(m, rs, o, p)
    requires var n := |p.log|;
      (q.log[n].Some? <==> o.create(n).Some?) && (q.log[n].Some? ==> EntryFor(q.log[n].value, m, rs[n], n, o))
    ensures EachLogged(m, rs, o, q)
  {
  }

  lemma StepLogged(m: TxMessage, rs: seq<Recipient>, o: Outside, attachments: seq<string>, n: nat, p: Progress)
    requires n < |rs| && p.stop.None? && |p.log| == n && p.m == m.(subject := p.m.subject, altBody := p.m.altBody)
    requires EachLogged(m, rs, o, p) && p.handed == HandedUpTo(m, rs, o, n)
    ensures var q := Step(p, rs[n], n, o, attachments);
      |q.log| <= |rs| && EachLogged(m, rs, o, q) && q.handed == HandedUpTo(m, rs, o, |q.log|)
  {
    StepShape(m, rs, o, attachments, n, p);
    hide FateOf, Step, EntryFor, HandedFor, GoesOn, EachLogged;
    var q := Step(p, rs[n], n, o, attachments);
    if FateOf(m, rs[n], n, o).Breaks? {
      SameLog(m, rs, o, p, q);
    } else {
      LogGrows(m, rs, o, p, q);
    }
  }

  lemma SameLog(m: TxMessage, rs: seq<Recipient>, o: Outside, p: Progress, q: Progress)
    requires q.log == p.log && |p.log| <= |rs| && EachLogged(m, rs, o, p)
    ensures EachLogged(m, rs, o, q)
  {
  }

  ghost predicate Accounted(m: TxMessage, rs: seq<Recipient>, o: Outside, n: nat, p: Progress)
    requires n <= |rs|
  {
    |p.log| <= n && EachLogged(m, rs, o, p) && p.handed == HandedUpTo(m, rs, o, |p.log|) && Prefix(m, rs, o, n, p)
  }

  lemma StepAccounted(m: TxMessage, rs: seq<Recipient>, o: Outside, attachments: seq<string>, n: nat, p: Progress)
    requires n < |rs| && p.stop.None? && p.m == m.(subject := p.m.subject, altBody := p.m.altBody)
    requires Accounted(m, rs, o, n, p)
    ensures Accounted(m, rs, o, n + 1, Step(p, rs[n], n, o, attachments))
  {
    hide FateOf, EachLogged, HandedUpTo, Step;
    assert |p.log| == n;
    StepLogged(m, rs, o, attachments, n, p);
    StepPrefix(m, rs, o, attachments, n, p);
  }

  lemma NothingAccounted(m: TxMessage, rs: seq<Recipient>, o: Outside)
    ensures Accounted(m, rs, o, 0, Progress(m, [], [], false, None))
  {
  }

  /**
   The recipients handled before the send stops are a prefix of the request in
   order; each has its one entry, for it and nobody else, as long as the log can
   be written; and the messages handed over are those of the queued, in order.
   */
  lemma {:induction false} Accounting(m: TxMessage, rs: seq<Recipient>, o: Outside, attachments: seq<string>, n: nat)
    requires n <= |rs|
    ensures Accounted(m, rs, o, n, RunTo(m, rs, o, attachments, n))
  {
    hide Accounted, FateOf, Step;
    if n > 0 {
      Accounting(m, rs, o, attachments, n - 1);
      OnlyRendered(m, rs, o, attachments, n - 1);
      var p := RunTo(m, rs, o, attachments, n - 1);
      if p.stop.None? {
        StepAccounted(m, rs, o, attachments, n - 1, p);
      } else {
        StillStopped(m, rs, o, n - 1, p);
      }
    } else {
      NothingAccounted(m, rs, o);
    }
  }

  lemma StepStops(m: TxMessage, rs: seq<Recipient>, o: Outside, attachments: seq<string>, n: nat, p: Progress)
    requires n < |rs| && p.stop.None? && |p.log| == n && p.m == m.(subject := p.m.subject, altBody := p.m.altBody)
    ensures var q := Step(p, rs[n], n, o, attachments); Stopped(m, rs[..n + 1], o, |q.log|, q.stop)
  {
    StepShape(m, rs, o, attachments, n, p);
    hide FateOf, Step, EntryFor, HandedFor, GoesOn;
    assert rs[..n + 1][n] == rs[n];
  }

  lemma StepPrefix(m: TxMessage, rs: seq<Recipient>, o: Outside, attachments: seq<string>, n: nat, p: Progress)
    requires n < |rs| && p.stop.None? && |p.log| == n && p.m == m.(subject := p.m.subject, altBody := p.m.altBody)
    requires Prefix(m, rs, o, n, p)
    ensures |Step(p, rs[n], n, o, attachments).log| <= n + 1
      && Prefix(m, rs, o, n + 1, Step(p, rs[n], n, o, attachments))
  {
    StepShape(m, rs, o, attachments, n, p);
    StepStops(m, rs, o, attachments, n, p);
    hide FateOf, Step, EntryFor, HandedFor, GoesOn, Stopped;
  }

  lemma StillStopped(m: TxMessage, rs: seq<Recipient>, o: Outside, n: nat, p: Progress)
    requires n < |rs| && p.stop.Some? && Accounted(m, rs, o, n, p)
    ensures Accounted(m, rs, o, n + 1, p)
  {
  }

  predicate LogWorks(o: Outside, n: nat) {
    && (forall k: nat :: k < n ==> o.create(k).Some? && o.create(k).value != 0)
    && (forall j: nat, k: nat :: j < k < n ==> o.create(j) != o.create(k))
  }

  /** Without a template every recipient's record, named as the request names it, is of a failure. */
  ghost predicate FailedAs(m: TxMessage, o: Outside, attachments: seq<string>, log: seq<Option<Entry>>) {
    && |log| == Addressees(m)
    && (forall k :: 0 <= k < |log| ==> (log[k].Some? <==> o.create(k).Some?))
    && (forall k :: 0 <= k < |log| && log[k].Some? ==>
          var e := log[k].value;
          && o.create(k) == Some(e.row) && e.uuid == o.uuid(k) && !e.queued && e.subscriberID == 0
          && e.recipient == (if m.ids != [] then IDLabel(m.ids[k]) else m.emails[k])
          && RecordOf(m, attachments, k, e.recipient, e.payload)
          && (e.payload.subject, e.payload.altBody) == (m.subject, m.altBody))
  }

  lemma {:induction false} WithoutTemplateAt(m: TxMessage, rs: seq<Recipient>, o: Outside, attachments: seq<string>,
                                             n: nat, k: nat)
    requires k < n <= |rs|
    ensures var log := WithoutTemplate(m, rs, o, attachments, n);
      |log| == n && log[k] == Logged(m, rs[k], k, Fails(rs[k].name, 0), o, attachments)
  {
    if n > 1 {
      WithoutTemplateAt(m, rs, o, attachments, n - 1, if k < n - 1 then k else 0);
    }
  }

  lemma WithoutTemplateFailed(m: TxMessage, o: Outside, attachments: seq<string>)
    ensures FailedAs(m, o, attachments, WithoutTemplate(m, Recipients(m), o, attachments, |Recipients(m)|))
  {
    forall k | 0 <= k < |Recipients(m)|
      ensures var log := WithoutTemplate(m, Recipients(m), o, attachments, |Recipients(m)|);
        |log| == |Recipients(m)|
        && log[k] == Logged(m, Recipients(m)[k], k, Fails(Recipients(m)[k].name, 0), o, attachments)
    {
      WithoutTemplateAt(m, Recipients(m), o, attachments, |Recipients(m)|, k);
    }
    hide WithoutTemplate, IDLabel;
  }

  /** How many of the first k records could be written. */
  function Written(log: seq<Option<Entry>>, k: nat): nat
    requires k <= |log|
  {
    if k == 0 then 0 else Written(log, k - 1) + if log[k - 1].Some? then 1 else 0
  }

  lemma {:induction false} WrittenAgree(a: seq<Option<Entry>>, b: seq<Option<Entry>>, k: nat)
    requires k <= |a| && k <= |b| && a[..k] == b[..k]
    ensures Written(a, k) == Written(b, k)
  {
    if k > 0 {
      assert a[..k][..k - 1] == a[..k - 1] && b[..k][..k - 1] == b[..k - 1];
      assert a[..k][k - 1] == b[..k][k - 1];
      WrittenAgree(a, b, k - 1);
    }
  }

  /** The entries are the records that could be written, in order, and nothing else. */
  lemma {:induction false} EntriesExact(log: seq<Option<Entry>>)
    ensures |Entries(log)| == Written(log, |log|)
    ensures forall k :: 0 <= k < |log| && log[k].Some? ==>
      Written(log, k) < |Entries(log)| && Entries(log)[Written(log, k)] == log[k].value
  {
    if log != [] {
      var n := |log| - 1;
      EntriesExact(log[..n]);
      WrittenAgree(log, log[..n], n);
      forall k | 0 <= k < n && log[k].Some?
        ensures Written(log, k) < |Entries(log)| && Entries(log)[Written(log, k)] == log[k].value
      {
        assert log[..n][k] == log[k] && log[..k] == log[..n][..k];
        WrittenAgree(log, log[..n], k);
      }
    }
  }

  /** With the log working, the entries are the handled recipients', and the returned identifiers list them in order. */
  lemma {:induction false} EntriesInOrder(log: seq<Option<Entry>>)
    requires forall k :: 0 <= k < |log| ==> log[k].Some?
    ensures |Entries(log)| == |log| && forall k :: 0 <= k < |log| ==> Entries(log)[k] == log[k].value
  {
    if log != [] {
      EntriesInOrder(log[..|log| - 1]);
    }
  }

  /** h is the message to the recipient at k. */
  ghost predicate HandsOverAt(m: TxMessage, rs: seq<Recipient>, o: Outside, k: nat, h: Handed)
    requires k < |rs|
  {
    FateOf(m, rs[k], k, o).Queues? && h == HandedFor(k, FateOf(m, rs[k], k, o), o)
  }

  lemma {:induction false} HandedMembers(m: TxMessage, rs: seq<Recipient>, o: Outside, n: nat, h: Handed)
    requires n <= |rs|
    ensures h in HandedUpTo(m, rs, o, n) <==> exists k :: 0 <= k < n && HandsOverAt(m, rs, o, k, h)
  {
    if n > 0 {
      hide FateOf, HandedFor;
      HandedMembers(m, rs, o, n - 1, h);
      assert h in HandedUpTo(m, rs, o, n) <==> h in HandedUpTo(m, rs, o, n - 1) || HandsOverAt(m, rs, o, n - 1, h);
    }
  }

  lemma RowHanded(m: TxMessage, rs: seq<Recipient>, o: Outside, n: nat, k: nat, row: int)
    requires k < n <= |rs| && LogWorks(o, |rs|) && o.create(k) == Some(row)
    ensures FateOf(m, rs[k], k, o).Queues? <==> exists h :: h in HandedUpTo(m, rs, o, n) && h.row == row
  {
    hide FateOf, HandedUpTo;
    var f := FateOf(m, rs[k], k, o);
    if f.Queues? {
      HandedMembers(m, rs, o, n, HandedFor(k, f, o));
      assert HandsOverAt(m, rs, o, k, HandedFor(k, f, o));
      assert HandedFor(k, f, o) in HandedUpTo(m, rs, o, n);
    }
    if h :| h in HandedUpTo(m, rs, o, n) && h.row == row {
      HandedMembers(m, rs, o, n, h);
      var j :| 0 <= j < n && HandsOverAt(m, rs, o, j, h);
      assert o.create(j) == o.create(k);
      assert j == k;
    }
  }

  /** An entry is queued exactly when a message carrying its row was handed to the manager. */
  lemma QueuedIffHanded(m: TxMessage, rs: seq<Recipient>, o: Outside, attachments: seq<string>, k: nat)
    requires LogWorks(o, |rs|) && k < |RunTo(m, rs, o, attachments, |rs|).log|
    ensures var p := RunTo(m, rs, o, attachments, |rs|);
      && p.log[k].Some? && |p.log| <= |rs|
      && |Entries(p.log)| == |p.log| && Entries(p.log)[k] == p.log[k].value
      && UUIDs(Entries(p.log))[k] == o.uuid(k) && EntryFor(p.log[k].value, m, rs[k], k, o)
      && (p.log[k].value.queued <==> exists h :: h in p.handed && h.row == p.log[k].value.row)
  {
    var p := RunTo(m, rs, o, attachments, |rs|);
    Accounting(m, rs, o, attachments, |rs|);
    hide FateOf, RunTo, Entries, HandedUpTo, Prefix;
    EntriesInOrder(p.log);
    RowHanded(m, rs, o, |p.log|, k, o.create(k).value);
  }

  /** A message to the recipient at k: somebody is there to send it to, and it can be rendered. */
  predicate Sends(m: TxMessage, o: Outside, k: nat) {
    o.render(k).Some? &&
    (m.mode == EXTERNAL || o.lookup(k).Found? || (o.lookup(k).Missing? && m.mode == FALLBACK))
  }

  /** Nobody is found, and nobody is made up. */
  predicate Unknown(m: TxMessage, o: Outside, k: nat) {
    m.mode != EXTERNAL && m.mode != FALLBACK && o.lookup(k).Missing?
  }

  /** Subject and plain text after k recipients: those of the last message rendered, or the request's. */
  function Texts(m: TxMessage, o: Outside, k: nat): (string, string) {
    if k == 0 then (m.subject, m.altBody)
    else if Sends(m, o, k - 1) then o.render(k - 1).value
    else Texts(m, o, k - 1)
  }

  function SentBefore(m: TxMessage, o: Outside, k: nat): nat {
    if k == 0 then 0 else SentBefore(m, o, k - 1) + if Sends(m, o, k - 1) then 1 else 0
  }

  function Addressees(m: TxMessage): nat {
    if m.ids != [] then |m.ids| else |m.emails|
  }

  /** Whom a message or record is for: who was found, or else the address asked for. */
  ghost predicate For(m: TxMessage, o: Outside, k: nat, recipient: string)
    requires k < Addressees(m)
  {
    recipient ==
      if m.mode != EXTERNAL && o.lookup(k).Found? then o.lookup(k).email
      else if m.ids == [] && (m.emails[k] != "" || !Unknown(m, o, k)) then m.emails[k]
      else if Unknown(m, o, k) then IDLabel(if m.ids != [] then m.ids[k] else 0)
      else ""
  }

  /** The request as it stands in the record of the recipient at k: to that recipient alone. */
  ghost predicate RecordOf(m: TxMessage, attachments: seq<string>, k: nat, recipient: string, p: Payload)
    requires k < Addressees(m)
  {
    && p.id == (if m.ids != [] && m.ids[k] > 0 then m.ids[k] else 0)
    && p.email == (if p.id > 0 then "" else recipient)
    && p.mode == m.mode && p.templateID == m.templateID && p.data == m.data && p.fromEmail == m.fromEmail
    && p.headers == m.headers && p.contentType == m.contentType && p.messenger == m.messenger
    && p.attachments == attachments
  }

  /** The record of the recipient at k, in terms of the request and the answers from outside. */
  ghost predicate RecordedAs(m: TxMessage, o: Outside, attachments: seq<string>, k: nat, e: Entry)
    requires k < Addressees(m)
  {
    && o.create(k) == Some(e.row) && e.uuid == o.uuid(k)
    && For(m, o, k, e.recipient)
    && e.subscriberID == (if m.mode != EXTERNAL && o.lookup(k).Found? then o.lookup(k).id else 0)
    && (e.queued <==> Sends(m, o, k))
    && RecordOf(m, attachments, k, e.recipient, e.payload)
    && (e.payload.subject, e.payload.altBody) == Texts(m, o, k + 1)
  }

  /** The message to the recipient at k, which carries the row of its record if there is one. */
  ghost predicate HandedAs(m: TxMessage, o: Outside, k: nat, h: Handed)
    requires k < Addressees(m)
  {
    && For(m, o, k, h.recipient)
    && (h.row, h.uuid) == (if o.create(k).Some? then (o.create(k).value, o.uuid(k)) else (0, ""))
  }

  /** The send stops after h recipients at one whose lookup, rendering or push fails, or reaches the end. */
  ghost predicate EndsAs(m: TxMessage, o: Outside, h: nat, error: Option<TxError>) {
    && h <= Addressees(m)
    && (forall k: nat :: k < h ==> m.mode == EXTERNAL || !o.lookup(k).Broken?)
    && (forall k: nat :: k + 1 < h ==> Unknown(m, o, k) || (Sends(m, o, k) && o.push(k)))
    && match error
       case Some(LookupFailed) =>
         && h < Addressees(m) && m.mode != EXTERNAL && o.lookup(h).Broken?
         && (h > 0 ==> Unknown(m, o, h - 1) || (Sends(m, o, h - 1) && o.push(h - 1)))
       case Some(RenderFailed) => h > 0 && !Unknown(m, o, h - 1) && o.render(h - 1).None?
       case Some(PushFailed) => h > 0 && Sends(m, o, h - 1) && !o.push(h - 1)
       case Some(SubscribersNotFound) =>
         && h == Addressees(m) && (exists k: nat :: k < h && Unknown(m, o, k))
         && (forall k: nat :: k < h ==> Unknown(m, o, k) || (Sends(m, o, k) && o.push(k)))
       case Some(_) => false
       case None => h == Addressees(m) && forall k: nat :: k < h ==> Sends(m, o, k) && o.push(k)
  }

  /**
   A send, in terms of the request and of what the outside answers: the record
   of each recipient handled, None where the log could not be written; the
   messages of those that are sent to, in order; and how it ends.
   */
  ghost predicate SentAs(m: TxMessage, o: Outside, attachments: seq<string>, log: seq<Option<Entry>>,
                         handed: seq<Handed>, error: Option<TxError>) {
    && EndsAs(m, o, |log|, error)
    && (forall k :: 0 <= k < |log| ==> (log[k].Some? <==> o.create(k).Some?))
    && (forall k :: 0 <= k < |log| && log[k].Some? ==> RecordedAs(m, o, attachments, k, log[k].value))
    && |handed| == SentBefore(m, o, |log|)
    && (forall k :: 0 <= k < |log| && Sends(m, o, k) ==>
          SentBefore(m, o, k) < |handed| && HandedAs(m, o, k, handed[SentBefore(m, o, k)]))
  }

  ghost predicate FateIs(m: TxMessage, o: Outside, k: nat, f: Fate) {
    && (f.Breaks? <==> m.mode != EXTERNAL && o.lookup(k).Broken?)
    && (f.Fails? <==> Unknown(m, o, k))
    && (f.Queues? <==> Sends(m, o, k))
    && (f.Unrendered? ==> o.render(k).None?)
    && (f.Queues? ==> f.taken == o.push(k))
  }

  /** What a recipient's fate is, in terms of the request and the answers from outside. */
  lemma FateExact(m: TxMessage, o: Outside, k: nat)
    requires k < |Recipients(m)|
    ensures |Recipients(m)| == Addressees(m)
    ensures var f := FateOf(m, Recipients(m)[k], k, o);
      && FateIs(m, o, k, f)
      && (!f.Breaks? ==>
            && For(m, o, k, f.recipient)
            && f.subscriberID == if m.mode != EXTERNAL && o.lookup(k).Found? then o.lookup(k).id else 0)
  {
    hide IDLabel;
  }

  ghost predicate RecordsFollow(m: TxMessage, o: Outside, attachments: seq<string>, log: seq<Option<Entry>>) {
    && |log| <= Addressees(m)
    && (forall k :: 0 <= k < |log| ==> (log[k].Some? <==> o.create(k).Some?))
    && (forall k :: 0 <= k < |log| && log[k].Some? ==> RecordedAs(m, o, attachments, k, log[k].value))
  }

  ghost predicate MessagesFollow(m: TxMessage, o: Outside, n: nat, handed: seq<Handed>)
    requires n <= Addressees(m)
  {
    && |handed| == SentBefore(m, o, n)
    && (forall k :: 0 <= k < n && Sends(m, o, k) ==>
          SentBefore(m, o, k) < |handed| && HandedAs(m, o, k, handed[SentBefore(m, o, k)]))
  }

  ghost predicate SomeUnknown(m: TxMessage, o: Outside, n: nat) {
    exists k: nat :: k < n && Unknown(m, o, k)
  }

  ghost predicate Follows(m: TxMessage, o: Outside, attachments: seq<string>, p: Progress) {
    && RecordsFollow(m, o, attachments, p.log)
    && MessagesFollow(m, o, |p.log|, p.handed)
    && p.m == m.(subject := Texts(m, o, |p.log|).0, altBody := Texts(m, o, |p.log|).1)
    && (p.missing <==> SomeUnknown(m, o, |p.log|))
  }

  lemma RecordsGrow(m: TxMessage, o: Outside, attachments: seq<string>, log: seq<Option<Entry>>, e: Option<Entry>)
    requires RecordsFollow(m, o, attachments, log) && |log| < Addressees(m)
    requires e.Some? <==> o.create(|log|).Some?
    requires e.Some? ==> RecordedAs(m, o, attachments, |log|, e.value)
    ensures RecordsFollow(m, o, attachments, log + [e])
  {
    hide RecordedAs;
  }

  lemma {:induction false} SentMonotone(m: TxMessage, o: Outside, k: nat, n: nat)
    requires k < n && Sends(m, o, k)
    ensures SentBefore(m, o, k) < SentBefore(m, o, n)
  {
    hide Sends;
    if k < n - 1 {
      SentMonotone(m, o, k, n - 1);
    }
  }

  lemma MessagesGrow(m: TxMessage, o: Outside, n: nat, handed: seq<Handed>, h: Handed)
    requires n < Addressees(m) && MessagesFollow(m, o, n, handed)
    requires Sends(m, o, n) ==> HandedAs(m, o, n, h)
    ensures MessagesFollow(m, o, n + 1, if Sends(m, o, n) then handed + [h] else handed)
  {
    hide HandedAs, Sends;
    var more := if Sends(m, o, n) then handed + [h] else handed;
    forall k | 0 <= k < n && Sends(m, o, k)
      ensures SentBefore(m, o, k) < |more| && HandedAs(m, o, k, more[SentBefore(m, o, k)])
    {
      SentMonotone(m, o, k, n);
    }
  }

  lemma UnknownGrows(m: TxMessage, o: Outside, n: nat)
    ensures SomeUnknown(m, o, n + 1) <==> SomeUnknown(m, o, n) || Unknown(m, o, n)
  {
    hide Unknown;
  }

  /** One recipient's record, message and texts. */
  lemma StepRecords(m: TxMessage, o: Outside, attachments: seq<string>, p: Progress)
    requires |p.log| < |Recipients(m)|
    requires p.m == m.(subject := Texts(m, o, |p.log|).0, altBody := Texts(m, o, |p.log|).1)
    ensures |Recipients(m)| == Addressees(m)
    ensures var n := |p.log|;
      var r := Recipients(m)[n];
      var q := Step(p, r, n, o, attachments);
      && (q.stop == Some(LookupFailed) ==> q == p.(stop := q.stop))
      && (q.stop != Some(LookupFailed) ==>
            && |q.log| == n + 1 && q.log == p.log + [q.log[n]]
            && (q.log[n].Some? <==> o.create(n).Some?)
            && (q.log[n].Some? ==> RecordedAs(m, o, attachments, n, q.log[n].value))
            && (if Sends(m, o, n)
                then |q.handed| == |p.handed| + 1 && q.handed == p.handed + [q.handed[|p.handed|]]
                     && HandedAs(m, o, n, q.handed[|p.handed|])
                else q.handed == p.handed)
            && q.m == m.(subject := Texts(m, o, n + 1).0, altBody := Texts(m, o, n + 1).1)
            && q.missing == (p.missing || Unknown(m, o, n)))
  {
    var n := |p.log|;
    FateExact(m, o, n);
    assert FateOf(p.m, Recipients(m)[n], n, o) == FateOf(m, Recipients(m)[n], n, o) by { hide IDLabel; }
    RecipientIDs(m, n);
    hide FateOf, Recipients, IDLabel, For;
  }

  lemma RecipientIDs(m: TxMessage, k: nat)
    requires k < |Recipients(m)|
    ensures Recipients(m)[k].id == if m.ids != [] then m.ids[k] else 0
  {
  }

  lemma StepFollows(m: TxMessage, o: Outside, attachments: seq<string>, p: Progress)
    requires |p.log| < |Recipients(m)| && Follows(m, o, attachments, p)
    ensures Follows(m, o, attachments, Step(p, Recipients(m)[|p.log|], |p.log|, o, attachments))
  {
    var n := |p.log|;
    StepRecords(m, o, attachments, p);
    UnknownGrows(m, o, n);
    hide FateOf, Step, RecordedAs, HandedAs, Unknown, Texts;
    var q := Step(p, Recipients(m)[n], n, o, attachments);
    if q.stop != Some(LookupFailed) {
      RecordsGrow(m, o, attachments, p.log, q.log[n]);
      MessagesGrow(m, o, n, p.handed, if Sends(m, o, n) then q.handed[|p.handed|] else Handed("", 0, ""));
    }
  }

  lemma NothingFollows(m: TxMessage, o: Outside, attachments: seq<string>)
    ensures Follows(m, o, attachments, Progress(m, [], [], false, None))
  {
  }

  lemma {:induction false} RunFollows(m: TxMessage, o: Outside, attachments: seq<string>, n: nat)
    requires n <= |Recipients(m)|
    ensures Follows(m, o, attachments, RunTo(m, Recipients(m), o, attachments, n))
  {
    hide Follows, Step, Recipients;
    if n > 0 {
      RunFollows(m, o, attachments, n - 1);
      var p := RunTo(m, Recipients(m), o, attachments, n - 1);
      if p.stop.None? {
        GoesOnAll(m, Recipients(m), o, attachments, n - 1);
        StepFollows(m, o, attachments, p);
      }
    } else {
      NothingFollows(m, o, attachments);
    }
  }

  lemma GoesOnAll(m: TxMessage, rs: seq<Recipient>, o: Outside, attachments: seq<string>, n: nat)
    requires n <= |rs| && RunTo(m, rs, o, attachments, n).stop.None?
    ensures |RunTo(m, rs, o, attachments, n).log| == n
  {
    Accounting(m, rs, o, attachments, n);
  }

  lemma HandledOn(m: TxMessage, o: Outside, p: Progress)
    requires var rs := Recipients(m); |rs| == Addressees(m) && Prefix(m, rs, o, |rs|, p)
    requires forall k: nat :: k < Addressees(m) ==> FateIs(m, o, k, FateOf(m, Recipients(m)[k], k, o))
    ensures forall k: nat :: k + 1 < |p.log| ==> Unknown(m, o, k) || (Sends(m, o, k) && o.push(k))
    ensures p.stop.None? || p.stop == Some(LookupFailed) ==>
      forall k: nat :: k < |p.log| ==> Unknown(m, o, k) || (Sends(m, o, k) && o.push(k))
    ensures forall k: nat :: k < |p.log| ==> m.mode == EXTERNAL || !o.lookup(k).Broken?
  {
    var rs := Recipients(m);
    hide FateOf, Recipients, Sends, Unknown;
    assert rs[..|rs|] == rs;
    forall k: nat | k < |p.log|
      ensures k + 1 < |p.log| || p.stop.None? || p.stop == Some(LookupFailed) ==>
        Unknown(m, o, k) || (Sends(m, o, k) && o.push(k))
      ensures m.mode == EXTERNAL || !o.lookup(k).Broken?
    {
      assert FateIs(m, o, k, FateOf(m, rs[k], k, o));
    }
  }

  lemma RunEnds(m: TxMessage, o: Outside, attachments: seq<string>)
    ensures var p := RunTo(m, Recipients(m), o, attachments, |Recipients(m)|);
      EndsAs(m, o, |p.log|, Verdict(p))
  {
    var rs := Recipients(m);
    var p := RunTo(m, rs, o, attachments, |rs|);
    Accounting(m, rs, o, attachments, |rs|);
    RunFollows(m, o, attachments, |rs|);
    assert |rs| == Addressees(m);
    forall k: nat | k < |rs| ensures FateIs(m, o, k, FateOf(m, rs[k], k, o)) {
      FateExact(m, o, k);
    }
    HandledOn(m, o, p);
    hide FateOf, Recipients, RunTo, Sends, Unknown, Accounted, Follows, GoesOn;
    assert rs[..|rs|] == rs;
    if p.stop.None? {
      EndsWhole(m, o, p);
    } else {
      var h := if p.stop == Some(LookupFailed) then |p.log| else |p.log| - 1;
      assert Stopped(m, rs, o, |p.log|, p.stop);
      assert FateIs(m, o, h, FateOf(m, rs[h], h, o));
      StoppedShort(m, o, p, FateOf(m, rs[h], h, o));
    }
  }

  lemma EndsWhole(m: TxMessage, o: Outside, p: Progress)
    requires p.stop.None? && |p.log| == Addressees(m) && (p.missing <==> SomeUnknown(m, o, |p.log|))
    requires forall k: nat :: k < |p.log| ==> Unknown(m, o, k) || (Sends(m, o, k) && o.push(k))
    requires forall k: nat :: k < |p.log| ==> m.mode == EXTERNAL || !o.lookup(k).Broken?
    ensures EndsAs(m, o, |p.log|, Verdict(p))
  {
    hide Sends, Unknown;
  }

  lemma StoppedShort(m: TxMessage, o: Outside, p: Progress, f: Fate)
    requires |p.log| <= Addressees(m)
    requires forall k: nat :: k < |p.log| ==> m.mode == EXTERNAL || !o.lookup(k).Broken?
    requires forall k: nat :: k + 1 < |p.log| ==> Unknown(m, o, k) || (Sends(m, o, k) && o.push(k))
    requires match p.stop
      case Some(LookupFailed) =>
        && |p.log| < Addressees(m) && f.Breaks? && FateIs(m, o, |p.log|, f)
        && (|p.log| > 0 ==> Unknown(m, o, |p.log| - 1) || (Sends(m, o, |p.log| - 1) && o.push(|p.log| - 1)))
      case Some(RenderFailed) => |p.log| > 0 && f.Unrendered? && FateIs(m, o, |p.log| - 1, f)
      case Some(PushFailed) => |p.log| > 0 && f.Queues? && !f.taken && FateIs(m, o, |p.log| - 1, f)
      case _ => false
    ensures EndsAs(m, o, |p.log|, Verdict(p))
  {
    hide Sends, Unknown;
  }

  /** Every send is as the request and the answers from outside have it. */
  lemma RunSentAs(m: TxMessage, o: Outside, attachments: seq<string>)
    ensures var p := RunTo(m, Recipients(m), o, attachments, |Recipients(m)|);
      SentAs(m, o, attachments, p.log, p.handed, Verdict(p))
  {
    RunFollows(m, o, attachments, |Recipients(m)|);
    RunEnds(m, o, attachments);
    hide RunTo, Recipients, EndsAs, Verdict, RecordedAs, HandedAs, Sends;
  }
}
