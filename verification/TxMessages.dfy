/**
 Transactional requests: their validation, their recipients, and the record of
 one recipient's message that can be decoded and sent again.
 */
module TxMessages {
  import opened Wrappers

  const EMAIL_MESSENGER: string := "email"
  const DEFAULT: string := "default"
  const FALLBACK: string := "fallback"
  const EXTERNAL: string := "external"

  type Headers = seq<map<string, string>>

  /** Arbitrary template data, each value as its JSON text; None is null. */
  type Data = Option<map<string, string>>

  datatype TxMessage = TxMessage(
    mode: string, emails: seq<string>, ids: seq<int>, email: string, id: int,
    templateID: int, data: Data, fromEmail: string, headers: Headers, contentType: string, messenger: string,
    subject: string, altBody: string)

  datatype TxError =
    | EmailTwice | IDTwice | NeedOneKind | IDsNotAllowed | NeedEmails | BadMode | NoImporter | BadEmail | NoMessenger
    | TemplateNotFound | LookupFailed | RenderFailed | PushFailed | SubscribersNotFound

  /** The world a request is checked against: fixed answers. */
  datatype Env = Env(
    importer: bool, sanitize: string -> Option<string>, tenantFrom: string, hasMessenger: string -> bool)

  function AllEmails(m: TxMessage): seq<string> {
    m.emails + if m.email != "" then [m.email] else []
  }

  function AllIDs(m: TxMessage): seq<int> {
    m.ids + if m.id != 0 then [m.id] else []
  }

  function ModeOf(m: TxMessage): string {
    if m.mode == "" then DEFAULT else m.mode
  }

  /** Who may be addressed how. */
  predicate AddressedRight(mode: string, emails: seq<string>, ids: seq<int>) {
    if mode == DEFAULT then (emails == []) != (ids == [])
    else (mode == FALLBACK || mode == EXTERNAL) && ids == [] && emails != []
  }

  predicate Sanitary(env: Env, emails: seq<string>) {
    forall k :: 0 <= k < |emails| && emails[k] != "" ==> env.sanitize(emails[k]).Some?
  }

  function Sanitized(env: Env, email: string): string {
    if email != "" && env.sanitize(email).Some? then env.sanitize(email).value else email
  }

  function AllSanitized(env: Env, emails: seq<string>): seq<string> {
    seq(|emails|, k requires 0 <= k < |emails| => Sanitized(env, emails[k]))
  }

  predicate Valid(env: Env, m: TxMessage) {
    && (m.emails == [] || m.email == "") && (m.ids == [] || m.id == 0)
    && AddressedRight(ModeOf(m), AllEmails(m), AllIDs(m))
    && env.importer && Sanitary(env, AllEmails(m))
    && (m.messenger == "" || env.hasMessenger(m.messenger))
  }

  function Validated(env: Env, m: TxMessage): TxMessage {
    m.(mode := ModeOf(m), emails := AllSanitized(env, AllEmails(m)), ids := AllIDs(m),
       fromEmail := if m.fromEmail == "" then env.tenantFrom else m.fromEmail,
       messenger := if m.messenger == "" then EMAIL_MESSENGER else m.messenger)
  }

  /** Each address replaced by its checked form; None when one is refused. Empty ones are let through. */
  method SanitizeEmails(env: Env, given: seq<string>) returns (r: Option<seq<string>>)
    ensures r.Some? <==> Sanitary(env, given)
    ensures r.Some? ==> r.value == AllSanitized(env, given)
  {
    var emails := given;
    for n := 0 to |emails|
      invariant |emails| == |given|
      invariant forall k :: 0 <= k < n ==> emails[k] == Sanitized(env, given[k])
                                                 && (given[k] != "" ==> env.sanitize(given[k]).Some?)
      invariant forall k :: n <= k < |given| ==> emails[k] == given[k]
    {
      if emails[n] != "" {
        var em := env.sanitize(emails[n]);
        if em.None? {
          return None;
        }
        emails := emails[n := em.value];
      }
    }
    return Some(emails);
  }

  lemma SanitaryExact(env: Env, req: TxMessage)
    ensures Sanitary(env, AllEmails(req)) <==>
      forall e :: (e in req.emails || e == req.email) && e != "" ==> env.sanitize(e).Some?
  {
    var all := AllEmails(req);
    forall e | e != "" ensures e in all <==> e in req.emails || e == req.email {}
    if Sanitary(env, all) {
      forall e | e in all && e != "" ensures env.sanitize(e).Some? {
        var k :| 0 <= k < |all| && all[k] == e;
      }
    }
  }

  /**
   A request is accepted exactly when each kind of addressee is given in one
   form, it has addressees of one kind, identifiers only in default mode, every
   address is acceptable and its messenger is there.
   */
  lemma ValidExact(env: Env, req: TxMessage)
    ensures Valid(env, req) <==>
      var emailed, named := req.emails != [] || req.email != "", req.ids != [] || req.id != 0;
      && (req.emails == [] || req.email == "") && (req.ids == [] || req.id == 0)
      && req.mode in {"", DEFAULT, FALLBACK, EXTERNAL}
      && emailed != named && (named ==> req.mode in {"", DEFAULT})
      && env.importer && (req.messenger == "" || env.hasMessenger(req.messenger))
      && forall e :: (e in req.emails || e == req.email) && e != "" ==> env.sanitize(e).Some?
  {
    SanitaryExact(env, req);
  }

  /** Then its lists are those of all addressees, and what is missing is filled in. */
  lemma ValidatedExact(env: Env, req: TxMessage)
    requires Valid(env, req)
    ensures
      var v := Validated(env, req);
      var given := if req.email == "" then req.emails else [req.email];
      && |v.emails| == |given|
      && (forall k :: 0 <= k < |given| ==>
            if given[k] == "" then v.emails[k] == "" else env.sanitize(given[k]) == Some(v.emails[k]))
      && v.ids == (if req.id == 0 then req.ids else [req.id])
      && v.mode == (if req.mode == "" then DEFAULT else req.mode)
      && v.fromEmail == (if req.fromEmail == "" then env.tenantFrom else req.fromEmail)
      && v.messenger == (if req.messenger == "" then EMAIL_MESSENGER else req.messenger)
      && v == req.(mode := v.mode, emails := v.emails, ids := v.ids, fromEmail := v.fromEmail,
                   messenger := v.messenger)
  {
    assert AllEmails(req) == if req.email == "" then req.emails else [req.email];
  }

  method ValidateTxMessage(env: Env, req: TxMessage) returns (r: Result<TxMessage, TxError>)
    ensures r.Ok? <==> Valid(env, req)
    ensures r.Ok? ==> r.value == Validated(env, req)
    ensures r == Err(EmailTwice) <==> req.emails != [] && req.email != ""
    ensures r == Err(BadMode) ==> ModeOf(req) != DEFAULT && ModeOf(req) != FALLBACK && ModeOf(req) != EXTERNAL
    ensures r == Err(BadEmail) ==> !Sanitary(env, AllEmails(req))
    ensures r == Err(NoMessenger) <==> !Valid(env, req) && Valid(env, req.(messenger := ""))
  {
    var m := req;
    if |m.emails| > 0 && m.email != "" {
      return Err(EmailTwice);
    }
    if |m.ids| > 0 && m.id != 0 {
      return Err(IDTwice);
    }
    if m.email != "" {
      m := m.(emails := m.emails + [m.email]);
    }
    if m.id != 0 {
      m := m.(ids := m.ids + [m.id]);
    }
    if m.mode == "" {
      m := m.(mode := DEFAULT);
    }
    if m.mode == DEFAULT {
      if (|m.emails| == 0 && |m.ids| == 0) || (|m.emails| > 0 && |m.ids| > 0) {
        return Err(NeedOneKind);
      }
    } else if m.mode == FALLBACK || m.mode == EXTERNAL {
      if |m.ids| > 0 {
        return Err(IDsNotAllowed);
      }
      if |m.emails| == 0 {
        return Err(NeedEmails);
      }
    } else {
      return Err(BadMode);
    }
    if !env.importer {
      return Err(NoImporter);
    }
    assert m.emails == AllEmails(req) && m.ids == AllIDs(req) && m.mode == ModeOf(req);
    var emails := SanitizeEmails(env, m.emails);
    if emails.None? {
      return Err(BadEmail);
    }
    m := m.(emails := emails.value);
    if m.fromEmail == "" {
      m := m.(fromEmail := env.tenantFrom);
    }
    if m.messenger == "" {
      m := m.(messenger := EMAIL_MESSENGER);
    } else if !env.hasMessenger(m.messenger) {
      return Err(NoMessenger);
    }
    return Ok(m);
  }

  /** An addressee as the message log names it: the e-mail, or a hash sign and the identifier. */
  datatype Recipient = Recipient(name: string, id: int)

  function Digits(n: nat): string {
    if n < 10 then [('0' as int + n) as char] else Digits(n / 10) + Digits(n % 10)
  }

  function IDLabel(id: int): string {
    "#" + if id < 0 then "-" + Digits(-id) else Digits(id)
  }

  /** The number a text of decimal digits stands for. */
  function NumberOf(digits: string): nat
    requires forall k :: 0 <= k < |digits| ==> '0' <= digits[k] <= '9'
  {
    if digits == "" then 0
    else 10 * NumberOf(digits[..|digits| - 1]) + (digits[|digits| - 1] as int - '0' as int)
  }

  /** The digits are the number in decimal, without leading zeros. */
  lemma {:induction false} DigitsExact(n: nat)
    ensures var s := Digits(n);
      && s != "" && (forall k :: 0 <= k < |s| ==> '0' <= s[k] <= '9')
      && NumberOf(s) == n && (s[0] == '0' ==> s == "0")
  {
    if n >= 10 {
      DigitsExact(n / 10);
      var s := Digits(n);
      assert s[..|s| - 1] == Digits(n / 10);
      assert Digits(n % 10) == [('0' as int + n % 10) as char];
    }
  }

  /** Below zero there is a minus sign between the hash sign and the digits. */
  lemma LabelExact(id: int)
    ensures IDLabel(id) == if id >= 0 then "#" + Digits(id) else "#-" + Digits(-id)
  {
    assert "#" + ("-" + Digits(if id < 0 then -id else 0)) == "#-" + Digits(if id < 0 then -id else 0);
  }

  /** Identifiers win when a request has both. */
  function Recipients(m: TxMessage): seq<Recipient> {
    if m.ids != [] then seq(|m.ids|, k requires 0 <= k < |m.ids| => Recipient(IDLabel(m.ids[k]), m.ids[k]))
    else seq(|m.emails|, k requires 0 <= k < |m.emails| => Recipient(m.emails[k], 0))
  }

  /** What is kept of one recipient's request. attachments are names only. */
  datatype Payload = Payload(
    mode: string, email: string, id: int, templateID: int, data: Data, fromEmail: string, headers: Headers,
    contentType: string, messenger: string, subject: string, altBody: string, attachments: seq<string>)

  /** subID is positive when the request named one; email is that of the subscriber found. */
  function PayloadOf(m: TxMessage, email: string, subID: int, attachments: seq<string>): Payload {
    Payload(m.mode, if subID > 0 then "" else email, if subID > 0 then subID else 0, m.templateID, m.data, m.fromEmail,
            m.headers, m.contentType, m.messenger, m.subject, m.altBody, attachments)
  }

  datatype Json = Str(text: string) | Num(n: int) | Obj(data: Data) | HeaderList(headers: Headers)
                | Strs(texts: seq<string>) | Nums(ns: seq<int>)

  type Object = map<string, Json>

  function NonEmpty(text: string): Option<Json> {
    if text == "" then None else Some(Str(text))
  }

  const KEYS: set<string> := {
    "subscriber_mode", "subscriber_email", "subscriber_id", "template_id", "data", "from_email", "headers",
    "content_type", "messenger", "subject", "altbody", "attachments"
  }

  /** A field by its key. Zero values are left out, but for the three that are always there. */
  function Field(p: Payload, key: string): Option<Json> {
    if key == "subscriber_mode" then Some(Str(p.mode))
    else if key == "subscriber_email" then NonEmpty(p.email)
    else if key == "subscriber_id" then if p.id == 0 then None else Some(Num(p.id))
    else if key == "template_id" then Some(Num(p.templateID))
    else if key == "data" then Some(Obj(p.data))
    else if key == "from_email" then NonEmpty(p.fromEmail)
    else if key == "headers" then if p.headers == [] then None else Some(HeaderList(p.headers))
    else if key == "content_type" then NonEmpty(p.contentType)
    else if key == "messenger" then NonEmpty(p.messenger)
    else if key == "subject" then NonEmpty(p.subject)
    else if key == "altbody" then NonEmpty(p.altBody)
    else if key == "attachments" then if p.attachments == [] then None else Some(Strs(p.attachments))
    else None
  }

  function Encode(p: Payload): Object {
    map key | key in KEYS && Field(p, key).Some? :: Field(p, key).value
  }

  function Text(o: Object, key: string): Option<string> {
    if key !in o then Some("") else if o[key].Str? then Some(o[key].text) else None
  }

  function Number(o: Object, key: string): Option<int> {
    if key !in o then Some(0) else if o[key].Num? then Some(o[key].n) else None
  }

  function TextList(o: Object, key: string): Option<seq<string>> {
    if key !in o then Some([]) else if o[key].Strs? then Some(o[key].texts) else None
  }

  function NumberList(o: Object, key: string): Option<seq<int>> {
    if key !in o then Some([]) else if o[key].Nums? then Some(o[key].ns) else None
  }

  function DataIn(o: Object): Option<Data> {
    if "data" !in o then Some(None) else if o["data"].Obj? then Some(o["data"].data) else None
  }

  function HeadersIn(o: Object): Option<Headers> {
    if "headers" !in o then Some([]) else if o["headers"].HeaderList? then Some(o["headers"].headers) else None
  }

  /** A missing field takes its zero value, an unknown one is ignored, one of another kind is an error. */
  function Decode(o: Object): Option<TxMessage> {
    var mode, email, from := Text(o, "subscriber_mode"), Text(o, "subscriber_email"), Text(o, "from_email");
    var kind, messenger, subject := Text(o, "content_type"), Text(o, "messenger"), Text(o, "subject");
    var alt, id, tpl := Text(o, "altbody"), Number(o, "subscriber_id"), Number(o, "template_id");
    var emails, ids := TextList(o, "subscriber_emails"), NumberList(o, "subscriber_ids");
    var data, headers := DataIn(o), HeadersIn(o);
    if mode.Some? && email.Some? && from.Some? && kind.Some? && messenger.Some? && subject.Some? && alt.Some?
       && id.Some? && tpl.Some? && emails.Some? && ids.Some? && data.Some? && headers.Some?
    then Some(TxMessage(mode.value, emails.value, ids.value, email.value, id.value, tpl.value, data.value, from.value,
                        headers.value, kind.value, messenger.value, subject.value, alt.value))
    else None
  }

  /** The request the record stands for: to its one recipient, without the attachments. */
  function Single(p: Payload): TxMessage {
    TxMessage(p.mode, [], [], p.email, p.id, p.templateID, p.data, p.fromEmail, p.headers, p.contentType, p.messenger,
              p.subject, p.altBody)
  }

  lemma TextsBack(p: Payload)
    ensures var o := Encode(p);
      && Text(o, "subscriber_mode") == Some(p.mode) && Text(o, "subscriber_email") == Some(p.email)
      && Text(o, "from_email") == Some(p.fromEmail) && Text(o, "content_type") == Some(p.contentType)
      && Text(o, "messenger") == Some(p.messenger) && Text(o, "subject") == Some(p.subject)
      && Text(o, "altbody") == Some(p.altBody)
  {
  }

  lemma OthersBack(p: Payload)
    ensures var o := Encode(p);
      && Number(o, "subscriber_id") == Some(p.id) && Number(o, "template_id") == Some(p.templateID)
      && DataIn(o) == Some(p.data) && HeadersIn(o) == Some(p.headers)
      && TextList(o, "subscriber_emails") == Some([]) && NumberList(o, "subscriber_ids") == Some([])
  {
  }

  /** Decoding a record as a request gives back its one recipient and everything else but the attachments. */
  lemma DecodeEncode(p: Payload)
    ensures Decode(Encode(p)) == Some(Single(p))
  {
    TextsBack(p);
    OthersBack(p);
    hide Encode, Text, Number, TextList, NumberList, DataIn, HeadersIn;
  }

  /** The request a resend makes of a record, if it can: decoded, with a template, and valid. */
  function ResendRequest(env: Env, payload: Object): Option<TxMessage> {
    var m := Decode(payload);
    if m.Some? && m.value.templateID != 0 && Valid(env, m.value) then Some(Validated(env, m.value)) else None
  }

  /** Whether a record of this recipient names somebody the request's checks let through. */
  predicate Addressable(env: Env, email: string, subID: int) {
    subID > 0 || (email != "" && env.sanitize(email).Some?)
  }

  /** A validated request whose subject and plain text rendering has replaced. */
  function Rendered(env: Env, req: TxMessage, subject: string, altBody: string): TxMessage {
    Validated(env, req).(subject := subject, altBody := altBody)
  }

  lemma SingleValid(env: Env, req: TxMessage, subject: string, altBody: string, email: string, subID: int,
                    attachments: seq<string>)
    requires Valid(env, req) && (subID > 0 ==> subID in AllIDs(req))
    ensures Valid(env, Single(PayloadOf(Rendered(env, req, subject, altBody), email, subID, attachments))) <==>
      Addressable(env, email, subID) && env.hasMessenger(Validated(env, req).messenger)
  {
    var s := Single(PayloadOf(Rendered(env, req, subject, altBody), email, subID, attachments));
    assert AllEmails(s) == if s.email == "" then [] else [s.email];
    assert AllIDs(s) == if s.id == 0 then [] else [s.id];
    assert s.mode != "" && s.messenger != "";
    assert s.email != "" ==> AllEmails(s)[0] == s.email;
    assert Sanitary(env, AllEmails(s)) <==> s.email == "" || env.sanitize(s.email).Some?;
    assert subID > 0 ==> s.mode == DEFAULT;
  }

  /**
   A logged message of a valid request can be sent again exactly when it has a
   template, its record names somebody the tenant accepts, and the messenger is
   still there. It then goes to exactly that recipient, with everything else as
   it was; an e-mail address stays the same if checking it again leaves it so.
   */
  lemma ResendExactly(env: Env, req: TxMessage, subject: string, altBody: string,
                      email: string, subID: int, attachments: seq<string>)
    requires Valid(env, req) && (subID > 0 ==> subID in AllIDs(req))
    ensures var m := Rendered(env, req, subject, altBody);
      var again := ResendRequest(env, Encode(PayloadOf(m, email, subID, attachments)));
      && (again.Some? <==> m.templateID != 0 && Addressable(env, email, subID) && env.hasMessenger(m.messenger))
      && (again.Some? ==>
            && again.value.(emails := m.emails, ids := m.ids, email := m.email, id := m.id) == m
            && Recipients(again.value)
               == [if subID > 0 then Recipient(IDLabel(subID), subID) else Recipient(Sanitized(env, email), 0)])
  {
    var p := PayloadOf(Rendered(env, req, subject, altBody), email, subID, attachments);
    DecodeEncode(p);
    SingleValid(env, req, subject, altBody, email, subID, attachments);
    hide Encode, Decode, Valid, IDLabel;
    var s := Single(p);
    assert AllEmails(s) == if s.email == "" then [] else [s.email];
    assert AllIDs(s) == if s.id == 0 then [] else [s.id];
    assert s.mode != "" && s.messenger != "";
  }
}
