/**
 What a settings save does to the blocks of SMTP servers, bounce mailboxes and
 postback messengers before it stores them: names, identifiers and passwords.
 Beyond ASCII only the letters whose lower case is in it matter.
 */
module SettingsSave {
  import opened Wrappers
  import opened Text
  import opened Picking
  import opened TenantSettings

  const PREFIX: string := "email-"

  datatype SaveError = DuplicateName(name: string) | NoSMTP | InvalidScanInterval | InvalidName | InvalidRole

  const KELVIN: char := '\U{212A}'
  const DOTTED_I: char := '\U{0130}'

  function LowerChar(c: char): char {
    if 'A' <= c <= 'Z' then (c as int + 32) as char
    else if c == KELVIN then 'k'
    else if c == DOTTED_I then 'i'
    else c
  }

  function Lower(s: string): string {
    seq(|s|, k requires 0 <= k < |s| => LowerChar(s[k]))
  }

  predicate IsNameChar(c: char) {
    'a' <= c <= 'z' || '0' <= c <= '9' || c == '-'
  }

  /** Every character outside a-z, 0-9 and the dash replaced. */
  function ReplaceOthers(s: string, sub: string): string {
    if s == "" then "" else ReplaceOthers(s[..|s| - 1], sub) + if IsNameChar(s[|s| - 1]) then [s[|s| - 1]] else sub
  }

  function SMTPName(raw: string): string {
    var name := ReplaceOthers(Lower(TrimSpace(raw)), "-");
    if name == "" || PREFIX <= name then name else PREFIX + name
  }

  function PostbackName(raw: string): string {
    ReplaceOthers(Lower(raw), "")
  }

  predicate IsName(s: string) {
    forall k :: 0 <= k < |s| ==> IsNameChar(s[k])
  }

  lemma {:induction false} ReplacedIsName(s: string, sub: string)
    requires IsName(sub)
    ensures IsName(ReplaceOthers(s, sub))
    ensures IsName(s) ==> ReplaceOthers(s, sub) == s
  {
    if s != "" {
      ReplacedIsName(s[..|s| - 1], sub);
      assert s == s[..|s| - 1] + [s[|s| - 1]];
    }
  }

  lemma NameIsPlain(s: string)
    requires IsName(s)
    ensures Lower(s) == s && TrimSpace(s) == s
  {
  }

  /** Cleaning a clean name changes nothing. */
  lemma NamesStable(raw: string)
    ensures SMTPName(SMTPName(raw)) == SMTPName(raw) && PostbackName(PostbackName(raw)) == PostbackName(raw)
    ensures SMTPName(raw) == "" || PREFIX <= SMTPName(raw)
    ensures IsName(SMTPName(raw)) && IsName(PostbackName(raw))
  {
    hide TrimSpace, Lower, ReplaceOthers, IsName;
    PrefixIsName(ReplaceOthers(Lower(TrimSpace(raw)), "-"));
    ReplacedIsName(Lower(TrimSpace(raw)), "-");
    ReplacedIsName(Lower(raw), "");
    var name, post := SMTPName(raw), PostbackName(raw);
    NameIsPlain(name);
    NameIsPlain(post);
    ReplacedIsName(name, "-");
    ReplacedIsName(post, "");
  }

  lemma PrefixIsName(s: string)
    ensures IsName("") && IsName("-") && IsName(PREFIX) && PREFIX <= PREFIX + s
    ensures IsName(s) ==> IsName(PREFIX + s)
  {
  }

  const CAPITALS: string := "ABCDEFGHIJKLMNOPQRSTUVWXYZ"
  const SMALL_LETTERS: string := "abcdefghijklmnopqrstuvwxyz"

  /** d is c in a name: a small letter, a digit or a dash as it is, a capital's small letter. */
  ghost predicate NamedAs(c: char, d: char) {
    if c in SMALL_LETTERS || c in "0123456789-" then d == c
    else
      || (exists j :: 0 <= j < 26 && c == CAPITALS[j] && d == SMALL_LETTERS[j])
      || (c == '\U{212A}' && d == 'k') || (c == '\U{0130}' && d == 'i')
  }

  /** A name has no place for c. */
  predicate Foreign(c: char) {
    c !in SMALL_LETTERS && c !in CAPITALS && c !in "0123456789-" && c != '\U{212A}' && c != '\U{0130}'
  }

  lemma LettersInOrder(j: nat)
    requires j < 26
    ensures CAPITALS[j] as int == 'A' as int + j && SMALL_LETTERS[j] as int == 'a' as int + j
  {
  }

  lemma SmallExact(c: char)
    ensures c in SMALL_LETTERS <==> 'a' <= c <= 'z'
  {
    if 'a' <= c <= 'z' {
      LettersInOrder(c as int - 'a' as int);
      assert SMALL_LETTERS[c as int - 'a' as int] == c;
    }
  }

  lemma CapitalExact(c: char)
    ensures c in CAPITALS <==> 'A' <= c <= 'Z'
    ensures 'A' <= c <= 'Z' ==>
      CAPITALS[c as int - 'A' as int] == c && SMALL_LETTERS[c as int - 'A' as int] == (c as int + 32) as char
  {
    if 'A' <= c <= 'Z' {
      LettersInOrder(c as int - 'A' as int);
      assert CAPITALS[c as int - 'A' as int] == c;
    }
  }

  lemma DigitExact(c: char)
    ensures c in "0123456789-" <==> '0' <= c <= '9' || c == '-'
  {
    if '0' <= c <= '9' {
      assert "0123456789-"[c as int - '0' as int] == c;
    } else if c == '-' {
      assert "0123456789-"[10] == c;
    }
  }

  lemma CharExact(c: char)
    ensures IsNameChar(LowerChar(c)) <==> !Foreign(c)
    ensures !Foreign(c) ==> NamedAs(c, LowerChar(c))
  {
    hide CAPITALS, SMALL_LETTERS;
    SmallExact(c);
    CapitalExact(c);
    DigitExact(c);
  }

  lemma {:induction false} ReplacedAt(s: string, k: nat)
    requires k < |s|
    ensures |ReplaceOthers(Lower(s), "-")| == |s|
    ensures ReplaceOthers(Lower(s), "-")[k] == if IsNameChar(LowerChar(s[k])) then LowerChar(s[k]) else '-'
    decreases |s|
  {
    var n := |s| - 1;
    assert Lower(s)[..n] == Lower(s[..n]);
    if n > 0 {
      ReplacedAt(s[..n], if k < n then k else 0);
    }
  }

  /** base is a server's name before its prefix: a character for each of the trimmed name as sent. */
  ghost predicate ServerBase(trimmed: string, base: string) {
    |base| == |trimmed| && forall k :: 0 <= k < |base| ==>
      if Foreign(trimmed[k]) then base[k] == '-' else NamedAs(trimmed[k], base[k])
  }

  /**
   A server's name is empty exactly when the trimmed name sent is. Otherwise it
   has the prefix, put in front unless it is there, and then a character for each
   of the trimmed name: the letter in lower case, the digit, or a dash.
   */
  lemma ServerNameExact(raw: string) returns (base: string)
    ensures ServerBase(TrimSpace(raw), base)
    ensures SMTPName(raw) == if base == "" || "email-" <= base then base else "email-" + base
  {
    var t := TrimSpace(raw);
    base := ReplaceOthers(Lower(t), "-");
    if t == "" {
      assert Lower(t) == "";
    }
    forall k | 0 <= k < |t|
      ensures |base| == |t| && if Foreign(t[k]) then base[k] == '-' else NamedAs(t[k], base[k])
    {
      ReplacedAt(t, k);
      CharExact(t[k]);
    }
  }

  /** Two servers come to one name exactly when their clean names agree, or differ only in the prefix. */
  lemma ServerNamesApart(a: string, b: string, x: string, y: string)
    requires ServerBase(TrimSpace(a), x) && ServerBase(TrimSpace(b), y)
    ensures SMTPName(a) == SMTPName(b) <==>
      || x == y
      || (x != "" && y != "" && (x == "email-" + y || y == "email-" + x) && !("email-" <= x && "email-" <= y))
  {
    var u := ServerNameExact(a);
    var v := ServerNameExact(b);
    SameBase(TrimSpace(a), x, u);
    SameBase(TrimSpace(b), y, v);
    hide TrimSpace, SMTPName, ServerBase;
    assert ("email-" + x)[6..] == x && ("email-" + y)[6..] == y;
  }

  lemma SameBase(trimmed: string, x: string, y: string)
    requires ServerBase(trimmed, x) && ServerBase(trimmed, y)
    ensures x == y
  {
    forall k | 0 <= k < |trimmed| ensures x[k] == y[k] {
      if !Foreign(trimmed[k]) {
        CharExact(trimmed[k]);
        OneNaming(trimmed[k], x[k], y[k]);
      }
    }
  }

  lemma OneNaming(c: char, x: char, y: char)
    requires NamedAs(c, x) && NamedAs(c, y)
    ensures x == y
  {
    assert |CAPITALS| == |SMALL_LETTERS| == 26;
    hide CAPITALS, SMALL_LETTERS;
    if c !in SMALL_LETTERS && c !in "0123456789-" {
      CapitalExact(c);
      if i, j :| 0 <= i < 26 && 0 <= j < 26 && c == CAPITALS[i] && c == CAPITALS[j]
                 && x == SMALL_LETTERS[i] && y == SMALL_LETTERS[j] {
        LettersInOrder(i);
        LettersInOrder(j);
      }
    }
  }

  /**
   A messenger's name has, in order, those characters of the name sent that have
   a place in one, and no other. named is what each of them becomes.
   */
  lemma {:induction false} PostbackNameExact(raw: string, placed: char -> bool, named: char -> char)
    requires forall c :: placed(c) <==> !Foreign(c)
    requires forall c :: placed(c) ==> NamedAs(c, named(c))
    ensures Picks(raw, placed, named, PostbackName(raw))
    decreases |raw|
  {
    if raw == "" {
      PicksNothing(placed, named);
    } else {
      var n := |raw| - 1;
      PostbackNameExact(raw[..n], placed, named);
      assert raw == raw[..n] + [raw[n]];
      hide *;
      PostbackNext(raw[..n], raw[n]);
      if placed(raw[n]) {
        CharExact(raw[n]);
        OneNaming(raw[n], named(raw[n]), LowerChar(raw[n]));
      }
      PicksNext(raw[..n], raw[n], placed, named, PostbackName(raw[..n]));
    }
  }

  lemma PostbackNext(s: string, c: char)
    ensures PostbackName(s + [c]) == if Foreign(c) then PostbackName(s) else PostbackName(s) + [LowerChar(c)]
  {
    CharExact(c);
    hide Foreign, LowerChar, IsNameChar;
    assert Lower(s + [c])[..|s|] == Lower(s);
    assert PostbackName(s) + "" == PostbackName(s);
  }

  datatype Secret = Secret(uuid: string, password: string)

  /** The password of the last stored block with this identifier. */
  function StoredPassword(stored: seq<Secret>, uuid: string): string {
    if stored == [] then ""
    else if stored[|stored| - 1].uuid == uuid then stored[|stored| - 1].password
    else StoredPassword(stored[..|stored| - 1], uuid)
  }

  function Kept(stored: seq<Secret>, sent: Secret): string {
    if sent.password != "" then sent.password else StoredPassword(stored, sent.uuid)
  }

  predicate DistinctIDs(stored: seq<Secret>) {
    && (forall k :: 0 <= k < |stored| ==> stored[k].uuid != "")
    && (forall j, k :: 0 <= j < k < |stored| ==> stored[j].uuid != stored[k].uuid)
  }

  /** A blank password becomes that of the stored block with its identifier, wherever that stands, and no other. */
  lemma {:induction false} BlankTakesStored(stored: seq<Secret>, uuid: string)
    requires DistinctIDs(stored)
    ensures forall k :: 0 <= k < |stored| && stored[k].uuid == uuid ==>
      StoredPassword(stored, uuid) == stored[k].password
    ensures (forall k :: 0 <= k < |stored| ==> stored[k].uuid != uuid) ==> StoredPassword(stored, uuid) == ""
  {
    if stored != [] {
      BlankTakesStored(stored[..|stored| - 1], uuid);
    }
  }

  /** So the order of the stored blocks does not matter. */
  lemma ReorderingKeepsPasswords(stored: seq<Secret>, other: seq<Secret>, uuid: string)
    requires DistinctIDs(stored) && DistinctIDs(other)
    requires forall s :: s in stored <==> s in other
    ensures StoredPassword(stored, uuid) == StoredPassword(other, uuid)
  {
    BlankTakesStored(stored, uuid);
    BlankTakesStored(other, uuid);
    if k :| 0 <= k < |stored| && stored[k].uuid == uuid {
      assert stored[k] in other;
    } else {
      forall k | 0 <= k < |other|
        ensures other[k].uuid != uuid
      {
        assert other[k] in stored;
      }
    }
  }

  function ServerSecrets(blocks: seq<Server>): seq<Secret> {
    seq(|blocks|, k requires 0 <= k < |blocks| => Secret(blocks[k].uuid, blocks[k].password))
  }

  function MailboxSecrets(blocks: seq<Mailbox>): seq<Secret> {
    seq(|blocks|, k requires 0 <= k < |blocks| => Secret(blocks[k].uuid, blocks[k].password))
  }

  function PostbackSecrets(blocks: seq<Postback>): seq<Secret> {
    seq(|blocks|, k requires 0 <= k < |blocks| => Secret(blocks[k].uuid, blocks[k].password))
  }

  /** newID is the identifier generated for a block without one. */
  function CleanServer(s: Server, stored: seq<Secret>, newID: string): Server {
    s.(name := SMTPName(s.name), uuid := if s.uuid == "" then newID else s.uuid, host := TrimSpace(s.host),
       password := Kept(stored, Secret(s.uuid, s.password)))
  }

  function CleanMailbox(m: Mailbox, stored: seq<Secret>, newID: string): Mailbox {
    m.(uuid := if m.uuid == "" then newID else m.uuid, host := TrimSpace(m.host),
       password := Kept(stored, Secret(m.uuid, m.password)))
  }

  function CleanPostback(m: Postback, stored: seq<Secret>, newID: string): Postback {
    m.(name := PostbackName(m.name), uuid := if m.uuid == "" then newID else m.uuid,
       password := Kept(stored, Secret(m.uuid, m.password)))
  }

  datatype NewIDs = NewIDs(smtp: nat -> string, boxes: nat -> string, messengers: nat -> string)

  function CleanSMTP(smtp: seq<Server>, stored: seq<Secret>, newID: nat -> string): seq<Server> {
    seq(|smtp|, k requires 0 <= k < |smtp| => CleanServer(smtp[k], stored, newID(k)))
  }

  function CleanBoxes(boxes: seq<Mailbox>, stored: seq<Secret>, newID: nat -> string): seq<Mailbox> {
    seq(|boxes|, k requires 0 <= k < |boxes| => CleanMailbox(boxes[k], stored, newID(k)))
  }

  function CleanPostbacks(ms: seq<Postback>, stored: seq<Secret>, newID: nat -> string): seq<Postback> {
    seq(|ms|, k requires 0 <= k < |ms| => CleanPostback(ms[k], stored, newID(k)))
  }

  /** The messenger names of cleaned blocks, servers first; a server may have none. */
  function Names(smtp: seq<Server>, ms: seq<Postback>): seq<string> {
    seq(|smtp| + |ms|, k requires 0 <= k < |smtp| + |ms| => if k < |smtp| then smtp[k].name else ms[k - |smtp|].name)
  }

  /** Names are pairwise distinct, and none is the reserved one. */
  predicate NamesOK(names: seq<string>) {
    forall k :: 0 <= k < |names| && names[k] != "" ==> names[k] != EMAIL && names[k] !in names[..k]
  }

  /** What the settings page shows in place of a secret's characters. */
  const MASK: char := '\U{2022}'

  function KeptSecret(cur: string, sent: string): string {
    if sent == "" then cur else sent
  }

  function KeptKey(cur: string, sent: string): string {
    if sent == "" || MASK in sent then cur else sent
  }

  function Cleaned(cur: Settings, sent: Settings, newID: NewIDs): Settings {
    sent.(scrub := sent.scrub.(apiKey := KeptKey(cur.scrub.apiKey, sent.scrub.apiKey)),
          s3SecretAccessKey := KeptSecret(cur.s3SecretAccessKey, sent.s3SecretAccessKey),
          oidc := sent.oidc.(clientSecret := KeptSecret(cur.oidc.clientSecret, sent.oidc.clientSecret)),
          smtp := CleanSMTP(sent.smtp, ServerSecrets(cur.smtp), newID.smtp),
          rootURL := TrimRightSlash(sent.rootURL),
          bounceBoxes := CleanBoxes(sent.bounceBoxes, MailboxSecrets(cur.bounceBoxes), newID.boxes),
          messengers := CleanPostbacks(sent.messengers, PostbackSecrets(cur.messengers), newID.messengers))
  }

  predicate Acceptable(clean: Settings) {
    && NamesOK(Names(clean.smtp, clean.messengers))
    && (forall m :: m in clean.messengers ==> m.name != "")
    && (exists s :: s in clean.smtp && s.enabled)
    && (forall m :: m in clean.bounceBoxes ==> m.scanMinutes >= 1)
    && !RoleMissing(clean.oidc)
  }

  /** Users are to be created on sign-in, but no role is given for them. */
  predicate RoleMissing(oidc: OIDC) {
    oidc.autoCreateUsers && RoleOrZero(oidc.userRole) < 1
  }

  /** The loop over stored blocks that looks for the password. */
  method FindPassword(stored: seq<Secret>, uuid: string, password: string) returns (p: string)
    ensures p == Kept(stored, Secret(uuid, password))
  {
    p := password;
    if password == "" {
      for i := 0 to |stored|
        invariant p == StoredPassword(stored[..i], uuid)
      {
        assert stored[..i + 1][..i] == stored[..i];
        if uuid == stored[i].uuid {
          p := stored[i].password;
        }
      }
      assert stored[..|stored|] == stored;
    }
  }

  /** A name taken twice, early on, is taken twice in the end. */
  lemma NamesOKPrefix(names: seq<string>, n: nat)
    requires n <= |names| && NamesOK(names)
    ensures NamesOK(names[..n])
  {
  }

  ghost predicate Known(seen: set<string>, names: seq<string>) {
    forall n :: n in seen <==> n == EMAIL || (n != "" && n in names)
  }

  /** names is what the blocks so far are called, and taken whether the next name is one of them. */
  lemma NameAdded(names: seq<string>, i: nat, seen: set<string>, name: string)
    requires i < |names| && names[i] == name && NamesOK(names[..i]) && Known(seen, names[..i])
    ensures name == "" || name !in seen ==> NamesOK(names[..i + 1])
    ensures name != "" && name in seen ==> !NamesOK(names)
    ensures Known(if name == "" then seen else seen + {name}, names[..i + 1])
  {
  }

  method SaveServer(s: Server, stored: seq<Secret>, newID: string) returns (r: Server)
    ensures r == CleanServer(s, stored, newID)
  {
    var uuid := s.uuid;
    if s.uuid == "" {
      uuid := newID;
    }
    var password := FindPassword(stored, s.uuid, s.password);
    r := s.(name := SMTPName(s.name), uuid := uuid, host := TrimSpace(s.host), password := password);
  }

  method SaveSMTP(sent: seq<Server>, stored: seq<Secret>, newID: nat -> string)
    returns (r: Result<(seq<Server>, set<string>), SaveError>)
    ensures var clean := CleanSMTP(sent, stored, newID);
      && (r.Ok? <==> NamesOK(Names(clean, [])) && exists s :: s in clean && s.enabled)
      && (r.Ok? ==> r.value.0 == clean && Known(r.value.1, Names(clean, [])))
      && (r.Err? ==> if r.error == NoSMTP then forall s :: s in clean ==> !s.enabled
                     else r.error.DuplicateName? && !NamesOK(Names(clean, [])))
  {
    hide NamesOK, Known, CleanServer;
    ghost var clean := CleanSMTP(sent, stored, newID);
    ghost var names := Names(clean, []);
    var out: seq<Server> := [];
    var seen, has := {EMAIL}, false;
    NoNames();
    for i := 0 to |sent|
      invariant out == clean[..i] && NamesOK(names[..i]) && Known(seen, names[..i])
      invariant has <==> exists k :: 0 <= k < i && clean[k].enabled
    {
      var s := SaveServer(sent[i], stored, newID(i));
      assert s == clean[i] && names[i] == s.name;
      if s.enabled {
        has := true;
      }
      NameAdded(names, i, seen, s.name);
      if s.name != "" {
        if s.name in seen {
          return Err(DuplicateName(s.name));
        }
        seen := seen + {s.name};
      }
      out := out + [s];
    }
    assert names[..|sent|] == names && clean[..|sent|] == clean;
    if !has {
      return Err(NoSMTP);
    }
    return Ok((out, seen));
  }

  lemma NoNames()
    ensures NamesOK([]) && Known({EMAIL}, [])
  {
  }

  method SaveMailbox(m: Mailbox, stored: seq<Secret>, newID: string) returns (r: Mailbox)
    ensures r == CleanMailbox(m, stored, newID)
  {
    var uuid := m.uuid;
    if m.uuid == "" {
      uuid := newID;
    }
    var password := FindPassword(stored, m.uuid, m.password);
    r := m.(uuid := uuid, host := TrimSpace(m.host), password := password);
  }

  method SaveBoxes(sent: seq<Mailbox>, stored: seq<Secret>, newID: nat -> string)
    returns (r: Result<seq<Mailbox>, SaveError>)
    ensures r.Ok? <==> forall m :: m in sent ==> m.scanMinutes >= 1
    ensures r.Ok? ==> r.value == CleanBoxes(sent, stored, newID)
    ensures r.Err? ==> r.error.InvalidScanInterval?
  {
    hide CleanMailbox;
    ghost var clean := CleanBoxes(sent, stored, newID);
    var out: seq<Mailbox> := [];
    for i := 0 to |sent|
      invariant out == clean[..i]
      invariant forall j :: 0 <= j < i ==> sent[j].scanMinutes >= 1
    {
      if sent[i].scanMinutes < 1 {
        return Err(InvalidScanInterval);
      }
      var m := SaveMailbox(sent[i], stored, newID(i));
      assert m == clean[i];
      out := out + [m];
    }
    assert clean[..|sent|] == clean;
    return Ok(out);
  }

  method SavePostback(m: Postback, stored: seq<Secret>, newID: string) returns (r: Postback)
    ensures r == CleanPostback(m, stored, newID)
  {
    var uuid := m.uuid;
    if m.uuid == "" {
      uuid := newID;
    }
    var password := FindPassword(stored, m.uuid, m.password);
    r := m.(name := PostbackName(m.name), uuid := uuid, password := password);
  }

  /** smtp are the servers already cleaned, taken their names. */
  method SavePostbacks(sent: seq<Postback>, stored: seq<Secret>, newID: nat -> string,
                       ghost smtp: seq<Server>, taken: set<string>)
    returns (r: Result<seq<Postback>, SaveError>)
    requires NamesOK(Names(smtp, [])) && Known(taken, Names(smtp, []))
    ensures var clean := CleanPostbacks(sent, stored, newID);
      && (r.Ok? <==> NamesOK(Names(smtp, clean)) && forall m :: m in clean ==> m.name != "")
      && (r.Ok? ==> r.value == clean)
      && (r.Err? ==> if r.error == InvalidName then exists m :: m in clean && m.name == ""
                     else r.error.DuplicateName? && !NamesOK(Names(smtp, clean)))
  {
    hide NamesOK, Known, CleanPostback;
    ghost var clean := CleanPostbacks(sent, stored, newID);
    ghost var names := Names(smtp, clean);
    var out: seq<Postback> := [];
    var seen := taken;
    assert names[..|smtp|] == Names(smtp, []);
    for i := 0 to |sent|
      invariant out == clean[..i] && NamesOK(names[..|smtp| + i]) && Known(seen, names[..|smtp| + i])
      invariant forall j :: 0 <= j < i ==> clean[j].name != ""
    {
      var m := SavePostback(sent[i], stored, newID(i));
      assert m == clean[i] && names[|smtp| + i] == m.name;
      NameAdded(names, |smtp| + i, seen, m.name);
      if m.name in seen {
        EmptyUnknown(seen, names[..|smtp| + i]);
        return Err(DuplicateName(m.name));
      }
      if |m.name| == 0 {
        assert m in clean;
        return Err(InvalidName);
      }
      seen := seen + {m.name};
      out := out + [m];
    }
    assert names[..|smtp| + |sent|] == names && clean[..|sent|] == clean;
    return Ok(out);
  }

  lemma EmptyUnknown(seen: set<string>, names: seq<string>)
    requires Known(seen, names)
    ensures "" !in seen
  {
  }

  /** The save up to its write: what is stored, or why it is refused. */
  method SaveBlocks(cur: Settings, sent: Settings, newID: NewIDs) returns (r: Result<Settings, SaveError>)
    ensures r.Ok? <==> Acceptable(Cleaned(cur, sent, newID))
    ensures r.Ok? ==> r.value == Cleaned(cur, sent, newID)
    ensures r.Ok? ==> StoredAs(cur, sent, newID, r.value) && NamesApart(r.value.smtp, r.value.messengers)
    ensures r.Err? ==>
      match r.error
      case DuplicateName(name) => !NamesApart(Cleaned(cur, sent, newID).smtp, Cleaned(cur, sent, newID).messengers)
      case NoSMTP => forall s :: s in Cleaned(cur, sent, newID).smtp ==> !s.enabled
      case InvalidScanInterval => exists m :: m in sent.bounceBoxes && m.scanMinutes < 1
      case InvalidName => exists m :: m in Cleaned(cur, sent, newID).messengers && m.name == ""
      case InvalidRole => sent.oidc.autoCreateUsers && (sent.oidc.userRole.Some? ==> sent.oidc.userRole.value < 1)
  {
    hide NamesOK, Known, CleanServer, CleanPostback;
    ghost var clean := Cleaned(cur, sent, newID);
    ServersFirst(clean);
    CleanedExact(cur, sent, newID);
    ApartExact(clean.smtp, clean.messengers);
    hide StoredAs, NamesApart;
    var smtp := SaveSMTP(sent.smtp, ServerSecrets(cur.smtp), newID.smtp);
    if smtp.Err? {
      return Err(smtp.error);
    }
    var boxes := SaveBoxes(sent.bounceBoxes, MailboxSecrets(cur.bounceBoxes), newID.boxes);
    BoxesScan(sent.bounceBoxes, MailboxSecrets(cur.bounceBoxes), newID.boxes);
    if boxes.Err? {
      return Err(boxes.error);
    }
    var ms := SavePostbacks(sent.messengers, PostbackSecrets(cur.messengers), newID.messengers, smtp.value.0,
                            smtp.value.1);
    if ms.Err? {
      return Err(ms.error);
    }
    var saved := sent.(smtp := smtp.value.0, rootURL := TrimRightSlash(sent.rootURL), bounceBoxes := boxes.value,
                       messengers := ms.value);
    if sent.scrub.apiKey == "" || MASK in sent.scrub.apiKey {
      saved := saved.(scrub := saved.scrub.(apiKey := cur.scrub.apiKey));
    }
    if sent.s3SecretAccessKey == "" {
      saved := saved.(s3SecretAccessKey := cur.s3SecretAccessKey);
    }
    if sent.oidc.clientSecret == "" {
      saved := saved.(oidc := saved.oidc.(clientSecret := cur.oidc.clientSecret));
    }
    if RoleMissing(sent.oidc) {
      return Err(InvalidRole);
    }
    return Ok(saved);
  }

  lemma ServersFirst(clean: Settings)
    ensures NamesOK(Names(clean.smtp, clean.messengers)) ==> NamesOK(Names(clean.smtp, []))
  {
    var names := Names(clean.smtp, clean.messengers);
    assert names[..|clean.smtp|] == Names(clean.smtp, []);
    if NamesOK(names) {
      NamesOKPrefix(names, |clean.smtp|);
    }
  }

  lemma BoxesScan(sent: seq<Mailbox>, stored: seq<Secret>, newID: nat -> string)
    ensures (forall m :: m in CleanBoxes(sent, stored, newID) ==> m.scanMinutes >= 1) <==>
            (forall m :: m in sent ==> m.scanMinutes >= 1)
  {
    var clean := CleanBoxes(sent, stored, newID);
    forall k | 0 <= k < |sent|
      ensures clean[k].scanMinutes == sent[k].scanMinutes && clean[k] in clean && sent[k] in sent
    {
      assert clean[k] == CleanMailbox(sent[k], stored, newID(k));
    }
  }

  predicate DistinctServers(s: Settings) {
    DistinctIDs(ServerSecrets(s.smtp)) && DistinctIDs(MailboxSecrets(s.bounceBoxes))
      && DistinctIDs(PostbackSecrets(s.messengers))
  }

  /**
   A saved server, mailbox or messenger that was sent with a blank password has
   the password of the stored block with its identifier, wherever either stands.
   */
  lemma PasswordsFollowIDs(cur: Settings, sent: Settings, newID: NewIDs, j: nat, k: nat)
    requires DistinctServers(cur)
    ensures var saved := Cleaned(cur, sent, newID);
      && (j < |cur.smtp| && k < |sent.smtp| && sent.smtp[k].uuid == cur.smtp[j].uuid ==>
            saved.smtp[k].password
              == if sent.smtp[k].password == "" then cur.smtp[j].password else sent.smtp[k].password)
      && (j < |cur.bounceBoxes| && k < |sent.bounceBoxes| && sent.bounceBoxes[k].uuid == cur.bounceBoxes[j].uuid ==>
            saved.bounceBoxes[k].password
            == if sent.bounceBoxes[k].password == "" then cur.bounceBoxes[j].password else sent.bounceBoxes[k].password)
      && (j < |cur.messengers| && k < |sent.messengers| && sent.messengers[k].uuid == cur.messengers[j].uuid ==>
            saved.messengers[k].password
            == if sent.messengers[k].password == "" then cur.messengers[j].password else sent.messengers[k].password)
  {
    hide SMTPName, PostbackName, TrimSpace, TrimRightSlash, KeptKey, KeptSecret, DistinctIDs, Kept;
    if j < |cur.smtp| && k < |sent.smtp| && sent.smtp[k].uuid == cur.smtp[j].uuid {
      KeptFollows(ServerSecrets(cur.smtp), j, Secret(sent.smtp[k].uuid, sent.smtp[k].password));
      assert Cleaned(cur, sent, newID).smtp[k] == CleanServer(sent.smtp[k], ServerSecrets(cur.smtp), newID.smtp(k));
    }
    if j < |cur.bounceBoxes| && k < |sent.bounceBoxes| && sent.bounceBoxes[k].uuid == cur.bounceBoxes[j].uuid {
      KeptFollows(MailboxSecrets(cur.bounceBoxes), j, Secret(sent.bounceBoxes[k].uuid, sent.bounceBoxes[k].password));
      assert Cleaned(cur, sent, newID).bounceBoxes[k]
          == CleanMailbox(sent.bounceBoxes[k], MailboxSecrets(cur.bounceBoxes), newID.boxes(k));
    }
    if j < |cur.messengers| && k < |sent.messengers| && sent.messengers[k].uuid == cur.messengers[j].uuid {
      KeptFollows(PostbackSecrets(cur.messengers), j, Secret(sent.messengers[k].uuid, sent.messengers[k].password));
      assert Cleaned(cur, sent, newID).messengers[k]
          == CleanPostback(sent.messengers[k], PostbackSecrets(cur.messengers), newID.messengers(k));
    }
  }

  /**
   What a save stores: every setting as sent, but the URL without its trailing
   slashes, the stored secret for a blank one, and the blocks; of every block everything as sent, but its name, its
   trimmed host, a new identifier if it had none, and the stored password, if
   there is one, for a blank one.
   */
  ghost predicate StoredAs(cur: Settings, sent: Settings, newID: NewIDs, saved: Settings) {
    && saved == sent.(
         smtp := saved.smtp, rootURL := TrimRightSlash(sent.rootURL), bounceBoxes := saved.bounceBoxes,
         messengers := saved.messengers,
         scrub := sent.scrub.(
           apiKey := if sent.scrub.apiKey == "" || '\U{2022}' in sent.scrub.apiKey
                     then cur.scrub.apiKey else sent.scrub.apiKey),
         s3SecretAccessKey :=
           if sent.s3SecretAccessKey == "" then cur.s3SecretAccessKey else sent.s3SecretAccessKey,
         oidc := sent.oidc.(
           clientSecret := if sent.oidc.clientSecret == "" then cur.oidc.clientSecret else sent.oidc.clientSecret))
    && |saved.smtp| == |sent.smtp| && |saved.bounceBoxes| == |sent.bounceBoxes|
    && |saved.messengers| == |sent.messengers|
    && (forall k :: 0 <= k < |sent.smtp| ==> ServerStored(cur.smtp, sent.smtp[k], newID.smtp(k), saved.smtp[k]))
    && (forall k :: 0 <= k < |sent.bounceBoxes| ==>
          MailboxStored(cur.bounceBoxes, sent.bounceBoxes[k], newID.boxes(k), saved.bounceBoxes[k]))
    && (forall k :: 0 <= k < |sent.messengers| ==>
          PostbackStored(cur.messengers, sent.messengers[k], newID.messengers(k), saved.messengers[k]))
  }

  ghost predicate ServerStored(cur: seq<Server>, s: Server, newID: string, t: Server) {
    && t == s.(name := SMTPName(s.name), uuid := t.uuid, host := TrimSpace(s.host), password := t.password)
    && t.uuid == (if s.uuid == "" then newID else s.uuid)
    && (s.password != "" ==> t.password == s.password)
    && (s.password == "" && (forall c :: c in cur ==> c.uuid != s.uuid) ==> t.password == "")
  }

  ghost predicate MailboxStored(cur: seq<Mailbox>, s: Mailbox, newID: string, t: Mailbox) {
    && t == s.(uuid := t.uuid, host := TrimSpace(s.host), password := t.password)
    && t.uuid == (if s.uuid == "" then newID else s.uuid)
    && (s.password != "" ==> t.password == s.password)
    && (s.password == "" && (forall c :: c in cur ==> c.uuid != s.uuid) ==> t.password == "")
  }

  ghost predicate PostbackStored(cur: seq<Postback>, s: Postback, newID: string, t: Postback) {
    && t == s.(name := PostbackName(s.name), uuid := t.uuid, password := t.password)
    && t.uuid == (if s.uuid == "" then newID else s.uuid)
    && (s.password != "" ==> t.password == s.password)
    && (s.password == "" && (forall c :: c in cur ==> c.uuid != s.uuid) ==> t.password == "")
  }

  lemma {:induction false} UnknownIsBlank(stored: seq<Secret>, uuid: string)
    requires forall k :: 0 <= k < |stored| ==> stored[k].uuid != uuid
    ensures StoredPassword(stored, uuid) == ""
  {
    if stored != [] {
      UnknownIsBlank(stored[..|stored| - 1], uuid);
    }
  }

  lemma ServerExact(cur: seq<Server>, s: Server, newID: string)
    ensures ServerStored(cur, s, newID, CleanServer(s, ServerSecrets(cur), newID))
  {
    hide SMTPName, TrimSpace, StoredPassword;
    if forall c :: c in cur ==> c.uuid != s.uuid {
      UnknownIsBlank(ServerSecrets(cur), s.uuid);
    }
  }

  lemma MailboxExact(cur: seq<Mailbox>, s: Mailbox, newID: string)
    ensures MailboxStored(cur, s, newID, CleanMailbox(s, MailboxSecrets(cur), newID))
  {
    hide TrimSpace, StoredPassword;
    if forall c :: c in cur ==> c.uuid != s.uuid {
      UnknownIsBlank(MailboxSecrets(cur), s.uuid);
    }
  }

  lemma PostbackExact(cur: seq<Postback>, s: Postback, newID: string)
    ensures PostbackStored(cur, s, newID, CleanPostback(s, PostbackSecrets(cur), newID))
  {
    hide PostbackName, StoredPassword;
    if forall c :: c in cur ==> c.uuid != s.uuid {
      UnknownIsBlank(PostbackSecrets(cur), s.uuid);
    }
  }

  lemma CleanedExact(cur: Settings, sent: Settings, newID: NewIDs)
    ensures StoredAs(cur, sent, newID, Cleaned(cur, sent, newID))
  {
    hide TrimRightSlash, CleanServer, CleanMailbox, CleanPostback, ServerStored, MailboxStored, PostbackStored;
    forall k | 0 <= k < |sent.smtp|
      ensures ServerStored(cur.smtp, sent.smtp[k], newID.smtp(k), Cleaned(cur, sent, newID).smtp[k])
    {
      ServerExact(cur.smtp, sent.smtp[k], newID.smtp(k));
    }
    forall k | 0 <= k < |sent.bounceBoxes|
      ensures MailboxStored(cur.bounceBoxes, sent.bounceBoxes[k], newID.boxes(k),
                            Cleaned(cur, sent, newID).bounceBoxes[k])
    {
      MailboxExact(cur.bounceBoxes, sent.bounceBoxes[k], newID.boxes(k));
    }
    forall k | 0 <= k < |sent.messengers|
      ensures PostbackStored(cur.messengers, sent.messengers[k], newID.messengers(k),
                             Cleaned(cur, sent, newID).messengers[k])
    {
      PostbackExact(cur.messengers, sent.messengers[k], newID.messengers(k));
    }
  }

  /** The messengers of the blocks have names of their own, none the reserved one; postbacks have one at all. */
  ghost predicate NamesApart(smtp: seq<Server>, ms: seq<Postback>) {
    && (forall j, k :: 0 <= j < k < |smtp| && smtp[j].name != "" ==> smtp[j].name != smtp[k].name)
    && (forall j, k :: 0 <= j < k < |ms| ==> ms[j].name != ms[k].name)
    && (forall s, m :: s in smtp && m in ms ==> s.name != m.name)
    && (forall s :: s in smtp ==> s.name != "email")
    && (forall m :: m in ms ==> m.name != "email" && m.name != "")
  }

  /** What is accepted: one enabled server at least, names apart, and no mailbox scanned more than once a minute. */
  lemma AcceptableExact(clean: Settings)
    ensures Acceptable(clean) <==>
      && NamesApart(clean.smtp, clean.messengers)
      && (exists k :: 0 <= k < |clean.smtp| && clean.smtp[k].enabled)
      && (forall k :: 0 <= k < |clean.bounceBoxes| ==> clean.bounceBoxes[k].scanMinutes >= 1)
      && (clean.oidc.autoCreateUsers ==> clean.oidc.userRole.Some? && clean.oidc.userRole.value >= 1)
  {
    ApartExact(clean.smtp, clean.messengers);
    if s :| s in clean.smtp && s.enabled {
      var k :| 0 <= k < |clean.smtp| && clean.smtp[k] == s;
    }
    hide NamesOK, Names, NamesApart;
  }

  lemma ApartExact(smtp: seq<Server>, ms: seq<Postback>)
    ensures NamesApart(smtp, ms) <==> NamesOK(Names(smtp, ms)) && forall m :: m in ms ==> m.name != ""
  {
    var names := Names(smtp, ms);
    if NamesOK(names) && forall m :: m in ms ==> m.name != "" {
      forall j, k | 0 <= j < k < |names| && names[k] != "" ensures names[j] != names[k] {
        assert names[..k][j] == names[j];
      }
      assert forall k :: 0 <= k < |names| && names[k] != "" ==> names[k] != EMAIL;
      NamesAt(smtp, ms);
      hide Names, NamesOK;
      forall s, m | s in smtp && m in ms ensures s.name != m.name {
        var j :| 0 <= j < |smtp| && smtp[j] == s;
        var k :| 0 <= k < |ms| && ms[k] == m;
        assert names[j] == s.name && names[|smtp| + k] == m.name;
      }
      forall j, k | 0 <= j < k < |smtp| && smtp[j].name != "" ensures smtp[j].name != smtp[k].name {
        assert names[j] == smtp[j].name && names[k] == smtp[k].name;
      }
      forall j, k | 0 <= j < k < |ms| ensures ms[j].name != ms[k].name {
        assert names[|smtp| + j] == ms[j].name && names[|smtp| + k] == ms[k].name;
        assert ms[k] in ms;
      }
    }
    if NamesApart(smtp, ms) {
      forall k | 0 <= k < |names| && names[k] != "" ensures names[k] != EMAIL && names[k] !in names[..k] {
        assert k >= |smtp| ==> ms[k - |smtp|] in ms;
      }
    }
  }

  lemma NamesAt(smtp: seq<Server>, ms: seq<Postback>)
    ensures |Names(smtp, ms)| == |smtp| + |ms|
    ensures forall k :: 0 <= k < |smtp| ==> Names(smtp, ms)[k] == smtp[k].name
    ensures forall k :: 0 <= k < |ms| ==> Names(smtp, ms)[|smtp| + k] == ms[k].name
  {
  }

  lemma KeptFollows(stored: seq<Secret>, j: nat, sent: Secret)
    requires DistinctIDs(stored) && j < |stored| && stored[j].uuid == sent.uuid
    ensures Kept(stored, sent) == if sent.password == "" then stored[j].password else sent.password
  {
    TakesStored(stored, j);
  }

  lemma TakesStored(stored: seq<Secret>, k: nat)
    requires DistinctIDs(stored) && k < |stored|
    ensures StoredPassword(stored, stored[k].uuid) == stored[k].password
  {
  }

  /** again is what the settings form sends back for s: the same blocks, any of their passwords blanked. */
  predicate SameBlocks(s: Settings, again: Settings) {
    && |again.smtp| == |s.smtp| && |again.bounceBoxes| == |s.bounceBoxes| && |again.messengers| == |s.messengers|
    && (forall k :: 0 <= k < |s.smtp| ==> again.smtp[k] == s.smtp[k].(password := "") || again.smtp[k] == s.smtp[k])
    && (forall k :: 0 <= k < |s.bounceBoxes| ==>
          again.bounceBoxes[k] == s.bounceBoxes[k].(password := "") || again.bounceBoxes[k] == s.bounceBoxes[k])
    && (forall k :: 0 <= k < |s.messengers| ==>
          again.messengers[k] == s.messengers[k].(password := "") || again.messengers[k] == s.messengers[k])
    && again == s.(smtp := again.smtp, bounceBoxes := again.bounceBoxes, messengers := again.messengers,
                   scrub := again.scrub, s3SecretAccessKey := again.s3SecretAccessKey, oidc := again.oidc)
    && (again.scrub == s.scrub || again.scrub == s.scrub.(apiKey := ""))
    && (again.s3SecretAccessKey == s.s3SecretAccessKey || again.s3SecretAccessKey == "")
    && (again.oidc == s.oidc || again.oidc == s.oidc.(clientSecret := ""))
  }

  lemma CleanServerAgain(raw: Server, stored: seq<Secret>, id: string, saved: seq<Secret>, k: nat,
                          again: Server, id2: string)
    requires DistinctIDs(saved) && k < |saved|
    requires var s := CleanServer(raw, stored, id);
      saved[k] == Secret(s.uuid, s.password) && (again == s || again == s.(password := ""))
    ensures CleanServer(again, saved, id2) == CleanServer(raw, stored, id)
  {
    TakesStored(saved, k);
    NamesStable(raw.name);
    TrimSpaceStable(raw.host);
  }

  lemma CleanMailboxAgain(raw: Mailbox, stored: seq<Secret>, id: string, saved: seq<Secret>, k: nat,
                          again: Mailbox, id2: string)
    requires DistinctIDs(saved) && k < |saved|
    requires var s := CleanMailbox(raw, stored, id);
      saved[k] == Secret(s.uuid, s.password) && (again == s || again == s.(password := ""))
    ensures CleanMailbox(again, saved, id2) == CleanMailbox(raw, stored, id)
  {
    TakesStored(saved, k);
    TrimSpaceStable(raw.host);
  }

  lemma CleanPostbackAgain(raw: Postback, stored: seq<Secret>, id: string, saved: seq<Secret>, k: nat,
                          again: Postback, id2: string)
    requires DistinctIDs(saved) && k < |saved|
    requires var s := CleanPostback(raw, stored, id);
      saved[k] == Secret(s.uuid, s.password) && (again == s || again == s.(password := ""))
    ensures CleanPostback(again, saved, id2) == CleanPostback(raw, stored, id)
  {
    TakesStored(saved, k);
    NamesStable(raw.name);
  }

  lemma {:induction false} SlashesStable(s: string)
    ensures TrimRightSlash(TrimRightSlash(s)) == TrimRightSlash(s)
  {
    if s != "" && s[|s| - 1] == '/' {
      SlashesStable(s[..|s| - 1]);
    }
  }

  /**
   Saving again what was saved, with any of the passwords blanked as the form
   does, stores exactly the same and is accepted if the first save was.
   */
  lemma SavingAgainChangesNothing(cur: Settings, sent: Settings, newID: NewIDs, again: Settings, newID2: NewIDs)
    requires DistinctServers(Cleaned(cur, sent, newID)) && SameBlocks(Cleaned(cur, sent, newID), again)
    ensures Cleaned(Cleaned(cur, sent, newID), again, newID2) == Cleaned(cur, sent, newID)
    ensures Acceptable(Cleaned(Cleaned(cur, sent, newID), again, newID2)) <==> Acceptable(Cleaned(cur, sent, newID))
  {
    hide Acceptable, CleanServer, CleanMailbox, CleanPostback, DistinctIDs, TrimRightSlash;
    var s := Cleaned(cur, sent, newID);
    var t := Cleaned(s, again, newID2);
    SlashesStable(sent.rootURL);
    forall k | 0 <= k < |s.smtp|
      ensures t.smtp[k] == s.smtp[k]
    {
      CleanServerAgain(sent.smtp[k], ServerSecrets(cur.smtp), newID.smtp(k),
                       ServerSecrets(s.smtp), k, again.smtp[k], newID2.smtp(k));
    }
    forall k | 0 <= k < |s.bounceBoxes|
      ensures t.bounceBoxes[k] == s.bounceBoxes[k]
    {
      CleanMailboxAgain(sent.bounceBoxes[k], MailboxSecrets(cur.bounceBoxes), newID.boxes(k),
                        MailboxSecrets(s.bounceBoxes), k, again.bounceBoxes[k], newID2.boxes(k));
    }
    forall k | 0 <= k < |s.messengers|
      ensures t.messengers[k] == s.messengers[k]
    {
      CleanPostbackAgain(sent.messengers[k], PostbackSecrets(cur.messengers), newID.messengers(k),
                         PostbackSecrets(s.messengers), k, again.messengers[k], newID2.messengers(k));
    }
    assert t.smtp == s.smtp && t.bounceBoxes == s.bounceBoxes && t.messengers == s.messengers;
  }

  /**
   With the names a save lets through, the tenant's messengers answer to the
   reserved name with all enabled servers. An enabled server's own name finds
   that server alone exactly when it is not the only enabled one: then it finds
   nothing.
   */
  lemma NamesFindServers(smtp: seq<Server>, valid: Server -> bool)
    requires NamesOK(Names(smtp, [])) && AllValid(smtp, valid)
    ensures var byName := ByName(SMTPMessengers(smtp, valid).value);
      && EMAIL in byName && byName[EMAIL] == Messenger(EMAIL, EnabledServers(smtp))
      && forall s :: s in smtp && s.enabled && s.name != "" ==>
           && (s.name in byName <==> |EnabledServers(smtp)| != 1)
           && (s.name in byName ==> byName[s.name] == Messenger(s.name, [s]))
  {
    var group := Messenger(EMAIL, EnabledServers(smtp));
    NamedFound(smtp, group, |smtp|);
    assert smtp[..|smtp|] == smtp;
    if |EnabledServers(smtp)| == 1 {
      ByNameSnoc([], group);
      assert [group] == [] + [group];
    }
    forall s | s in smtp && s.enabled && s.name != ""
      ensures s.name != EMAIL
    {
      var k :| 0 <= k < |smtp| && smtp[k] == s;
      NameIsNew(smtp, k);
    }
  }

  lemma ByNameSnoc(msgrs: seq<Messenger>, m: Messenger)
    ensures ByName(msgrs + [m]) == ByName(msgrs)[m.name := m]
  {
  }

  ghost predicate Found(smtp: seq<Server>, n: nat, byName: map<string, Messenger>)
    requires n <= |smtp|
  {
    forall k :: 0 <= k < n && smtp[k].enabled && smtp[k].name != "" ==>
      smtp[k].name in byName && byName[smtp[k].name] == Messenger(smtp[k].name, [smtp[k]])
  }

  lemma FoundNext(smtp: seq<Server>, n: nat, byName: map<string, Messenger>)
    requires n < |smtp| && NamesOK(Names(smtp, [])) && Found(smtp, n, byName)
    requires EMAIL in byName
    ensures
      var s := smtp[n];
      var next := if s.enabled && s.name != "" then byName[s.name := Messenger(s.name, [s])] else byName;
      Found(smtp, n + 1, next) && EMAIL in next && next[EMAIL] == byName[EMAIL]
  {
    if smtp[n].name != "" {
      NameIsNew(smtp, n);
    }
    hide NamesOK, Names;
  }

  lemma {:induction false} NamedFound(smtp: seq<Server>, group: Messenger, n: nat)
    requires n <= |smtp| && NamesOK(Names(smtp, [])) && group.name == EMAIL
    ensures var byName := ByName([group] + NamedMessengers(smtp[..n]));
      EMAIL in byName && byName[EMAIL] == group && Found(smtp, n, byName)
  {
    if n == 0 {
      ByNameSnoc([], group);
      assert [group] + [] == [] + [group];
    } else {
      hide NamesOK, Names, ByName, NamedMessengers, Found;
      NamedFound(smtp, group, n - 1);
      ServersSnoc(smtp, n - 1);
      var s := smtp[n - 1];
      var before := [group] + NamedMessengers(smtp[..n - 1]);
      FoundNext(smtp, n - 1, ByName(before));
      ByNameSnoc(before, Messenger(s.name, [s]));
      assert [group] + NamedMessengers(smtp[..n])
          == if s.enabled && s.name != "" then before + [Messenger(s.name, [s])] else before;
    }
  }

  lemma NameIsNew(smtp: seq<Server>, n: nat)
    requires n < |smtp| && NamesOK(Names(smtp, [])) && smtp[n].name != ""
    ensures smtp[n].name != EMAIL && forall k :: 0 <= k < n ==> smtp[k].name != smtp[n].name
  {
    var names := Names(smtp, []);
    assert names[n] == smtp[n].name && names[n] !in names[..n];
    forall k | 0 <= k < n
      ensures smtp[k].name != smtp[n].name
    {
      assert names[..n][k] == smtp[k].name;
    }
  }
}
