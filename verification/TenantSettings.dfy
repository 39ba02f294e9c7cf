/**
 A tenant's settings, what each per-tenant cache builds from them, and how a
 save works out which caches are stale.
 */
module TenantSettings {
  import opened Wrappers
  import opened Text
  import opened Picking

  /** An SMTP block; rest stands for the fields that are only passed on. */
  datatype Server = Server(
    name: string, uuid: string, enabled: bool, host: string, username: string, password: string,
    rest: map<string, string>)

  datatype Postback = Postback(name: string, uuid: string, enabled: bool, password: string, rest: map<string, string>)

  datatype Mailbox = Mailbox(uuid: string, host: string, password: string, scanMinutes: int, rest: map<string, string>)

  datatype OIDC = OIDC(
    enabled: bool, providerURL: string, providerName: string, clientID: string, clientSecret: string,
    autoCreateUsers: bool, userRole: Option<int>, listRole: Option<int>)

  datatype Scrub = Scrub(enabled: bool, url: string, apiKey: string, integrationID: string, managed: bool)

  datatype Cleanup = Cleanup(enabled: bool, months: int, action: string)

  /** rest stands for the settings no cache below reads, by key. */
  datatype Settings = Settings(
    smtp: seq<Server>, oidc: OIDC, inactiveCleanup: Cleanup,
    uploadProvider: string, uploadExtensions: seq<string>, uploadMaxFileSize: int,
    uploadPath: string, uploadURI: string,
    s3URL: string, s3PublicURL: string, s3AccessKeyID: string, s3DefaultRegion: string, s3SecretAccessKey: string,
    s3Bucket: string, s3BucketDomain: string, s3BucketPath: string, s3BucketType: string, s3Expiry: string,
    rootURL: string, domainBlocklist: seq<string>, domainAllowlist: seq<string>, scrub: Scrub,
    messengers: seq<Postback>, bounceBoxes: seq<Mailbox>, rest: map<string, string>)

  const EMAIL: string := "email"

  /** A messenger and the servers it sends through. */
  datatype Messenger = Messenger(name: string, servers: seq<Server>)

  datatype BuildError = BadServer | UnknownProvider | OIDCDisabled | NoProvider

  function EnabledServers(smtp: seq<Server>): seq<Server> {
    if smtp == [] then []
    else EnabledServers(smtp[..|smtp| - 1]) + if smtp[|smtp| - 1].enabled then [smtp[|smtp| - 1]] else []
  }

  /** One messenger for each enabled server with a name. */
  function NamedMessengers(smtp: seq<Server>): seq<Messenger> {
    if smtp == [] then []
    else
      var s := smtp[|smtp| - 1];
      NamedMessengers(smtp[..|smtp| - 1]) + if s.enabled && s.name != "" then [Messenger(s.name, [s])] else []
  }

  predicate AllValid(smtp: seq<Server>, valid: Server -> bool) {
    forall s :: s in smtp && s.enabled ==> valid(s)
  }

  /** valid says whether a messenger can be made of a server. */
  function SMTPMessengers(smtp: seq<Server>, valid: Server -> bool): Result<seq<Messenger>, BuildError> {
    if !AllValid(smtp, valid) then Err(BadServer)
    else
      var group := [Messenger(EMAIL, EnabledServers(smtp))];
      Ok(if |EnabledServers(smtp)| == 1 then group else group + NamedMessengers(smtp))
  }

  lemma ServersSnoc(smtp: seq<Server>, i: nat)
    requires i < |smtp|
    ensures EnabledServers(smtp[..i + 1]) == EnabledServers(smtp[..i]) + if smtp[i].enabled then [smtp[i]] else []
    ensures NamedMessengers(smtp[..i + 1])
         == NamedMessengers(smtp[..i])
            + if smtp[i].enabled && smtp[i].name != "" then [Messenger(smtp[i].name, [smtp[i]])] else []
  {
    assert smtp[..i + 1][..i] == smtp[..i];
  }

  lemma {:induction false} EnabledServersExact(smtp: seq<Server>)
    ensures forall s :: s in EnabledServers(smtp) <==> s in smtp && s.enabled
  {
    if smtp != [] {
      EnabledServersExact(smtp[..|smtp| - 1]);
      assert smtp == smtp[..|smtp| - 1] + [smtp[|smtp| - 1]];
    }
  }

  /** The enabled servers, in order. */
  lemma {:induction false} EnabledServersInOrder(smtp: seq<Server>, pick: Server -> bool, same: Server -> Server)
    requires forall s :: (pick(s) <==> s.enabled) && same(s) == s
    ensures Picks(smtp, pick, same, EnabledServers(smtp))
  {
    if smtp == [] {
      PicksNothing(pick, same);
    } else {
      var n := |smtp| - 1;
      EnabledServersInOrder(smtp[..n], pick, same);
      PicksNext(smtp[..n], smtp[n], pick, same, EnabledServers(smtp[..n]));
      assert smtp == smtp[..n] + [smtp[n]];
    }
  }

  /** One messenger for each enabled server with a name, in order: under that name, with that server alone. */
  lemma {:induction false} NamedMessengersInOrder(smtp: seq<Server>, pick: Server -> bool, alone: Server -> Messenger)
    requires forall s :: (pick(s) <==> s.enabled && s.name != "")
    requires forall s :: alone(s).name == s.name && alone(s).servers == [s]
    ensures Picks(smtp, pick, alone, NamedMessengers(smtp))
  {
    if smtp == [] {
      PicksNothing(pick, alone);
    } else {
      var n := |smtp| - 1;
      NamedMessengersInOrder(smtp[..n], pick, alone);
      PicksNext(smtp[..n], smtp[n], pick, alone, NamedMessengers(smtp[..n]));
      assert smtp == smtp[..n] + [smtp[n]];
    }
  }

  method InitSMTPMessengers(smtp: seq<Server>, valid: Server -> bool) returns (r: Result<seq<Messenger>, BuildError>)
    ensures r == SMTPMessengers(smtp, valid)
    ensures r.Err? <==> exists k :: 0 <= k < |smtp| && smtp[k].enabled && !valid(smtp[k])
    ensures r.Ok? <==> AllValid(smtp, valid)
    ensures r.Ok? ==>
      && |r.value| > 0 && r.value[0].name == "email" && r.value[0].servers == EnabledServers(smtp)
      && r.value[1..] == (if |EnabledServers(smtp)| == 1 then [] else NamedMessengers(smtp))
  {
    var servers: seq<Server>, out: seq<Messenger> := [], [];
    for i := 0 to |smtp|
      invariant servers == EnabledServers(smtp[..i]) && out == NamedMessengers(smtp[..i])
    {
      ServersSnoc(smtp, i);
      if !smtp[i].enabled {
        continue;
      }
      servers := servers + [smtp[i]];
      if smtp[i].name != "" {
        if !valid(smtp[i]) {
          assert smtp[i] in smtp;
          return Err(BadServer);
        }
        out := out + [Messenger(smtp[i].name, [smtp[i]])];
      }
    }
    assert smtp[..|smtp|] == smtp;
    EnabledServersExact(smtp);
    hide EnabledServers, NamedMessengers;
    for i := 0 to |servers|
      invariant forall j :: 0 <= j < i ==> valid(servers[j])
    {
      if !valid(servers[i]) {
        assert servers[i] in servers;
        return Err(BadServer);
      }
    }
    var group := Messenger(EMAIL, servers);
    if |servers| == 1 {
      return Ok([group]);
    }
    return Ok([group] + out);
  }

  /** Messengers by name; of two with one name the later is kept. */
  function ByName(msgrs: seq<Messenger>): map<string, Messenger> {
    if msgrs == [] then map[]
    else ByName(msgrs[..|msgrs| - 1])[msgrs[|msgrs| - 1].name := msgrs[|msgrs| - 1]]
  }

  lemma ByNameNext(msgrs: seq<Messenger>, i: nat)
    requires i < |msgrs|
    ensures ByName(msgrs[..i + 1]) == ByName(msgrs[..i])[msgrs[i].name := msgrs[i]]
  {
    assert msgrs[..i + 1][..i] == msgrs[..i];
  }

  ghost predicate LastNamed(msgrs: seq<Messenger>, name: string, k: nat) {
    k < |msgrs| && msgrs[k].name == name && forall j :: k < j < |msgrs| ==> msgrs[j].name != name
  }

  /** A name finds the last of the messengers that have it. */
  lemma {:induction false} ByNameExact(msgrs: seq<Messenger>, name: string)
    ensures name in ByName(msgrs) <==> exists k :: 0 <= k < |msgrs| && msgrs[k].name == name
    ensures forall k: nat :: LastNamed(msgrs, name, k) ==> name in ByName(msgrs) && ByName(msgrs)[name] == msgrs[k]
  {
    hide ByName;
    if forall k :: 0 <= k < |msgrs| ==> msgrs[k].name != name {
      NobodyNamed(msgrs, name);
    } else {
      var k := LastOf(msgrs, name);
      FindsLast(msgrs, name, k);
      assert msgrs[k].name == name;
    }
    forall k: nat | LastNamed(msgrs, name, k)
      ensures name in ByName(msgrs) && ByName(msgrs)[name] == msgrs[k]
    {
      FindsLast(msgrs, name, k);
    }
  }

  lemma {:induction false} NobodyNamed(msgrs: seq<Messenger>, name: string)
    requires forall k :: 0 <= k < |msgrs| ==> msgrs[k].name != name
    ensures name !in ByName(msgrs)
  {
    if msgrs != [] {
      NobodyNamed(msgrs[..|msgrs| - 1], name);
    }
  }

  lemma {:induction false} FindsLast(msgrs: seq<Messenger>, name: string, k: nat)
    requires LastNamed(msgrs, name, k)
    ensures name in ByName(msgrs) && ByName(msgrs)[name] == msgrs[k]
  {
    var n := |msgrs| - 1;
    if k < n {
      assert msgrs[n].name != name && msgrs[..n][k] == msgrs[k];
      FindsLast(msgrs[..n], name, k);
    }
  }

  lemma {:induction false} LastOf(msgrs: seq<Messenger>, name: string) returns (k: nat)
    requires exists k :: 0 <= k < |msgrs| && msgrs[k].name == name
    ensures LastNamed(msgrs, name, k)
  {
    var n := |msgrs| - 1;
    if msgrs[n].name == name {
      k := n;
    } else {
      var j :| 0 <= j < |msgrs| && msgrs[j].name == name;
      assert msgrs[..n][j].name == name;
      k := LastOf(msgrs[..n], name);
    }
  }

  datatype Store =
    | S3(url: string, publicURL: string, accessKey: string, secretKey: string, region: string, bucket: string,
         bucketPath: string, bucketType: string, expiry: string, rootURL: string)
    | Filesystem(path: string, uri: string, rootURL: string)

  /** The store, and of the settings kept with it those that uploads look at. */
  datatype Media = Media(store: Store, extensions: seq<string>, maxFileSize: int)

  /** clean is filepath.Clean. */
  function BuildMedia(s: Settings, clean: string -> string): Result<Media, BuildError> {
    if s.uploadProvider == "s3" then
      Ok(Media(S3(s.s3URL, s.s3PublicURL, s.s3AccessKeyID, s.s3SecretAccessKey, s.s3DefaultRegion, s.s3Bucket,
                  s.s3BucketPath, s.s3BucketType, s.s3Expiry, s.rootURL), s.uploadExtensions, s.uploadMaxFileSize))
    else if s.uploadProvider == "filesystem" then
      Ok(Media(Filesystem(clean(s.uploadPath), clean(s.uploadURI), s.rootURL), s.uploadExtensions, s.uploadMaxFileSize))
    else Err(UnknownProvider)
  }

  /** A store for the settings: of the provider named, with each of its settings where it belongs. */
  ghost predicate MediaFor(s: Settings, clean: string -> string, m: Media) {
    && m.extensions == s.uploadExtensions && m.maxFileSize == s.uploadMaxFileSize
    && (s.uploadProvider == "filesystem" || s.uploadProvider == "s3")
    && (s.uploadProvider == "filesystem" ==>
          && m.store.Filesystem? && m.store.path == clean(s.uploadPath) && m.store.uri == clean(s.uploadURI)
          && m.store.rootURL == s.rootURL)
    && (s.uploadProvider == "s3" ==>
          && m.store.S3? && m.store.url == s.s3URL && m.store.publicURL == s.s3PublicURL
          && m.store.accessKey == s.s3AccessKeyID && m.store.secretKey == s.s3SecretAccessKey
          && m.store.region == s.s3DefaultRegion && m.store.bucket == s.s3Bucket
          && m.store.bucketPath == s.s3BucketPath && m.store.bucketType == s.s3BucketType
          && m.store.expiry == s.s3Expiry && m.store.rootURL == s.rootURL)
  }

  datatype OIDCState = OIDCState(
    providerURL: string, clientID: string, clientSecret: string, autoCreateUsers: bool,
    userRole: int, listRole: int, redirectURL: string)

  function RoleOrZero(r: Option<int>): int {
    if r.Some? then r.value else 0
  }

  /** reachable says whether the provider answers discovery. */
  function BuildOIDC(s: Settings, reachable: string -> bool): Result<OIDCState, BuildError> {
    if !s.oidc.enabled then Err(OIDCDisabled)
    else if !reachable(s.oidc.providerURL) then Err(NoProvider)
    else Ok(OIDCState(s.oidc.providerURL, s.oidc.clientID, s.oidc.clientSecret, s.oidc.autoCreateUsers,
                      RoleOrZero(s.oidc.userRole), RoleOrZero(s.oidc.listRole),
                      TrimRightSlash(s.rootURL) + "/auth/oidc"))
  }

  /** Sign-in as the settings have it, with the redirect under the tenant's root URL. */
  ghost predicate OIDCFor(s: Settings, t: OIDCState) {
    && s.oidc.enabled
    && t.providerURL == s.oidc.providerURL && t.clientID == s.oidc.clientID && t.clientSecret == s.oidc.clientSecret
    && t.autoCreateUsers == s.oidc.autoCreateUsers
    && (s.oidc.userRole.Some? ==> t.userRole == s.oidc.userRole.value) && (s.oidc.userRole.None? ==> t.userRole == 0)
    && (s.oidc.listRole.Some? ==> t.listRole == s.oidc.listRole.value) && (s.oidc.listRole.None? ==> t.listRole == 0)
    && t.redirectURL == TrimRightSlash(s.rootURL) + "/auth/oidc"
  }

  /** The importer's domain rules, and the settings its Scrub hook keeps. */
  datatype Importer = Importer(blocklist: seq<string>, allowlist: seq<string>, scrub: Scrub, rootURL: string)

  function BuildImporter(s: Settings): Importer {
    Importer(s.domainBlocklist, s.domainAllowlist, s.scrub, s.rootURL)
  }

  const NO_OIDC: OIDC := OIDC(false, "", "", "", "", false, None, None)
  const NO_CLEANUP: Cleanup := Cleanup(false, 0, "")

  function WithoutTenantCachedGroups(s: Settings): Settings {
    s.(smtp := [], oidc := NO_OIDC, uploadProvider := "", uploadExtensions := [], uploadPath := "", uploadURI := "",
       s3URL := "", s3PublicURL := "", s3AccessKeyID := "", s3DefaultRegion := "", s3SecretAccessKey := "",
       s3Bucket := "", s3BucketDomain := "", s3BucketPath := "", s3BucketType := "", s3Expiry := "",
       inactiveCleanup := NO_CLEANUP)
  }

  datatype Changes = Changes(smtp: bool, media: bool, oidc: bool, other: bool)

  function DiffSettingsGroups(cur: Settings, saved: Settings): Changes {
    Changes(
      cur.smtp != saved.smtp,
      cur.uploadProvider != saved.uploadProvider || cur.uploadExtensions != saved.uploadExtensions
      || cur.uploadPath != saved.uploadPath || cur.uploadURI != saved.uploadURI
      || cur.s3URL != saved.s3URL || cur.s3PublicURL != saved.s3PublicURL || cur.s3AccessKeyID != saved.s3AccessKeyID
      || cur.s3DefaultRegion != saved.s3DefaultRegion || cur.s3SecretAccessKey != saved.s3SecretAccessKey
      || cur.s3Bucket != saved.s3Bucket || cur.s3BucketDomain != saved.s3BucketDomain
      || cur.s3BucketPath != saved.s3BucketPath || cur.s3BucketType != saved.s3BucketType
      || cur.s3Expiry != saved.s3Expiry,
      cur.oidc != saved.oidc,
      WithoutTenantCachedGroups(cur) != WithoutTenantCachedGroups(saved))
  }

  /** What is stored: a platform-managed Scrub configuration stays as it was. */
  function Stored(cur: Settings, saved: Settings): Settings {
    if cur.scrub.managed then saved.(scrub := cur.scrub) else saved
  }

  /** The caches, and the value each keeps. */
  datatype CacheName = Messengers | MediaStore | OIDCConfig | Importers

  datatype Built =
    | BuiltMessengers(byName: map<string, Messenger>)
    | BuiltMedia(media: Media)
    | BuiltOIDC(state: OIDCState)
    | BuiltImporter(importer: Importer)

  /** What the builds ask of the world outside: fixed answers. */
  datatype Oracles = Oracles(valid: Server -> bool, clean: string -> string, reachable: string -> bool)

  function Build(o: Oracles, name: CacheName, s: Settings): Option<Built> {
    match name
    case Messengers =>
      var r := SMTPMessengers(s.smtp, o.valid);
      if r.Ok? then Some(BuiltMessengers(ByName(r.value))) else None
    case MediaStore =>
      var r := BuildMedia(s, o.clean);
      if r.Ok? then Some(BuiltMedia(r.value)) else None
    case OIDCConfig =>
      var r := BuildOIDC(s, o.reachable);
      if r.Ok? then Some(BuiltOIDC(r.value)) else None
    case Importers => Some(BuiltImporter(BuildImporter(s)))
  }

  function Evicted(c: Changes): set<CacheName> {
    (if c.smtp then {Messengers} else {}) + (if c.media then {MediaStore} else {})
    + (if c.oidc then {OIDCConfig} else {})
  }

  /** What follows a save: a restart, or else evictions. */
  datatype Effect = Effect(evict: set<CacheName>, restart: bool)

  function SaveEffect(cur: Settings, saved: Settings): Effect {
    var c := DiffSettingsGroups(cur, saved);
    if c.other then Effect({}, true) else Effect(Evicted(c), false)
  }

  /**
   Change detection is sound, for every pair of settings: a cache whose build
   the save changes is evicted, or a restart is asked for.
   */
  lemma SaveEffectSound(o: Oracles, cur: Settings, saved: Settings, name: CacheName)
    requires Build(o, name, cur) != Build(o, name, Stored(cur, saved))
    ensures SaveEffect(cur, saved).restart || name in SaveEffect(cur, saved).evict
  {
  }

  /**
   A save raises no flag, and nothing follows it, exactly when it changes nothing
   but the cleanup, which nothing keeps.
   */
  lemma SaveEffectExact(cur: Settings, saved: Settings)
    ensures DiffSettingsGroups(cur, saved) == Changes(false, false, false, false) <==>
            saved == cur.(inactiveCleanup := saved.inactiveCleanup)
    ensures SaveEffect(cur, saved) == Effect({}, false) <==> saved == cur.(inactiveCleanup := saved.inactiveCleanup)
  {
  }

  /** saved with the upload settings the store is rebuilt for put back to what they were. */
  function UploadBack(cur: Settings, saved: Settings): Settings {
    saved.(uploadProvider := cur.uploadProvider, uploadExtensions := cur.uploadExtensions, uploadPath := cur.uploadPath,
           uploadURI := cur.uploadURI, s3URL := cur.s3URL, s3PublicURL := cur.s3PublicURL,
           s3AccessKeyID := cur.s3AccessKeyID, s3DefaultRegion := cur.s3DefaultRegion,
           s3SecretAccessKey := cur.s3SecretAccessKey, s3Bucket := cur.s3Bucket, s3BucketDomain := cur.s3BucketDomain,
           s3BucketPath := cur.s3BucketPath, s3BucketType := cur.s3BucketType, s3Expiry := cur.s3Expiry)
  }

  /**
   A restart is asked for exactly when something changes outside the servers, the
   uploads, sign-in and the cleanup. Otherwise exactly the caches are evicted
   whose own settings change; importers never are.
   */
  lemma SaveEffectOnlyAsNeeded(cur: Settings, saved: Settings)
    ensures var e := SaveEffect(cur, saved);
      && (e.restart <==>
            UploadBack(cur, saved).(smtp := cur.smtp, oidc := cur.oidc, inactiveCleanup := cur.inactiveCleanup) != cur)
      && (Messengers in e.evict <==> !e.restart && saved.smtp != cur.smtp)
      && (MediaStore in e.evict <==> !e.restart && saved != UploadBack(cur, saved))
      && (OIDCConfig in e.evict <==> !e.restart && saved.oidc != cur.oidc)
      && Importers !in e.evict
  {
  }

  /** What a save stores is what was sent, but for a Scrub configuration the platform manages. */
  lemma StoredExact(cur: Settings, saved: Settings)
    ensures Stored(cur, saved).scrub == (if cur.scrub.managed then cur.scrub else saved.scrub)
    ensures Stored(cur, saved) == saved.(scrub := Stored(cur, saved).scrub)
  {
  }

  const UPLOAD: string := "upload."

  function KeyEffect(key: string): Effect {
    if key == "smtp" then Effect({Messengers}, false)
    else if UPLOAD <= key then Effect({MediaStore}, false)
    else if key == "security.oidc" then Effect({OIDCConfig}, false)
    else if key == "inactive_cleanup" then Effect({}, false)
    else Effect({}, true)
  }

  /** A save by key evicts the cache of its group, or none for the cleanup; any other key asks for a restart. */
  lemma KeyEffectOnlyAsNeeded(key: string)
    ensures var e := KeyEffect(key);
      && (Messengers in e.evict <==> key == "smtp")
      && (MediaStore in e.evict <==> |key| >= 7 && key[..7] == "upload.")
      && (OIDCConfig in e.evict <==> key == "security.oidc")
      && Importers !in e.evict
      && (e.restart <==> e.evict == {} && key != "inactive_cleanup")
  {
    FewKeys();
    assert UPLOAD <= key <==> |key| >= 7 && key[..7] == UPLOAD;
    var e := KeyEffect(key);
    assert e.evict != {} ==> Messengers in e.evict || MediaStore in e.evict || OIDCConfig in e.evict;
  }

  /** t is s but for the one row a save by key replaces. */
  predicate DiffersAt(s: Settings, t: Settings, key: string) {
    && (key != "smtp" ==> t.smtp == s.smtp)
    && (key != "security.oidc" ==> t.oidc == s.oidc)
    && (key != "inactive_cleanup" ==> t.inactiveCleanup == s.inactiveCleanup)
    && (key != "upload.provider" ==> t.uploadProvider == s.uploadProvider)
    && (key != "upload.extensions" ==> t.uploadExtensions == s.uploadExtensions)
    && (key != "upload.max_file_size" ==> t.uploadMaxFileSize == s.uploadMaxFileSize)
    && (key != "upload.filesystem.upload_path" ==> t.uploadPath == s.uploadPath)
    && (key != "upload.filesystem.upload_uri" ==> t.uploadURI == s.uploadURI)
    && DiffersAtS3(s, t, key)
    && (key != "app.root_url" ==> t.rootURL == s.rootURL)
    && (key != "privacy.domain_blocklist" ==> t.domainBlocklist == s.domainBlocklist)
    && (key != "privacy.domain_allowlist" ==> t.domainAllowlist == s.domainAllowlist)
    && (key != "scrub" ==> t.scrub == s.scrub)
    && (key != "messengers" ==> t.messengers == s.messengers)
    && (key != "bounce.mailboxes" ==> t.bounceBoxes == s.bounceBoxes)
  }

  predicate DiffersAtS3(s: Settings, t: Settings, key: string) {
    && (key != "upload.s3.url" ==> t.s3URL == s.s3URL)
    && (key != "upload.s3.public_url" ==> t.s3PublicURL == s.s3PublicURL)
    && (key != "upload.s3.aws_access_key_id" ==> t.s3AccessKeyID == s.s3AccessKeyID)
    && (key != "upload.s3.aws_default_region" ==> t.s3DefaultRegion == s.s3DefaultRegion)
    && (key != "upload.s3.aws_secret_access_key" ==> t.s3SecretAccessKey == s.s3SecretAccessKey)
    && (key != "upload.s3.bucket" ==> t.s3Bucket == s.s3Bucket)
    && (key != "upload.s3.bucket_domain" ==> t.s3BucketDomain == s.s3BucketDomain)
    && (key != "upload.s3.bucket_path" ==> t.s3BucketPath == s.s3BucketPath)
    && (key != "upload.s3.bucket_type" ==> t.s3BucketType == s.s3BucketType)
    && (key != "upload.s3.expiry" ==> t.s3Expiry == s.s3Expiry)
  }

  lemma UploadKeys()
    ensures UPLOAD <= "upload.provider" && UPLOAD <= "upload.extensions" && UPLOAD <= "upload.max_file_size"
    ensures UPLOAD <= "upload.filesystem.upload_path" && UPLOAD <= "upload.filesystem.upload_uri"
  {
  }

  lemma S3Keys()
    ensures UPLOAD <= "upload.s3.url" && UPLOAD <= "upload.s3.public_url" && UPLOAD <= "upload.s3.aws_access_key_id"
    ensures UPLOAD <= "upload.s3.aws_default_region" && UPLOAD <= "upload.s3.aws_secret_access_key"
    ensures UPLOAD <= "upload.s3.bucket" && UPLOAD <= "upload.s3.bucket_domain" && UPLOAD <= "upload.s3.bucket_path"
    ensures UPLOAD <= "upload.s3.bucket_type" && UPLOAD <= "upload.s3.expiry"
  {
  }

  /** A key outside the upload group leaves the store's settings alone. */
  lemma OtherKeysKeepMedia(o: Oracles, cur: Settings, stored: Settings, key: string)
    requires DiffersAt(cur, stored, key) && !(UPLOAD <= key) && key != "app.root_url"
    ensures Build(o, MediaStore, cur) == Build(o, MediaStore, stored)
  {
    UploadKeys();
    S3Keys();
    hide SMTPMessengers, ByName, TrimRightSlash;
  }

  /** A save by key is handled as soundly: every key a cache reads evicts it or asks for a restart. */
  lemma KeyEffectSound(o: Oracles, cur: Settings, stored: Settings, key: string, name: CacheName)
    requires DiffersAt(cur, stored, key) && Build(o, name, cur) != Build(o, name, stored)
    ensures KeyEffect(key).restart || name in KeyEffect(key).evict
  {
    FewKeys();
    if name.MediaStore? {
      hide Build, DiffersAt;
      if !(UPLOAD <= key) && key != "app.root_url" {
        OtherKeysKeepMedia(o, cur, stored, key);
      }
    } else {
      OtherKeysKeepBuild(o, cur, stored, key, name);
    }
  }

  /** Every other cache reads rows that evict it or that no cache owns. */
  lemma OtherKeysKeepBuild(o: Oracles, cur: Settings, stored: Settings, key: string, name: CacheName)
    requires DiffersAt(cur, stored, key) && !name.MediaStore? && Build(o, name, cur) != Build(o, name, stored)
    ensures (name.Messengers? && key == "smtp") || (name.OIDCConfig? && key == "security.oidc")
      || key == "app.root_url" || key == "scrub"
      || key == "privacy.domain_blocklist" || key == "privacy.domain_allowlist"
  {
    hide SMTPMessengers, ByName, TrimRightSlash, DiffersAtS3, BuildMedia;
  }

  lemma FewKeys()
    ensures !(UPLOAD <= "smtp") && !(UPLOAD <= "security.oidc") && !(UPLOAD <= "app.root_url") && !(UPLOAD <= "scrub")
    ensures !(UPLOAD <= "privacy.domain_blocklist") && !(UPLOAD <= "privacy.domain_allowlist")
  {
    assert "security.oidc"[0] == 's' && "app.root_url"[0] == 'a' && UPLOAD[0] == 'u';
    assert "privacy.domain_blocklist"[0] == 'p' && "privacy.domain_allowlist"[0] == 'p';
  }
}
