/**
 The per-tenant caches: each Get holds its cache's lock while it looks up, reads
 the settings, builds and inserts. settings is None when they cannot be read.
 */
module TenantCaches {
  import opened Wrappers
  import opened Maps
  import opened TenantSettings

  datatype GetError = SettingsUnreadable | BuildFailed(reason: BuildError) | MessengerNotFound

  /** A cache's slot after a Get: what was there, or else what is built, or still nothing. */
  function Filled(o: Oracles, name: CacheName, slot: Option<Built>, settings: Option<Settings>): Option<Built> {
    if slot.Some? || settings.None? then slot else Build(o, name, settings.value)
  }

  class TenantMessengers {
    var cache: map<int, map<string, Messenger>>

    constructor ()
      ensures cache == map[]
    {
      cache := map[];
    }

    function Slot(tenant: int): Option<Built>
      reads this
    {
      if tenant in cache then Some(BuiltMessengers(cache[tenant])) else None
    }

    method Invalidate(tenant: int)
      modifies this
      ensures cache == old(cache) - {tenant}
    {
      cache := cache - {tenant};
    }

    /** The loop over the messengers built. */
    method MessengersByName(msgrs: seq<Messenger>) returns (m: map<string, Messenger>)
      ensures m == ByName(msgrs)
    {
      m := map[];
      for i := 0 to |msgrs|
        invariant m == ByName(msgrs[..i])
      {
        ByNameNext(msgrs, i);
        m := m[msgrs[i].name := msgrs[i]];
      }
      assert msgrs[..|msgrs|] == msgrs;
    }

    method GetMessenger(o: Oracles, tenant: int, name: string, settings: Option<Settings>)
      returns (r: Result<Messenger, GetError>)
      modifies this
      ensures Slot(tenant) == Filled(o, Messengers, old(Slot(tenant)), settings)
      ensures cache - {tenant} == old(cache) - {tenant}
      ensures tenant in old(cache) || settings.None? ==> cache == old(cache)
      ensures tenant in cache && tenant !in old(cache) ==>
        settings.Some? && cache[tenant] == ByName(SMTPMessengers(settings.value.smtp, o.valid).value)
      ensures tenant in cache ==>
        r == if name in cache[tenant] then Ok(cache[tenant][name]) else Err(MessengerNotFound)
      ensures tenant !in old(cache) ==>
        (tenant in cache <==> settings.Some? && forall s :: s in settings.value.smtp && s.enabled ==> o.valid(s))
      ensures tenant !in cache ==>
        r.Err? && r.error != MessengerNotFound && (settings.None? <==> r.error.SettingsUnreadable?)
    {
      if tenant in cache {
        if name in cache[tenant] {
          return Ok(cache[tenant][name]);
        }
        return Err(MessengerNotFound);
      }
      if settings.None? {
        return Err(SettingsUnreadable);
      }
      var built := InitSMTPMessengers(settings.value.smtp, o.valid);
      if built.Err? {
        return Err(BuildFailed(built.error));
      }
      hide ByName, SMTPMessengers;
      var m := MessengersByName(built.value);
      OthersStay(cache, tenant, m);
      cache := cache[tenant := m];
      if name in m {
        return Ok(m[name]);
      }
      return Err(MessengerNotFound);
    }
  }

  class TenantMedia {
    var cache: map<int, Media>

    constructor ()
      ensures cache == map[]
    {
      cache := map[];
    }

    function Slot(tenant: int): Option<Built>
      reads this
    {
      if tenant in cache then Some(BuiltMedia(cache[tenant])) else None
    }

    method Invalidate(tenant: int)
      modifies this
      ensures cache == old(cache) - {tenant}
    {
      cache := cache - {tenant};
    }

    method Get(o: Oracles, tenant: int, settings: Option<Settings>) returns (r: Result<Media, GetError>)
      modifies this
      ensures Slot(tenant) == Filled(o, MediaStore, old(Slot(tenant)), settings)
      ensures cache - {tenant} == old(cache) - {tenant}
      ensures r.Ok? <==> tenant in cache
      ensures r.Ok? ==> r.value == cache[tenant]
      ensures tenant in old(cache) ==> r == Ok(old(cache)[tenant])
      ensures tenant !in old(cache) && r.Ok? ==> settings.Some? && MediaFor(settings.value, o.clean, r.value)
      ensures tenant !in old(cache) ==>
        (r.Err? <==> settings.None? || settings.value.uploadProvider !in {"filesystem", "s3"})
    {
      if tenant in cache {
        return Ok(cache[tenant]);
      }
      if settings.None? {
        return Err(SettingsUnreadable);
      }
      var built := BuildMedia(settings.value, o.clean);
      if built.Err? {
        return Err(BuildFailed(built.error));
      }
      cache := cache[tenant := built.value];
      return Ok(built.value);
    }
  }

  class Auth {
    var oidcCache: map<int, OIDCState>

    constructor ()
      ensures oidcCache == map[]
    {
      oidcCache := map[];
    }

    function Slot(tenant: int): Option<Built>
      reads this
    {
      if tenant in oidcCache then Some(BuiltOIDC(oidcCache[tenant])) else None
    }

    method InvalidateOIDC(tenant: int)
      modifies this
      ensures oidcCache == old(oidcCache) - {tenant}
    {
      oidcCache := oidcCache - {tenant};
    }

    /** Called with the lock held, and only when nothing is cached. */
    method InitOIDC(o: Oracles, tenant: int, settings: Option<Settings>) returns (r: Result<OIDCState, GetError>)
      modifies this
      ensures r.Ok? <==> settings.Some? && BuildOIDC(settings.value, o.reachable).Ok?
      ensures r.Ok? ==> r.value == BuildOIDC(settings.value, o.reachable).value
      ensures oidcCache == if r.Ok? then old(oidcCache)[tenant := r.value] else old(oidcCache)
    {
      if settings.None? {
        return Err(SettingsUnreadable);
      }
      var built := BuildOIDC(settings.value, o.reachable);
      if built.Err? {
        return Err(BuildFailed(built.error));
      }
      oidcCache := oidcCache[tenant := built.value];
      return Ok(built.value);
    }

    method GetTenantOIDC(o: Oracles, tenant: int, settings: Option<Settings>) returns (r: Result<OIDCState, GetError>)
      modifies this
      ensures Slot(tenant) == Filled(o, OIDCConfig, old(Slot(tenant)), settings)
      ensures oidcCache - {tenant} == old(oidcCache) - {tenant}
      ensures r.Ok? <==> tenant in oidcCache
      ensures r.Ok? ==> r.value == oidcCache[tenant]
      ensures tenant in old(oidcCache) ==> r == Ok(old(oidcCache)[tenant])
      ensures tenant !in old(oidcCache) && r.Ok? ==> settings.Some? && OIDCFor(settings.value, r.value)
      ensures tenant !in old(oidcCache) ==>
        (r.Err? <==> settings.None? || !settings.value.oidc.enabled || !o.reachable(settings.value.oidc.providerURL))
    {
      if tenant in oidcCache {
        return Ok(oidcCache[tenant]);
      }
      r := InitOIDC(o, tenant, settings);
    }
  }

  /** Never evicted: a change waits for the restart. */
  class TenantImporters {
    var cache: map<int, Importer>

    constructor ()
      ensures cache == map[]
    {
      cache := map[];
    }

    function Slot(tenant: int): Option<Built>
      reads this
    {
      if tenant in cache then Some(BuiltImporter(cache[tenant])) else None
    }

    method Get(o: Oracles, tenant: int, settings: Option<Settings>) returns (r: Result<Importer, GetError>)
      modifies this
      ensures Slot(tenant) == Filled(o, Importers, old(Slot(tenant)), settings)
      ensures cache - {tenant} == old(cache) - {tenant}
      ensures r.Ok? <==> tenant in cache
      ensures r.Ok? ==> r.value == cache[tenant]
      ensures tenant in old(cache) ==> r == Ok(old(cache)[tenant])
      ensures tenant !in old(cache) ==>
        && (r.Err? <==> settings.None?)
        && (r.Ok? ==>
              && r.value.blocklist == settings.value.domainBlocklist
              && r.value.allowlist == settings.value.domainAllowlist
              && r.value.scrub == settings.value.scrub && r.value.rootURL == settings.value.rootURL)
    {
      if tenant in cache {
        return Ok(cache[tenant]);
      }
      if settings.None? {
        return Err(SettingsUnreadable);
      }
      var imp := BuildImporter(settings.value);
      cache := cache[tenant := imp];
      return Ok(imp);
    }
  }

  /** What a settings save does once it has written: evict, or see to a restart. */
  class SettingsApp {
    const msgrs: TenantMessengers
    const media: TenantMedia
    const auth: Auth
    var needsRestart: bool
    var reloading: bool

    constructor (msgrs: TenantMessengers, media: TenantMedia, auth: Auth)
      ensures this.msgrs == msgrs && this.media == media && this.auth == auth && !needsRestart && !reloading
    {
      this.msgrs, this.media, this.auth := msgrs, media, auth;
      needsRestart, reloading := false, false;
    }

    /** running: campaigns are being sent, so the user is told instead of the process reloaded. */
    method HandleSettingsRestart(running: bool)
      modifies `needsRestart, `reloading
      ensures needsRestart == (old(needsRestart) || running) && reloading == (old(reloading) || !running)
    {
      if running {
        needsRestart := true;
      } else {
        reloading := true;
      }
    }

    method InvalidateTenantCaches(tenant: int, c: Changes)
      modifies msgrs, media, auth
      ensures msgrs.cache == if c.smtp then old(msgrs.cache) - {tenant} else old(msgrs.cache)
      ensures media.cache == if c.media then old(media.cache) - {tenant} else old(media.cache)
      ensures auth.oidcCache == if c.oidc then old(auth.oidcCache) - {tenant} else old(auth.oidcCache)
    {
      if c.smtp {
        msgrs.Invalidate(tenant);
      }
      if c.media {
        media.Invalidate(tenant);
      }
      if c.oidc {
        auth.InvalidateOIDC(tenant);
      }
    }

    /** The end of a save: saved is what was sent to be stored, cur what was read at its start. */
    method FinishUpdateSettings(tenant: int, cur: Settings, saved: Settings, running: bool)
      modifies this, msgrs, media, auth
      ensures var e := SaveEffect(cur, saved);
        && msgrs.cache == (if Messengers in e.evict then old(msgrs.cache) - {tenant} else old(msgrs.cache))
        && media.cache == (if MediaStore in e.evict then old(media.cache) - {tenant} else old(media.cache))
        && auth.oidcCache == (if OIDCConfig in e.evict then old(auth.oidcCache) - {tenant} else old(auth.oidcCache))
        && ((needsRestart || reloading) <==> (old(needsRestart || reloading) || e.restart))
    {
      var changes := DiffSettingsGroups(cur, saved);
      hide DiffSettingsGroups;
      if changes.other {
        HandleSettingsRestart(running);
        return;
      }
      InvalidateTenantCaches(tenant, changes);
    }

    method FinishUpdateSettingsByKey(tenant: int, key: string, running: bool)
      modifies this, msgrs, media, auth
      ensures var e := KeyEffect(key);
        && msgrs.cache == (if Messengers in e.evict then old(msgrs.cache) - {tenant} else old(msgrs.cache))
        && media.cache == (if MediaStore in e.evict then old(media.cache) - {tenant} else old(media.cache))
        && auth.oidcCache == (if OIDCConfig in e.evict then old(auth.oidcCache) - {tenant} else old(auth.oidcCache))
        && ((needsRestart || reloading) <==> (old(needsRestart || reloading) || e.restart))
    {
      if key == "smtp" {
        msgrs.Invalidate(tenant);
      } else if UPLOAD <= key {
        media.Invalidate(tenant);
      } else if key == "security.oidc" {
        auth.InvalidateOIDC(tenant);
      } else if key == "inactive_cleanup" {
      } else {
        HandleSettingsRestart(running);
      }
    }
  }
}
