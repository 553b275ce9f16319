/** The session manager: PHP's custom session save handler backed by a table
    of session records. One manager exists per request; it resumes the
    client's session or replaces it, and serves the runtime's read, write,
    destroy and garbage-collection callbacks.

    The session table is an abstract map from session id to record. The PHP
    runtime is replaced by parameters (the current session id, the id a
    regeneration produced, the clock) and by a log of the `setcookie` calls. */
module Sessions {
  import opened Wrappers
  import Php

  /** A row of the session table. */
  datatype SessionRecord = SessionRecord(
    id: string,
    ipAddress: string,
    userAgent: string,
    secondsCreated: int,
    secondsLastUsed: int,
    remember: bool,
    domain: string,
    sessionData: string)

  type Store = map<string, SessionRecord>

  /** Every row is stored under its own id (the table's primary key). */
  predicate StoreKeyed(store: Store) {
    forall k :: k in store ==> store[k].id == k
  }

  /** The request attributes the manager reads. */
  datatype Request = Request(serverHost: string, remoteAddr: string, userAgent: string)

  /** `security.session_check_ip` and `general.session_lifetime` (in days). */
  datatype Config = Config(sessionCheckIp: bool, sessionLifetime: int)

  /** One `setcookie` call on the session cookie. The cookie's name and path
      are configuration and are not recorded; a missing domain is PHP's
      `false`. */
  datatype Cookie = Cookie(value: string, expires: int, domain: Option<string>)

  const SecondsPerDay: int := 86400
  const MaxUserAgentLength: nat := 255

  function Lookup(store: Store, id: string): (r: Option<SessionRecord>)
    ensures r.Some? <==> id in store
    ensures r.Some? ==> r.value == store[id]
  {
    if id in store then Some(store[id]) else None
  }

  // -----------------------------------------------------------------------
  // Decisions taken when the manager is constructed
  // -----------------------------------------------------------------------

  /** The parent-domain rule: a resumed session whose stored cookie domain is
      set and differs from the current host moves the cookie to that domain
      when the host, lower-cased, ends in `'.'` followed by the lower-cased
      stored domain (the host is a subdomain of it). */
  predicate WidensCookieDomain(stored: string, host: string) {
    Php.Truthy(stored) && stored != host
    && Php.Lower(Php.SubstrTail(host, 1 + |stored|)) == "." + Php.Lower(stored)
  }

  /** The `substr`/`strtolower` comparison is exactly a case-insensitive
      subdomain test. */
  lemma WidensIffSubdomain(stored: string, host: string)
    ensures WidensCookieDomain(stored, host)
        <==> Php.Truthy(stored) && stored != host && Php.EndsWith(Php.Lower(host), "." + Php.Lower(stored))
  {
    var n := 1 + |stored|;
    if n <= |host| {
      Php.LowerSuffix(host, |host| - n);
      assert |"." + Php.Lower(stored)| == n;
    } else {
      assert |Php.Lower(Php.SubstrTail(host, n))| == |host| < n;
      assert |"." + Php.Lower(stored)| == n;
    }
  }

  /** The effective session-cookie domain after construction: the current
      host, or the loaded session's stored domain when the parent-domain rule
      applies. */
  function EffectiveCookieDomain(loaded: Option<SessionRecord>, host: string): (d: string)
    ensures d == host || (loaded.Some? && d == loaded.value.domain && WidensCookieDomain(d, host))
    ensures loaded.Some? && WidensCookieDomain(loaded.value.domain, host) ==> d == loaded.value.domain
  {
    if loaded.Some? && WidensCookieDomain(loaded.value.domain, host) then loaded.value.domain else host
  }

  /** A new record is needed when no session was loaded, when IP checking is
      on and the stored IP differs, or when the stored user agent differs
      from the first 255 characters of the current one (PHP counts bytes;
      here a character is one unit). */
  predicate NeedsNewSession(loaded: Option<SessionRecord>, config: Config, request: Request)
    ensures loaded.None? ==> NeedsNewSession(loaded, config, request)
    ensures loaded.Some? && |loaded.value.userAgent| > MaxUserAgentLength ==> NeedsNewSession(loaded, config, request)
  {
    loaded.None?
    || (config.sessionCheckIp && loaded.value.ipAddress != request.remoteAddr)
    || loaded.value.userAgent != Php.Prefix(request.userAgent, MaxUserAgentLength)
  }

  /** A loaded session is resumed exactly when its fingerprint matches. */
  lemma ResumeIffFingerprintMatches(rec: SessionRecord, config: Config, request: Request)
    ensures !NeedsNewSession(Some(rec), config, request)
        <==> (!config.sessionCheckIp || rec.ipAddress == request.remoteAddr)
             && rec.userAgent == Php.Prefix(request.userAgent, MaxUserAgentLength)
  {
  }

  /** The fresh record: the current session id, the request's IP and (full)
      user agent, created and last used now, the effective cookie domain, no
      payload, not remembered. */
  function NewSession(id: string, request: Request, now: int, domain: string): (r: SessionRecord)
    ensures r.id == id && r.secondsCreated == now && r.secondsLastUsed == now
    ensures r.sessionData == "" && !r.remember && r.domain == domain
    ensures r.ipAddress == request.remoteAddr && r.userAgent == request.userAgent
  {
    SessionRecord(id, request.remoteAddr, request.userAgent, now, now, false, domain, "")
  }

  /** The resumed record: last used now; a remembered session stays
      remembered only while a positive lifetime is configured. */
  function Resumed(rec: SessionRecord, config: Config, now: int): (r: SessionRecord)
    ensures r.id == rec.id && r.secondsLastUsed == now && r.secondsCreated == rec.secondsCreated
    ensures r.remember == (rec.remember && config.sessionLifetime > 0)
    ensures r.sessionData == rec.sessionData && r.domain == rec.domain
    ensures r.ipAddress == rec.ipAddress && r.userAgent == rec.userAgent
  {
    var kept := if rec.remember && config.sessionLifetime <= 0 then rec.(remember := false) else rec;
    kept.(secondsLastUsed := now)
  }

  // -----------------------------------------------------------------------
  // Cookies
  // -----------------------------------------------------------------------

  /** The `setcookie` calls of `updateSessionCookie`: a cookie domain without
      a `'.'` counts as no domain; with a domain, a domain-less cookie is
      cleared first, then the session cookie is set on that domain. */
  function CookieEffects(cookieDomain: string, value: string, expires: int): (r: seq<Cookie>)
    ensures '.' !in cookieDomain ==> r == [Cookie(value, expires, None)]
    ensures '.' in cookieDomain ==> r == [Cookie("", 0, None), Cookie(value, expires, Some(cookieDomain))]
  {
    var domain := if '.' in cookieDomain then Some(cookieDomain) else None;
    (if domain.Some? then [Cookie("", 0, None)] else []) + [Cookie(value, expires, domain)]
  }

  /** The cookies set when a session is resumed: a remembered session's
      cookie expires `session_lifetime` days from now, or becomes a
      browser-session cookie when no positive lifetime is configured. */
  function RememberCookies(rec: SessionRecord, config: Config, now: int, cookieDomain: string, id: string): (r: seq<Cookie>)
    ensures !rec.remember ==> r == []
    ensures rec.remember && config.sessionLifetime > 0
        ==> r == CookieEffects(cookieDomain, id, now + config.sessionLifetime * SecondsPerDay)
    ensures rec.remember && config.sessionLifetime <= 0 ==> r == CookieEffects(cookieDomain, id, 0)
  {
    if !rec.remember then []
    else if config.sessionLifetime > 0 then CookieEffects(cookieDomain, id, now + config.sessionLifetime * SecondsPerDay)
    else CookieEffects(cookieDomain, id, 0)
  }

  // -----------------------------------------------------------------------
  // Garbage collection
  // -----------------------------------------------------------------------

  /** The second cutoff `gc` passes: none (`0`) without a positive lifetime,
      else `session_lifetime` days before now. */
  function GcRememberCutoff(now: int, lifetime: int): (c: int)
    ensures lifetime <= 0 ==> c == 0
    ensures lifetime > 0 ==> c == now - lifetime * SecondsPerDay
  {
    if lifetime <= 0 then 0 else now - lifetime * SecondsPerDay
  }

  /** The rows `deleteByLastUsed($lastUsed, $lastUsedRemember)` removes:
      non-remembered rows last used before `lastUsed`, and, when
      `lastUsedRemember` is not `0`, remembered rows last used before it. */
  predicate Expired(r: SessionRecord, lastUsed: int, lastUsedRemember: int) {
    (!r.remember && r.secondsLastUsed < lastUsed)
    || (lastUsedRemember != 0 && r.remember && r.secondsLastUsed < lastUsedRemember)
  }

  function DeleteByLastUsed(store: Store, lastUsed: int, lastUsedRemember: int): (r: Store)
    ensures forall k :: k in r <==> k in store && !Expired(store[k], lastUsed, lastUsedRemember)
    ensures forall k :: k in r ==> r[k] == store[k]
  {
    map k | k in store && !Expired(store[k], lastUsed, lastUsedRemember) :: store[k]
  }

  /** The store after `gc` at time `now`. */
  function Collected(store: Store, now: int, lifetime: int): (r: Store)
    ensures r.Keys <= store.Keys
    ensures forall k :: k in r ==> r[k] == store[k]
  {
    DeleteByLastUsed(store, now - SecondsPerDay, GcRememberCutoff(now, lifetime))
  }

  /** No row used within the last 24 hours is ever collected, whatever the
      configured lifetime. */
  lemma GcKeepsRecent(store: Store, now: int, lifetime: int, k: string)
    requires k in store && store[k].secondsLastUsed >= now - SecondsPerDay
    ensures k in Collected(store, now, lifetime) && Collected(store, now, lifetime)[k] == store[k]
  {
    if lifetime > 0 {
      assert lifetime * SecondsPerDay >= SecondsPerDay;
    }
  }

  /** A non-remembered row last used more than 24 hours ago is collected. */
  lemma GcDropsStale(store: Store, now: int, lifetime: int, k: string)
    requires k in store && !store[k].remember && store[k].secondsLastUsed < now - SecondsPerDay
    ensures k !in Collected(store, now, lifetime)
  {
  }

  /** Without a positive lifetime remembered rows are never collected; with
      one, a remembered row is collected exactly when it was last used before
      the lifetime's cutoff. */
  lemma GcRemembered(store: Store, now: int, lifetime: int, k: string)
    requires k in store && store[k].remember
    ensures lifetime <= 0 ==> k in Collected(store, now, lifetime)
    ensures lifetime > 0 && now != lifetime * SecondsPerDay
        ==> (k !in Collected(store, now, lifetime) <==> store[k].secondsLastUsed < now - lifetime * SecondsPerDay)
  {
  }

  /** Collection keeps the store keyed. */
  lemma CollectedKeyed(store: Store, now: int, lifetime: int)
    requires StoreKeyed(store)
    ensures StoreKeyed(Collected(store, now, lifetime))
  {
  }

  // -----------------------------------------------------------------------
  // The manager
  // -----------------------------------------------------------------------

  /** The row the session table holds for a record: the `user_agent` column
      keeps the first 255 characters of the agent; every other field is
      stored as it is. */
  function StoredRow(rec: SessionRecord): (r: SessionRecord)
    ensures r.userAgent == Php.Prefix(rec.userAgent, MaxUserAgentLength)
    ensures r == rec.(userAgent := r.userAgent)
    ensures |rec.userAgent| <= MaxUserAgentLength ==> r == rec
  {
    rec.(userAgent := Php.Prefix(rec.userAgent, MaxUserAgentLength))
  }

  /** `insertObject`: write the record's row under its id. */
  function InsertRow(store: Store, rec: SessionRecord): (r: Store)
    ensures r.Keys == store.Keys + {rec.id}
    ensures r[rec.id] == StoredRow(rec)
    ensures forall k :: k in store && k != rec.id ==> r[k] == store[k]
  {
    store[rec.id := StoredRow(rec)]
  }

  /** `updateObject`: rewrite the row with the record's id; an UPDATE of a row
      that is not there changes nothing. */
  function UpdateRow(store: Store, rec: SessionRecord): (r: Store)
    ensures r.Keys == store.Keys
    ensures rec.id in store ==> r[rec.id] == StoredRow(rec)
    ensures forall k :: k in store && k != rec.id ==> r[k] == store[k]
  {
    if rec.id in store then InsertRow(store, rec) else store
  }

  /** A record created for a request is resumed by the next request from the
      same client: the stored row matches the fingerprint, however long the
      user agent is. */
  lemma NewSessionResumes(id: string, request: Request, now: int, domain: string, config: Config)
    ensures !NeedsNewSession(Some(StoredRow(NewSession(id, request, now, domain))), config, request)
  {
  }

  class SessionManager {
    /** The session table. */
    var store: Store
    /** The session loaded for this request (`$this->userSession`). */
    var userSession: Option<SessionRecord>
    /** The runtime's current session id (`session_id()`). */
    var sessionId: string
    /** The runtime's `session.cookie_domain` setting. */
    var cookieDomain: string
    /** The `setcookie` calls made so far, in order. */
    var cookies: seq<Cookie>
    const config: Config

    predicate Valid()
      reads this
    {
      StoreKeyed(store)
    }

    /** Resume or replace the client's session. `sessionId` is the id the
        runtime's `session_start()` settled on; starting the session invokes
        the read callback, which loads the stored record, if any. */
    constructor (store: Store, request: Request, config: Config, sessionId: string, now: int)
      requires StoreKeyed(store)
      ensures Valid()
      ensures this.config == config && this.sessionId == sessionId
      ensures cookieDomain == EffectiveCookieDomain(Lookup(store, sessionId), request.serverHost)
      ensures NeedsNewSession(Lookup(store, sessionId), config, request) ==>
        && userSession == Some(NewSession(sessionId, request, now, cookieDomain))
        && this.store == InsertRow(store, userSession.value)
        && cookies == []
      ensures !NeedsNewSession(Lookup(store, sessionId), config, request) ==>
        && userSession == Some(Resumed(store[sessionId], config, now))
        && this.store == store
        && cookies == RememberCookies(store[sessionId], config, now, cookieDomain, sessionId)
    {
      this.store := store;
      this.userSession := None;
      this.sessionId := sessionId;
      this.cookieDomain := request.serverHost;
      this.cookies := [];
      this.config := config;
      new;
      ghost var loaded := Lookup(store, sessionId);
      var _ := Read(sessionId);
      assert userSession == loaded;
      if userSession.Some? && WidensCookieDomain(userSession.value.domain, request.serverHost) {
        cookieDomain := userSession.value.domain;
      }
      assert cookieDomain == EffectiveCookieDomain(loaded, request.serverHost);
      if NeedsNewSession(userSession, config, request) {
        ReplaceSession(request, now);
      } else {
        ResumeSession(now);
      }
    }

    /** The replacement branch of the constructor: the loaded record, if any,
        is destroyed, and a new record is created and inserted. */
    method ReplaceSession(request: Request, now: int)
      requires Valid()
      modifies this`store, this`userSession
      ensures Valid()
      ensures userSession == Some(NewSession(sessionId, request, now, cookieDomain))
      ensures store == InsertRow(if old(userSession).Some? then old(store) - {sessionId} else old(store), userSession.value)
    {
      if userSession.Some? {
        // session_destroy() invokes the destroy callback
        var _ := Destroy(sessionId);
      }
      userSession := Some(NewSession(sessionId, request, now, cookieDomain));
      store := InsertRow(store, userSession.value);
    }

    /** The resumption branch of the constructor: a remembered session's
        cookie is re-sent, and the record is marked as used now. */
    method ResumeSession(now: int)
      requires userSession.Some?
      modifies this`userSession, this`cookies
      ensures userSession == Some(Resumed(old(userSession).value, config, now))
      ensures cookies == old(cookies) + RememberCookies(old(userSession).value, config, now, cookieDomain, sessionId)
    {
      if userSession.value.remember {
        if config.sessionLifetime > 0 {
          UpdateSessionLifetime(now + config.sessionLifetime * SecondsPerDay);
        } else {
          userSession := Some(userSession.value.(remember := false));
          UpdateSessionLifetime(0);
        }
      }
      userSession := Some(userSession.value.(secondsLastUsed := now));
    }

    /** The read callback: loads the record only when none is loaded yet and
        returns its payload; with a session already loaded, or none found,
        it returns `''`. */
    method Read(id: string) returns (data: string)
      modifies this`userSession
      ensures old(userSession).Some? ==> userSession == old(userSession) && data == ""
      ensures old(userSession).None? ==> userSession == Lookup(store, id)
      ensures old(userSession).None? ==> data == if id in store then store[id].sessionData else ""
    {
      data := "";
      if userSession.None? {
        userSession := Lookup(store, id);
        if userSession.Some? {
          data := userSession.value.sessionData;
        }
      }
    }

    /** The write callback: stores the payload on the loaded record and
        rewrites its row; without a loaded session it does nothing. */
    method Write(id: string, data: string) returns (ok: bool)
      requires Valid()
      modifies this`userSession, this`store
      ensures Valid() && ok
      ensures old(userSession).None? ==> userSession == old(userSession) && store == old(store)
      ensures old(userSession).Some? ==>
        && userSession == Some(old(userSession).value.(sessionData := data))
        && store == UpdateRow(old(store), userSession.value)
    {
      if userSession.Some? {
        userSession := Some(userSession.value.(sessionData := data));
        store := UpdateRow(store, userSession.value);
      }
      ok := true;
    }

    /** The destroy callback: deletes the row by id, unconditionally. */
    method Destroy(id: string) returns (ok: bool)
      modifies this`store
      ensures store == old(store) - {id} && ok
      ensures old(StoreKeyed(store)) ==> StoreKeyed(store)
    {
      store := store - {id};
      ok := true;
    }

    /** The garbage-collection callback at time `now`: the runtime's
        `maxLifetime` is ignored; rows are deleted by last use with a 24-hour
        cutoff and the remember cutoff. The result says whether any row was
        deleted. */
    method Gc(maxLifetime: int, now: int) returns (deleted: bool)
      requires Valid()
      modifies this`store
      ensures Valid()
      ensures store == Collected(old(store), now, config.sessionLifetime)
      ensures deleted <==> store != old(store)
    {
      var before := store;
      CollectedKeyed(store, now, config.sessionLifetime);
      store := Collected(store, now, config.sessionLifetime);
      deleted := store != before;
    }

    /** `updateSessionCookie`: (re)sends the session cookie carrying `newId`,
        or the current session id when none is given. */
    method UpdateSessionCookie(newId: Option<string>, expireTime: int)
      modifies this`cookies
      ensures cookies == old(cookies)
        + CookieEffects(cookieDomain, if newId.Some? then newId.value else sessionId, expireTime)
    {
      var value := if newId.Some? then newId.value else sessionId;
      cookies := cookies + CookieEffects(cookieDomain, value, expireTime);
    }

    /** `updateSessionLifetime`: resend the current cookie with a new expiry
        (`0` for a browser-session cookie). */
    method UpdateSessionLifetime(expireTime: int)
      modifies this`cookies
      ensures cookies == old(cookies) + CookieEffects(cookieDomain, sessionId, expireTime)
    {
      UpdateSessionCookie(None, expireTime);
    }

    /** `regenerateSessionId`: `regenerated` and `newId` are the outcome of
        the runtime's `session_regenerate_id()`. It succeeds iff regeneration
        succeeded and a session is loaded; then the old id's row is gone, the
        loaded record lives on under the new id, and the cookie is resent. */
    method RegenerateSessionId(regenerated: bool, newId: string) returns (success: bool)
      requires Valid()
      modifies this`store, this`userSession, this`sessionId, this`cookies
      ensures Valid()
      ensures success <==> regenerated && old(userSession).Some?
      ensures sessionId == if regenerated then newId else old(sessionId)
      ensures success ==>
        && userSession == Some(old(userSession).value.(id := newId))
        && store == InsertRow(old(store) - {old(sessionId)}, userSession.value)
        && cookies == old(cookies) + CookieEffects(cookieDomain, newId, 0)
      ensures !success ==> userSession == old(userSession) && store == old(store) && cookies == old(cookies)
    {
      success := false;
      var currentId := sessionId;
      if regenerated {
        sessionId := newId;
      }
      if regenerated && userSession.Some? {
        store := store - {currentId};
        userSession := Some(userSession.value.(id := newId));
        store := InsertRow(store, userSession.value);
        UpdateSessionCookie(None, 0);
        success := true;
      }
    }
  }

  /** After a successful rotation the old id has no row (unless the runtime
      reissued the same id) and the new id's row is the loaded record. */
  lemma RotationMovesRow(oldStore: Store, oldId: string, rec: SessionRecord, newId: string)
    ensures var s := InsertRow(oldStore - {oldId}, rec.(id := newId));
      && (oldId != newId ==> oldId !in s)
      && newId in s && s[newId] == StoredRow(rec).(id := newId)
      && (forall k :: k != oldId && k != newId ==> (k in s <==> k in oldStore))
      && (forall k :: k in s && k != oldId && k != newId ==> s[k] == oldStore[k])
  {
  }
}
