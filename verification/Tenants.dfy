/** `TenantManager` of src/tenant/__init__.py over the tenants table, as objects updated in place. */
module Tenants {
  import opened Wrappers
  import opened Requests
  import opened Registry

  class Tenant {
    const apiKeyHash: string
    const name: string
    const createdAt: int
    var webhookUrls: seq<string>
    var connectionState: string
    var selfJid: Option<string>
    var selfPhone: Option<string>
    var selfName: Option<string>
    var hasAuth: bool
    var credsJson: Option<Dict>
    var settings: Option<Dict>
    var healthFailures: nat
    var totalRestarts: nat
    var lastRestartAt: Option<real>
    var lastRestartReason: Option<string>

    constructor (apiKeyHash: string, p: Profile)
      ensures this.apiKeyHash == apiKeyHash && Value() == p
      ensures healthFailures == totalRestarts == 0 && lastRestartAt == None && lastRestartReason == None
    {
      this.apiKeyHash := apiKeyHash;
      name, createdAt, webhookUrls := p.name, p.createdAt, p.webhooks;
      connectionState, hasAuth := p.connectionState, p.hasAuth;
      selfJid, selfPhone, selfName := p.selfJid, p.selfPhone, p.selfName;
      credsJson, settings := p.creds, p.settings;
      healthFailures, totalRestarts, lastRestartAt, lastRestartReason := 0, 0, None, None;
    }

    ghost function Value(): Profile
      reads this
    {
      Profile(name, createdAt, webhookUrls, connectionState, selfJid, selfPhone, selfName, hasAuth, credsJson, settings)
    }

    /** Empty identity strings are ignored. */
    method Identify(state: string, jid: Option<string>, phone: Option<string>, selfName: Option<string>,
                    auth: Option<bool>)
      modifies this
      ensures Value() == InMemory(old(Value()), Session(state, jid, phone, selfName, auth))
    {
      connectionState := state;
      if jid.Some? && jid.value != "" {
        selfJid := jid;
      }
      if phone.Some? && phone.value != "" {
        selfPhone := phone;
      }
      if selfName.Some? && selfName.value != "" {
        this.selfName := selfName;
      }
      if auth.Some? {
        hasAuth := auth.value;
      }
    }
  }

  /** The tenants table. An `UPDATE` of a key without a row does nothing, and a refused statement changes nothing. */
  class TenantTable {
    var rows: map<string, Profile>

    constructor ()
      ensures rows == map[]
    {
      rows := map[];
    }

    method SaveTenant(key: string, p: Profile, answer: Answer) returns (raised: bool)
      modifies this
      ensures raised == !answer.Done?
      ensures rows == if answer.Refused? then old(rows) else Upserted(old(rows), key, p)
    {
      if answer.Refused? {
        return true;
      }
      if key in rows {
        rows := rows[key := rows[key].(name := p.name, webhooks := p.webhooks)];
      } else {
        rows := rows[key := p];
      }
      return answer.Unseen?;
    }

    method LoadTenants() returns (loaded: map<string, Profile>)
      ensures loaded == Reloaded(rows)
    {
      loaded := map[];
      var left := rows.Keys;
      while left != {}
        invariant left <= rows.Keys
        invariant loaded == Reloaded(rows - left)
        decreases |left|
      {
        var key :| key in left;
        var row := rows[key];
        var state := if row.connectionState == "" then DISCONNECTED else row.connectionState;
        loaded := loaded[key := row.(connectionState := state)];
        left := left - {key};
      }
      assert rows - {} == rows;
    }

    method DeleteTenant(key: string, answer: Answer) returns (raised: bool)
      modifies this
      ensures raised == !answer.Done?
      ensures rows == if answer.Refused? then old(rows) else old(rows) - {key}
    {
      if !answer.Refused? {
        rows := rows - {key};
      }
      return !answer.Done?;
    }

    method UpdateWebhooks(key: string, urls: seq<string>, answer: Answer) returns (raised: bool)
      modifies this
      ensures raised == !answer.Done?
      ensures rows == if key in old(rows) && !answer.Refused?
                      then old(rows)[key := old(rows)[key].(webhooks := urls)] else old(rows)
    {
      if key in rows && !answer.Refused? {
        rows := rows[key := rows[key].(webhooks := urls)];
      }
      return !answer.Done?;
    }

    method UpdateSessionState(key: string, state: string, jid: Option<string>, phone: Option<string>,
                              selfName: Option<string>, auth: Option<bool>, answer: Answer) returns (raised: bool)
      modifies this
      ensures raised == !answer.Done?
      ensures rows == if key in old(rows) && !answer.Refused?
                      then old(rows)[key := Coalesced(old(rows)[key], Session(state, jid, phone, selfName, auth))]
                      else old(rows)
    {
      if key in rows && !answer.Refused? {
        var row := rows[key];
        rows := rows[key := row.(connectionState := state,
                                 selfJid := if jid.Some? then jid else row.selfJid,
                                 selfPhone := if phone.Some? then phone else row.selfPhone,
                                 selfName := if selfName.Some? then selfName else row.selfName,
                                 hasAuth := if auth.Some? then auth.value else row.hasAuth)];
      }
      return !answer.Done?;
    }

    method SaveCreds(key: string, data: Dict, answer: Answer) returns (raised: bool)
      modifies this
      ensures raised == !answer.Done?
      ensures rows == if key in old(rows) && !answer.Refused?
                      then old(rows)[key := old(rows)[key].(creds := Some(data), hasAuth := true)] else old(rows)
    {
      if key in rows && !answer.Refused? {
        rows := rows[key := rows[key].(creds := Some(data), hasAuth := true)];
      }
      return !answer.Done?;
    }

    method ClearCreds(key: string, answer: Answer) returns (raised: bool)
      modifies this
      ensures raised == !answer.Done?
      ensures rows == if key in old(rows) && !answer.Refused?
                      then old(rows)[key := old(rows)[key].(creds := None, hasAuth := false)] else old(rows)
    {
      if key in rows && !answer.Refused? {
        rows := rows[key := rows[key].(creds := None, hasAuth := false)];
      }
      return !answer.Done?;
    }

    /** An empty dictionary is stored as NULL. */
    method SaveSettings(key: string, settings: Dict, answer: Answer) returns (raised: bool)
      modifies this
      ensures raised == !answer.Done?
      ensures
        var stored := if settings == map[] then None else Some(settings);
        rows == if key in old(rows) && !answer.Refused?
                then old(rows)[key := old(rows)[key].(settings := stored)] else old(rows)
    {
      if key in rows && !answer.Refused? {
        rows := rows[key := rows[key].(settings := if settings == map[] then None else Some(settings))];
      }
      return !answer.Done?;
    }
  }

  class TenantManager {
    const db: TenantTable
    var tenants: map<string, Tenant>
    var initialized: bool

    ghost predicate Valid()
      reads `tenants
    {
      forall key :: key in tenants ==> tenants[key].apiKeyHash == key
    }

    ghost function Memory(): map<string, Profile>
      reads `tenants, tenants.Values
    {
      map key | key in tenants :: tenants[key].Value()
    }

    ghost function Both(): State
      reads `tenants, tenants.Values, db
    {
      State(Memory(), db.rows)
    }

    /** A registered tenant, or an object left over from a deleted one. */
    ghost predicate Owned(t: Tenant)
      reads `tenants, db
    {
      if t.apiKeyHash in tenants then tenants[t.apiKeyHash] == t else t.apiKeyHash !in db.rows
    }

    constructor (db: TenantTable)
      ensures this.db == db && tenants == map[] && !initialized && Valid()
    {
      this.db := db;
      tenants := map[];
      initialized := false;
    }

    /** Nothing but `t` has changed in memory since `before`. */
    ghost predicate OnlyChanged(t: Tenant, before: State)
      reads `tenants, tenants.Values
    {
      && tenants.Keys == before.tenants.Keys
      && forall key :: key in tenants && tenants[key] != t ==> tenants[key].Value() == before.tenants[key]
    }

    /** After an object was updated and the statement for its row answered. */
    lemma BothChanged(t: Tenant, u: Update, answer: Answer, before: State, p: Profile)
      requires Valid() && Owned(t) && OnlyChanged(t, before)
      requires t.apiKeyHash in tenants ==> before.tenants[t.apiKeyHash] == p
      requires t.Value() == InMemory(p, u)
      requires db.rows == if answer.Refused? then before.rows else RowsAfter(before.rows, t.apiKeyHash, p, u)
      ensures Both() == Apply(before, Change(t.apiKeyHash, u, answer))
    {
      hide InMemory, InTable;
      assert Memory() == Apply(before, Change(t.apiKeyHash, u, answer)).tenants;
    }

    /** After an object was filed under a key. */
    lemma Filed(key: string, was: map<string, Profile>)
      requires key in tenants && tenants.Keys == was.Keys + {key}
      requires forall other :: other in tenants && other != key ==> tenants[other].Value() == was[other]
      ensures Memory() == was[key := tenants[key].Value()]
    {
    }

    method UpdateSessionState(t: Tenant, state: string, jid: Option<string>, phone: Option<string>,
                              selfName: Option<string>, auth: Option<bool>, answer: Answer) returns (raised: bool)
      requires Valid() && Owned(t)
      modifies t, db
      ensures Valid() && raised == !answer.Done?
      ensures Both() == Apply(old(Both()), Change(t.apiKeyHash, Session(state, jid, phone, selfName, auth), answer))
    {
      hide Apply;
      ghost var before, p := Both(), t.Value();
      t.Identify(state, jid, phone, selfName, auth);
      raised := db.UpdateSessionState(t.apiKeyHash, state, jid, phone, selfName, auth, answer);
      BothChanged(t, Session(state, jid, phone, selfName, auth), answer, before, p);
    }

    method AddWebhook(t: Tenant, url: string, answer: Answer) returns (raised: bool)
      requires Valid() && Owned(t)
      modifies t`webhookUrls, db
      ensures Valid() && Both() == Apply(old(Both()), Change(t.apiKeyHash, AddUrl(url), answer))
      ensures raised == (url !in old(t.webhookUrls) && !answer.Done?)
    {
      hide Apply;
      ghost var before, p := Both(), t.Value();
      raised := false;
      if url !in t.webhookUrls {
        t.webhookUrls := t.webhookUrls + [url];
        raised := db.UpdateWebhooks(t.apiKeyHash, t.webhookUrls, answer);
      }
      assert before.rows == RowsAfter(before.rows, t.apiKeyHash, p, AddUrl(url)) || url !in p.webhooks;
      BothChanged(t, AddUrl(url), answer, before, p);
    }

    method RemoveWebhook(t: Tenant, url: string, answer: Answer) returns (found: bool, raised: bool)
      requires Valid() && Owned(t)
      modifies t`webhookUrls, db
      ensures Valid() && Both() == Apply(old(Both()), Change(t.apiKeyHash, RemoveUrl(url), answer))
      ensures found == (url in old(t.webhookUrls)) && raised == (found && !answer.Done?)
    {
      hide Apply, Removed;
      ghost var before, p := Both(), t.Value();
      found, raised := url in t.webhookUrls, false;
      if found {
        t.webhookUrls := Removed(t.webhookUrls, url);
        raised := db.UpdateWebhooks(t.apiKeyHash, t.webhookUrls, answer);
      } else {
        assert before.rows == RowsAfter(before.rows, t.apiKeyHash, p, RemoveUrl(url));
      }
      BothChanged(t, RemoveUrl(url), answer, before, p);
    }

    method SaveAuthState(t: Tenant, data: Dict, answer: Answer) returns (raised: bool)
      requires Valid() && Owned(t)
      modifies t`credsJson, t`hasAuth, db
      ensures Valid() && raised == !answer.Done?
      ensures Both() == Apply(old(Both()), Change(t.apiKeyHash, SaveAuth(data), answer))
    {
      hide Apply;
      ghost var before, p := Both(), t.Value();
      t.credsJson := Some(data);
      t.hasAuth := true;
      raised := db.SaveCreds(t.apiKeyHash, data, answer);
      BothChanged(t, SaveAuth(data), answer, before, p);
    }

    method ClearCreds(t: Tenant, answer: Answer) returns (raised: bool)
      requires Valid() && Owned(t)
      modifies t`credsJson, t`hasAuth, db
      ensures Valid() && raised == !answer.Done?
      ensures Both() == Apply(old(Both()), Change(t.apiKeyHash, DropAuth, answer))
    {
      hide Apply;
      ghost var before, p := Both(), t.Value();
      t.credsJson := None;
      t.hasAuth := false;
      raised := db.ClearCreds(t.apiKeyHash, answer);
      BothChanged(t, DropAuth, answer, before, p);
    }

    method UpdateTenantSettings(t: Tenant, changes: Dict, answer: Answer) returns (raised: bool)
      requires Valid() && Owned(t)
      modifies t`settings, db
      ensures Valid() && raised == !answer.Done?
      ensures Both() == Apply(old(Both()), Change(t.apiKeyHash, Configure(changes), answer))
    {
      hide Apply, Merged;
      ghost var before, p := Both(), t.Value();
      var merged := Merged(t.settings, changes);
      t.settings := Some(merged);
      raised := db.SaveSettings(t.apiKeyHash, merged, answer);
      BothChanged(t, Configure(changes), answer, before, p);
    }

    /** `key` is the hash of the freshly drawn API key. The tenant is registered unless filing it raised. */
    method CreateTenant(key: string, name: string, createdAt: int, answer: Answer) returns (t: Tenant?)
      requires Valid()
      modifies this, db
      ensures Valid() && (t == null <==> !answer.Done?)
      ensures t != null ==> fresh(t) && key in tenants && tenants[key] == t
      ensures Both() == Apply(old(Both()), Create(key, name, createdAt, answer))
    {
      hide NewTenant, Upserted;
      ghost var before := Both();
      t := new Tenant(key, NewTenant(name, createdAt));
      var raised := db.SaveTenant(key, NewTenant(name, createdAt), answer);
      if raised {
        return null;
      }
      tenants := tenants[key := t];
      Filed(key, before.tenants);
    }

    /** The tenant is gone from memory even if deleting its row raises. */
    method DeleteTenantByHash(key: string, answer: Answer) returns (found: bool, raised: bool)
      requires Valid()
      modifies this, db
      ensures Valid() && found == (key in old(tenants)) && raised == (found && !answer.Done?)
      ensures Both() == Apply(old(Both()), Delete(key, answer))
    {
      ghost var before := Both();
      found, raised := key in tenants, false;
      if found {
        tenants := tenants - {key};
        raised := db.DeleteTenant(key, answer);
        assert Memory() == before.tenants - {key};
      }
    }

    method Restore(key: string, p: Profile)
      requires Valid()
      modifies `tenants
      ensures Valid() && Memory() == old(Memory())[key := p]
    {
      ghost var was := Memory();
      var t := new Tenant(key, p);
      tenants := tenants[key := t];
      Filed(key, was);
    }

    method RestoreAll()
      requires Valid()
      modifies `tenants
      ensures Valid() && Memory() == old(Memory()) + Reloaded(db.rows)
    {
      hide Memory, Reloaded, Valid, Partly;
      ghost var before := Memory();
      var loaded := db.LoadTenants();
      var left := loaded.Keys;
      PartlySteps(before, loaded);
      while left != {}
        invariant Valid() && left <= loaded.Keys && Memory() == Partly(before, loaded, left)
        decreases |left|
      {
        var key :| key in left;
        Restore(key, loaded[key]);
        PartlyGrows(before, loaded, left, key);
        left := left - {key};
      }
    }

    /** Builds a tenant from every row, once. */
    method Initialize()
      requires Valid()
      modifies `tenants, `initialized
      ensures Valid() && initialized
      ensures Memory() == if old(initialized) then old(Memory()) else old(Memory()) + Reloaded(db.rows)
    {
      if !initialized {
        RestoreAll();
        initialized := true;
      }
    }
  }

  /** The registry when all rows but those `left` are in. */
  function Partly(before: map<string, Profile>, loaded: map<string, Profile>, left: set<string>): map<string, Profile> {
    before + (loaded - left)
  }

  lemma PartlySteps(before: map<string, Profile>, loaded: map<string, Profile>)
    ensures Partly(before, loaded, loaded.Keys) == before
    ensures Partly(before, loaded, {}) == before + loaded
  {
    assert loaded - {} == loaded;
  }

  lemma PartlyGrows(before: map<string, Profile>, loaded: map<string, Profile>, left: set<string>, key: string)
    requires key in left && left <= loaded.Keys
    ensures Partly(before, loaded, left)[key := loaded[key]] == Partly(before, loaded, left - {key})
  {
  }
}
