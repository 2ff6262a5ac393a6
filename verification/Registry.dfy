/**
 The write-through tenant registry: the `Tenant` objects of src/tenant/__init__.py against the rows
 of the tenants table (src/store/database.py, PostgreSQL branch). A JSON column holds a dictionary.
 */
module Registry {
  import opened Wrappers
  import opened Requests

  type Dict = map<string, string>

  /** The persistent fields of a tenant, in memory or in its row. */
  datatype Profile = Profile(
    name: string, createdAt: int, webhooks: seq<string>, connectionState: string, selfJid: Option<string>,
    selfPhone: Option<string>, selfName: Option<string>, hasAuth: bool, creds: Option<Dict>, settings: Option<Dict>)

  const DISCONNECTED := "disconnected"

  function NewTenant(name: string, createdAt: int): Profile {
    Profile(name, createdAt, [], DISCONNECTED, None, None, None, false, None, None)
  }

  /** What `load_tenants` makes of a row: an empty connection state reads as disconnected. */
  function Loaded(row: Profile): Profile {
    row.(connectionState := if row.connectionState == "" then DISCONNECTED else row.connectionState)
  }

  /** An update of one registered tenant. */
  datatype Update =
    | Session(connectionState: string, selfJid: Option<string>, selfPhone: Option<string>, selfName: Option<string>,
              hasAuth: Option<bool>)
    | AddUrl(url: string)
    | RemoveUrl(url: string)
    | SaveAuth(data: Dict)
    | DropAuth
    | Configure(changes: Dict)

  /** `list.remove`, or the list as it is if there is nothing to remove. */
  function Removed(urls: seq<string>, url: string): (rest: seq<string>)
    ensures url !in urls ==> rest == urls
  {
    if urls == [] then []
    else if urls[0] == url then urls[1..]
    else [urls[0]] + Removed(urls[1..], url)
  }

  /** The first occurrence goes, everything else stays in place. */
  lemma {:induction false} RemovesTheFirst(urls: seq<string>, url: string) returns (i: nat)
    ensures url !in urls ==> Removed(urls, url) == urls
    ensures url in urls ==>
              i < |urls| && urls[i] == url && url !in urls[..i] && Removed(urls, url) == urls[..i] + urls[i + 1..]
  {
    i := 0;
    if urls != [] && urls[0] != url {
      var j := RemovesTheFirst(urls[1..], url);
      i := j + 1;
      assert urls == [urls[0]] + urls[1..];
      if url in urls {
        assert urls[..i] == [urls[0]] + urls[1..][..j];
        assert urls[i + 1..] == urls[1..][j + 1..];
      }
    }
  }

  /** `if new: old = new`. */
  function Replaced(was: Option<string>, given: Option<string>): Option<string> {
    if Truthy(given) then given else was
  }

  /** `COALESCE(new, old)`. */
  function Coalesce<T>(given: Option<T>, was: Option<T>): Option<T> {
    if given.Some? then given else was
  }

  /** The row after `UPDATE … SET … = COALESCE(…)`. */
  function Coalesced(row: Profile, u: Update): Profile
    requires u.Session?
  {
    row.(connectionState := u.connectionState, selfJid := Coalesce(u.selfJid, row.selfJid),
         selfPhone := Coalesce(u.selfPhone, row.selfPhone), selfName := Coalesce(u.selfName, row.selfName),
         hasAuth := Coalesce(u.hasAuth, Some(row.hasAuth)).value)
  }

  function Merged(settings: Option<Dict>, changes: Dict): Dict {
    (if settings.Some? then settings.value else map[]) + changes
  }

  /** The object after an update. */
  function InMemory(p: Profile, u: Update): Profile {
    match u
    case Session(state, jid, phone, name, auth) =>
      p.(connectionState := state, selfJid := Replaced(p.selfJid, jid), selfPhone := Replaced(p.selfPhone, phone),
         selfName := Replaced(p.selfName, name), hasAuth := if auth.Some? then auth.value else p.hasAuth)
    case AddUrl(url) => if url in p.webhooks then p else p.(webhooks := p.webhooks + [url])
    case RemoveUrl(url) => p.(webhooks := Removed(p.webhooks, url))
    case SaveAuth(data) => p.(creds := Some(data), hasAuth := true)
    case DropAuth => p.(creds := None, hasAuth := false)
    case Configure(changes) => p.(settings := Some(Merged(p.settings, changes)))
  }

  /** Its row after the same update; `p` is the object before it, which supplies the lists and the settings. */
  function InTable(row: Profile, p: Profile, u: Update): Profile {
    match u
    case Session(_, _, _, _, _) => Coalesced(row, u)
    case AddUrl(url) => if url in p.webhooks then row else row.(webhooks := p.webhooks + [url])
    case RemoveUrl(url) => if url in p.webhooks then row.(webhooks := Removed(p.webhooks, url)) else row
    case SaveAuth(data) => row.(creds := Some(data), hasAuth := true)
    case DropAuth => row.(creds := None, hasAuth := false)
    case Configure(changes) =>
      var merged := Merged(p.settings, changes);
      row.(settings := if merged == map[] then None else Some(merged))
  }

  predicate SafeText(was: Option<string>, given: Option<string>) {
    given == Some("") ==> was == Some("")
  }

  /** A caller's check: no empty connection state, no empty identity, no empty settings. */
  predicate Safe(p: Profile, u: Update) {
    match u
    case Session(state, jid, phone, name, _) =>
      state != "" && SafeText(p.selfJid, jid) && SafeText(p.selfPhone, phone) && SafeText(p.selfName, name)
    case Configure(changes) => Merged(p.settings, changes) != map[]
    case _ => true
  }

  /** One update keeps object and row in agreement exactly if it is safe. */
  lemma UpdateAgrees(p: Profile, row: Profile, u: Update)
    requires p == Loaded(row)
    ensures InMemory(p, u) == Loaded(InTable(row, p, u)) <==> Safe(p, u)
  {
  }

  // ---- The whole registry ----

  /**
   An operation and what comes of its one statement. `Reload` is a restart of the process: a fresh manager
   is initialized from the table.
   */
  datatype Op =
    | Create(key: string, name: string, createdAt: int, answer: Answer)
    | Delete(key: string, answer: Answer)
    | Change(key: string, update: Update, answer: Answer)
    | Reload

  datatype State = State(tenants: map<string, Profile>, rows: map<string, Profile>)

  /** `ON CONFLICT (api_key_hash) DO UPDATE` touches only name and webhooks of an existing row. */
  function Upserted(rows: map<string, Profile>, key: string, p: Profile): map<string, Profile> {
    if key in rows then rows[key := rows[key].(name := p.name, webhooks := p.webhooks)] else rows[key := p]
  }

  /** What `initialize` builds from the table. */
  function Reloaded(rows: map<string, Profile>): map<string, Profile> {
    map key | key in rows :: Loaded(rows[key])
  }

  /** The table after the row of `key`, if any, is updated. */
  function RowsAfter(rows: map<string, Profile>, key: string, p: Profile, u: Update): map<string, Profile> {
    if key in rows then rows[key := InTable(rows[key], p, u)] else rows
  }

  /** A new tenant is registered once its row is filed; deletions and updates start in memory. */
  function Apply(s: State, op: Op): State {
    match op
    case Create(key, name, at, answer) =>
      State(if answer.Done? then s.tenants[key := NewTenant(name, at)] else s.tenants,
            if answer.Refused? then s.rows else Upserted(s.rows, key, NewTenant(name, at)))
    case Delete(key, answer) =>
      if key in s.tenants then State(s.tenants - {key}, if answer.Refused? then s.rows else s.rows - {key}) else s
    case Change(key, u, answer) =>
      if key !in s.tenants then s
      else
        State(s.tenants[key := InMemory(s.tenants[key], u)],
              if answer.Refused? then s.rows else RowsAfter(s.rows, key, s.tenants[key], u))
    case Reload => s.(tenants := Reloaded(s.rows))
  }

  ghost predicate Agrees(s: State) {
    s.tenants == Reloaded(s.rows)
  }

  /** The key of a new tenant hashes to something new. */
  predicate FreshKey(s: State, op: Op) {
    op.Create? ==> op.key !in s.rows
  }

  /** A refused update must change nothing, and any other must be safe. */
  predicate SafeChange(p: Profile, u: Update, answer: Answer) {
    if answer.Refused? then InMemory(p, u) == p else Safe(p, u)
  }

  predicate SafeOp(s: State, op: Op) {
    match op
    case Create(_, _, _, answer) => !answer.Unseen?
    case Delete(key, answer) => key in s.tenants ==> !answer.Refused?
    case Change(key, u, answer) => key in s.tenants ==> SafeChange(s.tenants[key], u, answer)
    case Reload => true
  }

  lemma ApplyAgrees(s: State, op: Op)
    requires Agrees(s) && FreshKey(s, op)
    ensures Agrees(Apply(s, op)) <==> SafeOp(s, op)
  {
    hide InMemory, InTable, Safe, Loaded;
    assert s.tenants.Keys == s.rows.Keys;
    var after := Apply(s, op);
    match op {
      case Create(key, name, at, answer) =>
        NewTenantAgrees(name, at);
        assert !answer.Unseen? ==> after.tenants == Reloaded(after.rows);
        assert answer.Unseen? ==> key in Reloaded(after.rows);
      case Delete(key, answer) =>
        assert SafeOp(s, op) ==> after.tenants == Reloaded(after.rows);
        assert !SafeOp(s, op) ==> key in Reloaded(after.rows);
      case Change(key, u, answer) =>
        if key in s.tenants {
          UpdateAgrees(s.tenants[key], s.rows[key], u);
          assert after.tenants[key] == Reloaded(after.rows)[key] <==> SafeOp(s, op);
          if SafeOp(s, op) {
            assert after.tenants == Reloaded(after.rows);
          }
        }
      case Reload =>
    }
  }

  lemma NewTenantAgrees(name: string, at: int)
    ensures NewTenant(name, at) == Loaded(NewTenant(name, at))
  {
  }

  /** A settings update replaces the keys it names and leaves every other as it was. */
  lemma SettingsMerge(p: Profile, changes: Dict, k: string)
    ensures
      var settings := InMemory(p, Configure(changes)).settings;
      && settings.Some?
      && Lookup(settings.value, k)
           == if k in changes then Some(changes[k]) else if p.settings.Some? then Lookup(p.settings.value, k) else None
  {
  }

  /** Filing a tenant again leaves the session, the credentials and the settings of its row alone. */
  lemma FilingKeepsSession(rows: map<string, Profile>, key: string, p: Profile)
    ensures Upserted(rows, key, p).Keys == rows.Keys + {key}
    ensures
      var row := Upserted(rows, key, p)[key];
      row.name == p.name && row.webhooks == p.webhooks
      && row == if key in rows then rows[key].(name := p.name, webhooks := p.webhooks) else p
    ensures forall other :: other in rows && other != key ==> Upserted(rows, key, p)[other] == rows[other]
  {
  }

  /** An operation concerns one key; every other tenant and row stays as it is. */
  lemma OthersStay(s: State, op: Op, key: string)
    requires !op.Reload? && op.key != key
    ensures Lookup(Apply(s, op).tenants, key) == Lookup(s.tenants, key)
    ensures Lookup(Apply(s, op).rows, key) == Lookup(s.rows, key)
  {
    hide InMemory, InTable;
  }

  // ---- Runs ----

  function Run(s: State, ops: seq<Op>): State {
    if ops == [] then s else Apply(Run(s, ops[..|ops| - 1]), ops[|ops| - 1])
  }

  ghost predicate FreshThroughout(s: State, ops: seq<Op>) {
    ops == [] ||
    var front := ops[..|ops| - 1];
    FreshThroughout(s, front) && FreshKey(Run(s, front), ops[|ops| - 1])
  }

  /** Every operation is safe where it is made. */
  ghost predicate SafeThroughout(s: State, ops: seq<Op>) {
    ops == [] ||
    var front := ops[..|ops| - 1];
    SafeThroughout(s, front) && SafeOp(Run(s, front), ops[|ops| - 1])
  }

  /** Memory and table agree at the start and after every operation. */
  ghost predicate AgreesThroughout(s: State, ops: seq<Op>) {
    Agrees(Run(s, ops)) && (ops == [] || AgreesThroughout(s, ops[..|ops| - 1]))
  }

  /** Memory and table agree after every operation of a run exactly if every operation is safe where it is made. */
  lemma {:induction false} WriteThrough(s: State, ops: seq<Op>)
    requires Agrees(s) && FreshThroughout(s, ops)
    ensures AgreesThroughout(s, ops) <==> SafeThroughout(s, ops)
  {
    hide Agrees, FreshKey, SafeOp, Apply;
    if ops != [] {
      var front := ops[..|ops| - 1];
      WriteThrough(s, front);
      if Agrees(Run(s, front)) {
        ApplyAgrees(Run(s, front), ops[|ops| - 1]);
      }
    }
  }

  ghost predicate Gone(s: State, key: string) {
    key !in s.tenants && key !in s.rows
  }

  lemma StaysGone(s: State, op: Op, key: string)
    requires Gone(s, key) && !(op.Create? && op.key == key)
    ensures Gone(Apply(s, op), key)
  {
    hide InMemory, InTable;
  }

  lemma DeletedIsGone(s: State, key: string, answer: Answer)
    requires Agrees(s) && key in s.tenants && answer != Refused
    ensures Gone(Apply(s, Delete(key, answer)), key)
  {
  }

  /** A tenant once deleted is in neither memory nor table until one is created with its key, whatever else happens. */
  lemma {:induction false} DeletedStaysGone(s: State, key: string, answer: Answer, ops: seq<Op>)
    requires Agrees(s) && key in s.tenants && answer != Refused
    requires forall op :: op in ops && op.Create? ==> op.key != key
    ensures Gone(Run(Apply(s, Delete(key, answer)), ops), key)
  {
    hide Gone, Apply;
    if ops == [] {
      DeletedIsGone(s, key, answer);
    } else {
      var front, last := ops[..|ops| - 1], ops[|ops| - 1];
      assert ops == front + [last];
      DeletedStaysGone(s, key, answer, front);
      StaysGone(Run(Apply(s, Delete(key, answer)), front), last, key);
    }
  }

  /** A deletion whose statement is refused is undone by the next restart. */
  lemma RefusedDeletionReturns(s: State, key: string)
    requires Agrees(s) && key in s.tenants
    ensures key !in Apply(s, Delete(key, Refused)).tenants
    ensures Apply(Apply(s, Delete(key, Refused)), Reload) == s
  {
  }

  /** A new tenant has no credentials, session, webhooks or settings, and is still there after a restart. */
  lemma CreatedIsBlank(s: State, key: string, name: string, at: int)
    requires Agrees(s) && key !in s.rows
    ensures
      var s' := Apply(Apply(s, Create(key, name, at, Done)), Reload);
      && s' == Apply(s, Create(key, name, at, Done))
      && Lookup(s'.tenants, key) == Some(Profile(name, at, [], "disconnected", None, None, None, false, None, None))
  {
    NewTenantAgrees(name, at);
    ApplyAgrees(s, Create(key, name, at, Done));
    ReloadChangesNothing(Apply(s, Create(key, name, at, Done)));
  }

  function WithoutReloads(ops: seq<Op>): seq<Op> {
    if ops == [] then []
    else
      var last := ops[|ops| - 1];
      WithoutReloads(ops[..|ops| - 1]) + if last.Reload? then [] else [last]
  }

  /** After a run of safe operations nobody can tell how often the process was restarted. */
  lemma {:induction false} RestartsAreInvisible(s: State, ops: seq<Op>)
    requires Agrees(s) && FreshThroughout(s, ops) && SafeThroughout(s, ops)
    ensures Run(s, ops) == Run(s, WithoutReloads(ops))
  {
    hide FreshKey, SafeOp, Apply;
    if ops != [] {
      var front, last := ops[..|ops| - 1], ops[|ops| - 1];
      RestartsAreInvisible(s, front);
      WriteThrough(s, front);
      var kept := WithoutReloads(front);
      if last.Reload? {
        ReloadChangesNothing(Run(s, front));
        assert kept + [] == kept;
      } else {
        assert (kept + [last])[..|kept|] == kept;
      }
    }
  }

  lemma ReloadChangesNothing(s: State)
    ensures Apply(s, Reload) == s <==> Agrees(s)
  {
  }
}
