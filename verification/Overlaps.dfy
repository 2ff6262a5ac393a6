/**
 The write-through registry when operations overlap. The object changes in the synchronous start of an
 operation; its row is written by a statement that lands some time later, after retries perhaps, while
 other operations run, or that fails for good. Operations are safe ones: those that are not go wrong even
 alone (`Registry`). An assignment without a statement, as the admin console makes when it marks a tenant
 disconnected, is an update whose statement fails at once.
 */
module Overlaps {
  import opened Wrappers
  import opened Requests
  import opened Registry

  // ---- Columns ----

  datatype Column = Webhooks | ConnectionState | SelfJid | SelfPhone | SelfName | HasAuth | Creds | Settings

  datatype Value = Urls(urls: seq<string>) | Text(text: Option<string>) | Flag(flag: bool) | Json(dict: Option<Dict>)

  type Record = map<Column, Value>

  function Field(p: Profile, c: Column): Value {
    match c
    case Webhooks => Urls(p.webhooks)
    case ConnectionState => Text(Some(p.connectionState))
    case SelfJid => Text(p.selfJid)
    case SelfPhone => Text(p.selfPhone)
    case SelfName => Text(p.selfName)
    case HasAuth => Flag(p.hasAuth)
    case Creds => Json(p.creds)
    case Settings => Json(p.settings)
  }

  /** What the statement of a safe update sets a column to. */
  function Assign(p: Profile, u: Update, c: Column): Option<Value> {
    match u
    case Session(state, jid, phone, name, auth) =>
      (match c
       case ConnectionState => Some(Text(Some(state)))
       case SelfJid => if jid.Some? then Some(Text(jid)) else None
       case SelfPhone => if phone.Some? then Some(Text(phone)) else None
       case SelfName => if name.Some? then Some(Text(name)) else None
       case HasAuth => if auth.Some? then Some(Flag(auth.value)) else None
       case _ => None)
    case AddUrl(url) => if c == Webhooks && url !in p.webhooks then Some(Urls(p.webhooks + [url])) else None
    case RemoveUrl(url) => if c == Webhooks && url in p.webhooks then Some(Urls(Removed(p.webhooks, url))) else None
    case SaveAuth(data) =>
      if c == Creds then Some(Json(Some(data))) else if c == HasAuth then Some(Flag(true)) else None
    case DropAuth =>
      if c == Creds then Some(Json(None)) else if c == HasAuth then Some(Flag(false)) else None
    case Configure(changes) => if c == Settings then Some(Json(Some(Merged(p.settings, changes)))) else None
  }

  function Assigned(p: Profile, u: Update): Record {
    map c: Column | Assign(p, u, c).Some? :: Assign(p, u, c).value
  }

  /** For a safe update these are exactly the columns it changes, in the object and in the row. */
  lemma SafeUpdateAssigns(p: Profile, row: Profile, u: Update, c: Column)
    requires Safe(p, u)
    ensures Field(InMemory(p, u), c) == if Assign(p, u, c).Some? then Assign(p, u, c).value else Field(p, c)
    ensures Field(InTable(row, p, u), c) == if Assign(p, u, c).Some? then Assign(p, u, c).value else Field(row, c)
  {
    hide Removed, Merged;
  }

  // ---- Steps ----

  datatype Write = Write(ticket: nat, key: string, values: Record)

  datatype Slot = Slot(key: string, column: Column)

  /**
   `pending` are the statements under way, and `deleting` the tenants whose row is still to be deleted.
   The rest is history: the statements that ran, in that order, those that failed for good, the keys of
   rows that a refused deletion or an unseen creation left behind, the tickets drawn so far, the ticket of
   the last update of each column of each object, and the values a tenant was created with.
   */
  datatype State = State(
    memory: map<string, Profile>, rows: map<string, Record>, pending: seq<Write>, deleting: set<string>,
    landed: seq<Write>, dropped: seq<Write>, leftover: set<string>, tickets: nat,
    latest: map<string, map<Column, nat>>, base: map<string, Profile>)

  datatype Action =
    | Created(key: string, name: string, createdAt: int, answer: Answer)
    | Changed(key: string, update: Update)
    | Stale(key: string, values: Record)      // an update of an object whose tenant was deleted
    | Encode(k: nat)                          // a webhook list is read when its statement gets a connection
    | Land(k: nat)
    | LandUnseen(k: nat)                      // it took effect, but its caller saw a lost connection and retries it
    | Fail(k: nat)                            // it never took effect, or its caller gave up retrying it
    | Forget(key: string)
    | DeleteRow(key: string, answer: Answer)

  predicate Enabled(s: State, a: Action) {
    match a
    case Created(key, _, _, _) => key !in s.memory && key !in s.rows && key !in s.base
    case Changed(key, u) => key in s.memory && Safe(s.memory[key], u)
    case Stale(key, _) => key !in s.memory && key in s.base
    case Encode(k) => k < |s.pending| && Webhooks in s.pending[k].values && s.pending[k].key in s.memory
    case Land(k) => k < |s.pending|
    case LandUnseen(k) => k < |s.pending| && Retried(s.pending[k])
    case Fail(k) => k < |s.pending|
    case Forget(key) => key in s.memory
    case DeleteRow(key, _) => key in s.deleting
  }

  /** Only a statement that saves credentials is tried again. */
  predicate Retried(w: Write) {
    Webhooks !in w.values && Creds in w.values && w.values[Creds] != Json(None)
  }

  function FieldsOf(p: Profile): Record {
    map[Webhooks := Field(p, Webhooks), ConnectionState := Field(p, ConnectionState), SelfJid := Field(p, SelfJid),
        SelfPhone := Field(p, SelfPhone), SelfName := Field(p, SelfName), HasAuth := Field(p, HasAuth),
        Creds := Field(p, Creds), Settings := Field(p, Settings)]
  }

  lemma EveryField(p: Profile, c: Column)
    ensures c in FieldsOf(p) && FieldsOf(p)[c] == Field(p, c)
  {
  }

  function Issue(s: State, key: string, values: Record): State {
    s.(pending := s.pending + [Write(s.tickets, key, values)], tickets := s.tickets + 1)
  }

  /** The ticket of the last update of a column. */
  function TicketOf(s: State, slot: Slot): Option<nat> {
    if slot.key in s.latest then Lookup(s.latest[slot.key], slot.column) else None
  }

  function Newest(latest: map<string, map<Column, nat>>, key: string, values: Record, ticket: nat)
    : map<string, map<Column, nat>>
  {
    latest[key := (if key in latest then latest[key] else map[]) + map c | c in values :: ticket]
  }

  function Changing(s: State, key: string, u: Update): State
    requires key in s.memory
  {
    var values := Assigned(s.memory[key], u);
    Issue(s, key, values).(
      memory := s.memory[key := InMemory(s.memory[key], u)], latest := Newest(s.latest, key, values, s.tickets))
  }

  function Encoding(s: State, k: nat): State
    requires k < |s.pending| && s.pending[k].key in s.memory
  {
    var w := s.pending[k];
    s.(pending := s.pending[k := w.(values := w.values[Webhooks := Field(s.memory[w.key], Webhooks)])])
  }

  /** The statement runs; an `UPDATE` of a key without a row does nothing. */
  function Running(s: State, k: nat): State
    requires k < |s.pending|
  {
    var w := s.pending[k];
    s.(landed := s.landed + [w],
       rows := if w.key in s.rows then s.rows[w.key := s.rows[w.key] + w.values] else s.rows)
  }

  function Landing(s: State, k: nat): State
    requires k < |s.pending|
  {
    Running(s, k).(pending := s.pending[..k] + s.pending[k + 1..])
  }

  function Failing(s: State, k: nat): State
    requires k < |s.pending|
  {
    s.(dropped := s.dropped + [s.pending[k]], pending := s.pending[..k] + s.pending[k + 1..])
  }

  /** The tenant is registered once its row is filed. */
  function Creating(s: State, key: string, p: Profile, answer: Answer): State {
    match answer
    case Done => s.(memory := s.memory[key := p], rows := s.rows[key := FieldsOf(p)], base := s.base[key := p])
    case Unseen =>
      s.(rows := s.rows[key := FieldsOf(p)], base := s.base[key := p], leftover := s.leftover + {key})
    case Refused => s
  }

  function Deleting(s: State, key: string, answer: Answer): State {
    var s' := s.(deleting := s.deleting - {key});
    if answer.Refused? then s'.(leftover := s.leftover + {key}) else s'.(rows := s.rows - {key})
  }

  function Step(s: State, a: Action): State
    requires Enabled(s, a)
  {
    match a
    case Created(key, name, at, answer) => Creating(s, key, NewTenant(name, at), answer)
    case Changed(key, u) => Changing(s, key, u)
    case Stale(key, values) => Issue(s, key, values)
    case Encode(k) => Encoding(s, k)
    case Land(k) => Landing(s, k)
    case LandUnseen(k) => Running(s, k)
    case Fail(k) => Failing(s, k)
    case Forget(key) => s.(memory := s.memory - {key}, deleting := s.deleting + {key})
    case DeleteRow(key, answer) => Deleting(s, key, answer)
  }

  function Run(start: State, actions: seq<Action>): Option<State> {
    if actions == [] then Some(start)
    else
      var before := Run(start, actions[..|actions| - 1]);
      if before.Some? && Enabled(before.value, actions[|actions| - 1])
      then Some(Step(before.value, actions[|actions| - 1])) else None
  }

  // ---- What every interleaving keeps ----

  predicate Sets(w: Write, slot: Slot) {
    w.key == slot.key && slot.column in w.values
  }

  function LastLanded(landed: seq<Write>, slot: Slot): Option<Write> {
    if landed == [] then None
    else if Sets(landed[|landed| - 1], slot) then Some(landed[|landed| - 1])
    else LastLanded(landed[..|landed| - 1], slot)
  }

  /** A statement that ran or failed. */
  ghost predicate Past(s: State, w: Write) {
    w in s.landed || w in s.dropped
  }

  ghost predicate Exists(s: State, w: Write) {
    w in s.pending || Past(s, w)
  }

  /** What the statements so far have left in a column. */
  function Left(s: State, slot: Slot): Value
    requires slot.key in s.base
  {
    var last := LastLanded(s.landed, slot);
    if last.Some? && slot.column in last.value.values then last.value.values[slot.column]
    else Field(s.base[slot.key], slot.column)
  }

  /** The column holds what the last statement that set it wrote, or what the tenant began with. */
  ghost predicate RowFits(s: State, slot: Slot)
    requires slot.key in s.base
  {
    slot.key in s.rows && slot.column in s.rows[slot.key] && s.rows[slot.key][slot.column] == Left(s, slot)
  }

  /** The object's field is what its latest statement carries, or what the tenant began with. */
  ghost predicate MemoryFits(s: State, slot: Slot)
    requires slot.key in s.base && slot.key in s.memory
  {
    var field := Field(s.memory[slot.key], slot.column);
    var ticket := TicketOf(s, slot);
    && (ticket.None? ==> field == Field(s.base[slot.key], slot.column))
    && (ticket.Some? ==>
          exists w :: Exists(s, w) && Sets(w, slot) && w.ticket == ticket.value && w.values[slot.column] == field)
    && forall w :: Exists(s, w) && Sets(w, slot) ==> ticket.Some? && w.ticket <= ticket.value
  }

  ghost predicate SlotFits(s: State, slot: Slot) {
    slot.key in s.memory ==> slot.key in s.base && RowFits(s, slot) && MemoryFits(s, slot)
  }

  /** Different statements carry different tickets; one that ran unseen is still under way. */
  ghost predicate Ticketed(s: State) {
    (forall w :: Exists(s, w) ==> w.ticket < s.tickets && w.key in s.base) && Apart(s)
  }

  ghost predicate Apart(s: State) {
    && (forall i, j :: 0 <= i < j < |s.pending| ==> s.pending[i].ticket != s.pending[j].ticket)
    && (forall v, w :: Past(s, v) && Past(s, w) && v.ticket == w.ticket ==> v == w)
    && (forall v, w :: v in s.pending && Past(s, w) && v.ticket == w.ticket ==> v == w && Webhooks !in v.values)
  }

  /** A row belongs to a registered tenant, to one whose row is still to be deleted, or to nobody any more. */
  ghost predicate Registered(s: State) {
    && s.rows.Keys == s.memory.Keys + s.deleting + s.leftover
    && s.memory.Keys !! s.deleting && s.memory.Keys !! s.leftover && s.deleting !! s.leftover
    && s.rows.Keys <= s.base.Keys && s.latest.Keys <= s.base.Keys
    && forall key :: key in s.rows ==> forall c: Column :: c in s.rows[key]
  }

  ghost predicate Sound(s: State) {
    Ticketed(s) && Registered(s) && forall slot: Slot :: SlotFits(s, slot)
  }

  /** A step that touches neither a slot's values nor the statements that set it. */
  lemma SlotFrame(s: State, s': State, slot: Slot)
    requires SlotFits(s, slot)
    requires slot.key in s'.memory ==>
               && slot.key in s.memory
               && Field(s'.memory[slot.key], slot.column) == Field(s.memory[slot.key], slot.column)
               && (slot.key in s.rows ==> slot.key in s'.rows && s'.rows[slot.key] == s.rows[slot.key])
               && (slot.key in s.base ==> slot.key in s'.base && s'.base[slot.key] == s.base[slot.key])
    requires TicketOf(s', slot) == TicketOf(s, slot) && s'.landed == s.landed
    requires forall w :: Sets(w, slot) ==> (Exists(s', w) <==> Exists(s, w))
    ensures SlotFits(s', slot)
  {
    hide Field, TicketOf, Sets, LastLanded;
  }

  lemma {:induction false} LastLandedSets(landed: seq<Write>, slot: Slot)
    ensures
      var last := LastLanded(landed, slot);
      && (last.Some? ==> last.value in landed && Sets(last.value, slot))
      && (last.None? ==> forall w :: w in landed ==> !Sets(w, slot))
  {
    if landed != [] {
      LastLandedSets(landed[..|landed| - 1], slot);
      assert landed == landed[..|landed| - 1] + [landed[|landed| - 1]];
    }
  }

  lemma CreateFits(s: State, key: string, name: string, at: int, answer: Answer, slot: Slot)
    requires Ticketed(s) && Registered(s) && SlotFits(s, slot) && Enabled(s, Created(key, name, at, answer))
    ensures SlotFits(Creating(s, key, NewTenant(name, at), answer), slot)
  {
    hide Field, FieldsOf, NewTenant, LastLanded;
    var s' := Creating(s, key, NewTenant(name, at), answer);
    if slot.key == key {
      LastLandedSets(s.landed, slot);
      EveryField(NewTenant(name, at), slot.column);
    } else {
      SlotFrame(s, s', slot);
    }
  }

  lemma IssuedFits(s: State, key: string, values: Record, slot: Slot)
    requires !Sets(Write(s.tickets, key, values), slot)
    ensures forall w :: Sets(w, slot) ==> (Exists(Issue(s, key, values), w) <==> Exists(s, w))
  {
  }

  lemma NewestTicket(s: State, s': State, key: string, values: Record, slot: Slot)
    requires s'.latest == Newest(s.latest, key, values, s.tickets)
    ensures TicketOf(s', slot)
         == if slot.key == key && slot.column in values then Some(s.tickets) else TicketOf(s, slot)
  {
  }

  lemma ChangeFits(s: State, key: string, u: Update, slot: Slot)
    requires Ticketed(s) && SlotFits(s, slot) && Enabled(s, Changed(key, u))
    ensures SlotFits(Changing(s, key, u), slot)
  {
    hide Field, Assign, InMemory, LastLanded, Newest, TicketOf, Safe;
    var s' := Changing(s, key, u);
    var p := s.memory[key];
    var w := Write(s.tickets, key, Assigned(p, u));
    SafeUpdateAssigns(p, p, u, slot.column);
    NewestTicket(s, s', key, w.values, slot);
    if Sets(w, slot) {
      assert w in s'.pending && Exists(s', w);
      assert forall v :: Exists(s', v) ==> Exists(s, v) || v == w;
      assert RowFits(s', slot);
    } else {
      IssuedFits(s, key, w.values, slot);
      SlotFrame(s, s', slot);
    }
  }

  lemma EncodeFits(s: State, k: nat, slot: Slot)
    requires SlotFits(s, slot) && Enabled(s, Encode(k))
    ensures SlotFits(Encoding(s, k), slot)
  {
    hide Field, LastLanded, TicketOf;
    var s', w := Encoding(s, k), s.pending[k];
    var w' := s'.pending[k];
    Swapped(s, k, w');
    if slot.key in s.memory {
      assert TicketOf(s', slot) == TicketOf(s, slot) by { SameLatest(s, s', slot); }
      assert RowFits(s', slot);
      if TicketOf(s, slot).Some? {
        var v :| Exists(s, v) && Sets(v, slot) && v.ticket == TicketOf(s, slot).value
                 && v.values[slot.column] == Field(s.memory[slot.key], slot.column);
        var v' := if v == w then w' else v;
        assert Exists(s', v') && Sets(v', slot);
      }
      forall v | Exists(s', v) && Sets(v, slot)
        ensures TicketOf(s', slot).Some? && v.ticket <= TicketOf(s', slot).value
      {
        var was := if v == w' then w else v;
        assert Exists(s, was) && Sets(was, slot);
      }
    }
  }

  /** A webhook list is written as it is when its statement gets a connection, not as it was when issued. */
  lemma EncodeCatchesUp(s: State, k: nat)
    requires Enabled(s, Encode(k)) && s.pending[k].key in s.rows
    ensures
      var s', slot := Landing(Encoding(s, k), k), Slot(s.pending[k].key, Webhooks);
      slot.key in s'.memory && slot.key in s'.rows
      && Lookup(s'.rows[slot.key], Webhooks) == Some(Urls(s.memory[slot.key].webhooks))
  {
  }

  lemma SameLatest(s: State, s': State, slot: Slot)
    requires s'.latest == s.latest
    ensures TicketOf(s', slot) == TicketOf(s, slot)
  {
  }

  lemma Swapped(s: State, k: nat, w': Write)
    requires k < |s.pending|
    ensures
      var s' := s.(pending := s.pending[k := w']);
      && Exists(s', w') && Exists(s, s.pending[k])
      && (forall v :: Exists(s, v) && v != s.pending[k] ==> Exists(s', v))
      && (forall v :: Exists(s', v) && v != w' ==> Exists(s, v))
  {
    var s' := s.(pending := s.pending[k := w']);
    assert s'.pending[k] == w';
    forall v | Exists(s, v) && v != s.pending[k] ensures Exists(s', v) {
      if v in s.pending {
        var i :| 0 <= i < |s.pending| && s.pending[i] == v;
        assert s'.pending[i] == v;
      }
    }
  }

  lemma Landed(s: State, k: nat)
    requires k < |s.pending|
    ensures forall v :: Exists(Landing(s, k), v) <==> Exists(s, v)
    ensures forall v :: Exists(Running(s, k), v) <==> Exists(s, v)
    ensures forall v :: Exists(Failing(s, k), v) <==> Exists(s, v)
  {
    assert s.pending == s.pending[..k] + [s.pending[k]] + s.pending[k + 1..];
  }

  lemma LandsInRow(s: State, s': State, k: nat, slot: Slot)
    requires Registered(s) && k < |s.pending| && (s' == Landing(s, k) || s' == Running(s, k))
    requires slot.key in s.base && RowFits(s, slot)
    ensures RowFits(s', slot)
  {
    hide Field, Registered;
    assert (s.landed + [s.pending[k]])[..|s.landed|] == s.landed;
    LastLandedSets(s.landed, slot);
  }

  lemma LandFits(s: State, s': State, k: nat, slot: Slot)
    requires Registered(s) && SlotFits(s, slot) && k < |s.pending| && (s' == Landing(s, k) || s' == Running(s, k))
    ensures SlotFits(s', slot)
  {
    hide Field, TicketOf, RowFits, Registered, Exists;
    Landed(s, k);
    SameLatest(s, s', slot);
    if slot.key in s.memory {
      LandsInRow(s, s', k, slot);
      assert MemoryFits(s', slot);
    }
  }

  lemma FailFits(s: State, k: nat, slot: Slot)
    requires SlotFits(s, slot) && k < |s.pending|
    ensures SlotFits(Failing(s, k), slot)
  {
    Landed(s, k);
    SlotFrame(s, Failing(s, k), slot);
  }

  lemma IssuedTicketed(s: State, key: string, values: Record)
    requires Ticketed(s) && key in s.base
    ensures Ticketed(Issue(s, key, values))
  {
    var s' := Issue(s, key, values);
    forall v, w | v in s'.pending && Past(s', w) && v.ticket == w.ticket ensures v == w && Webhooks !in v.values {
      assert Exists(s, w);
    }
    forall i, j | 0 <= i < j < |s'.pending| ensures s'.pending[i].ticket != s'.pending[j].ticket {
      assert Exists(s, s.pending[i]);
    }
    forall w | Exists(s', w) ensures w.ticket < s'.tickets && w.key in s'.base {
      assert Exists(s, w) || w == Write(s.tickets, key, values);
    }
  }

  lemma EncodedApart(s: State, k: nat)
    requires Ticketed(s) && Enabled(s, Encode(k))
    ensures Apart(Encoding(s, k))
  {
    hide Field, Exists;
    var s' := Encoding(s, k);
    assert forall w :: Past(s', w) <==> Past(s, w);
    forall v, w | v in s'.pending && Past(s', w) && v.ticket == w.ticket ensures v == w && Webhooks !in v.values {
      var i :| 0 <= i < |s'.pending| && s'.pending[i] == v;
      assert s.pending[i] in s.pending && s.pending[i].ticket == v.ticket;
      assert Webhooks !in s.pending[i].values;
    }
  }

  lemma EncodedTicketed(s: State, k: nat)
    requires Ticketed(s) && Enabled(s, Encode(k))
    ensures Ticketed(Encoding(s, k))
  {
    hide Field, Past, Apart;
    var s' := Encoding(s, k);
    EncodedApart(s, k);
    Swapped(s, k, s'.pending[k]);
    forall w | Exists(s', w) ensures w.ticket < s'.tickets && w.key in s'.base {
      assert Exists(s, if w == s'.pending[k] then s.pending[k] else w);
    }
  }

  lemma StillPending(pending: seq<Write>, k: nat, v: Write)
    requires k < |pending| && v in pending[..k] + pending[k + 1..]
    requires forall i, j :: 0 <= i < j < |pending| ==> pending[i].ticket != pending[j].ticket
    ensures v in pending && v.ticket != pending[k].ticket
  {
    var left := pending[..k] + pending[k + 1..];
    var i :| 0 <= i < |left| && left[i] == v;
    assert v == pending[if i < k then i else i + 1];
  }

  lemma EndedApart(s: State, s': State, k: nat)
    requires Apart(s) && k < |s.pending| && s'.pending == s.pending[..k] + s.pending[k + 1..]
    requires forall w :: Past(s', w) <==> Past(s, w) || w == s.pending[k]
    ensures Apart(s')
  {
    hide Past;
    var w := s.pending[k];
    assert w in s.pending;
    forall v | v in s'.pending ensures v in s.pending && v.ticket != w.ticket {
      StillPending(s.pending, k, v);
    }
  }

  lemma EndedTicketed(s: State, s': State, k: nat)
    requires Ticketed(s) && k < |s.pending| && (s' == Landing(s, k) || s' == Failing(s, k))
    ensures Ticketed(s')
  {
    hide Apart;
    Landed(s, k);
    EndedApart(s, s', k);
  }

  lemma RunTicketed(s: State, k: nat)
    requires Ticketed(s) && k < |s.pending| && Webhooks !in s.pending[k].values
    ensures Ticketed(Running(s, k))
  {
    hide Past, Exists;
    Landed(s, k);
    var w := s.pending[k];
    assert forall v :: Past(Running(s, k), v) <==> Past(s, v) || v == w by { RanPast(s, k); }
    forall v | v in s.pending && v.ticket == w.ticket ensures v == w {
      var i :| 0 <= i < |s.pending| && s.pending[i] == v;
    }
  }

  lemma RanPast(s: State, k: nat)
    requires k < |s.pending|
    ensures forall v :: Past(Running(s, k), v) <==> Past(s, v) || v == s.pending[k]
  {
  }

  lemma StepTicketed(s: State, a: Action)
    requires Ticketed(s) && Registered(s) && Enabled(s, a)
    ensures Ticketed(Step(s, a))
  {
    hide Ticketed, Encoding, Landing, Running, Failing, Field, Safe, InMemory, Assign, Newest;
    match a {
      case Changed(key, u) =>
        IssuedTicketed(s, key, Assigned(s.memory[key], u));
        SameTickets(Issue(s, key, Assigned(s.memory[key], u)), Changing(s, key, u));
      case Stale(key, values) => IssuedTicketed(s, key, values);
      case Encode(k) => EncodedTicketed(s, k);
      case Land(k) => EndedTicketed(s, Landing(s, k), k);
      case LandUnseen(k) => RunTicketed(s, k);
      case Fail(k) => EndedTicketed(s, Failing(s, k), k);
      case _ => SameTickets(s, Step(s, a));
    }
  }

  lemma SameTickets(s: State, s': State)
    requires Ticketed(s) && s.base.Keys <= s'.base.Keys
    requires s'.pending == s.pending && s'.landed == s.landed && s'.dropped == s.dropped && s'.tickets == s.tickets
    ensures Ticketed(s')
  {
    assert forall w :: Exists(s', w) <==> Exists(s, w);
    assert forall w :: Past(s', w) <==> Past(s, w);
  }

  lemma CreateRegistered(s: State, key: string, p: Profile, answer: Answer)
    requires Registered(s) && key !in s.rows
    ensures Registered(Creating(s, key, p, answer))
  {
    hide Field, FieldsOf;
    forall c: Column ensures c in FieldsOf(p) {
      EveryField(p, c);
    }
  }

  lemma StepRegistered(s: State, a: Action)
    requires Registered(s) && Enabled(s, a)
    ensures Registered(Step(s, a))
  {
    hide Field, FieldsOf, Creating, InMemory, Assign, Safe;
    if a.Created? {
      CreateRegistered(s, a.key, NewTenant(a.name, a.createdAt), a.answer);
    }
  }

  lemma StepFits(s: State, a: Action, slot: Slot)
    requires Ticketed(s) && Registered(s) && SlotFits(s, slot) && Enabled(s, a)
    ensures SlotFits(Step(s, a), slot)
  {
    hide Ticketed, SlotFits, Creating, Changing, Encoding, Landing, Running, Failing, Field, Safe;
    match a {
      case Created(key, name, at, answer) => CreateFits(s, key, name, at, answer, slot);
      case Changed(key, u) => ChangeFits(s, key, u, slot);
      case Stale(key, values) => StaleFits(s, key, values, slot);
      case Encode(k) => EncodeFits(s, k, slot);
      case Land(k) => LandFits(s, Landing(s, k), k, slot);
      case LandUnseen(k) => LandFits(s, Running(s, k), k, slot);
      case Fail(k) => FailFits(s, k, slot);
      case Forget(key) => SlotFrame(s, Step(s, a), slot);
      case DeleteRow(key, _) => SlotFrame(s, Step(s, a), slot);
    }
  }

  lemma StaleFits(s: State, key: string, values: Record, slot: Slot)
    requires SlotFits(s, slot) && key !in s.memory
    ensures SlotFits(Issue(s, key, values), slot)
  {
    if slot.key in s.memory {
      IssuedFits(s, key, values, slot);
      SlotFrame(s, Issue(s, key, values), slot);
    }
  }

  lemma {:induction false} AlwaysSound(start: State, actions: seq<Action>)
    requires Sound(start) && Run(start, actions).Some?
    ensures Sound(Run(start, actions).value)
  {
    hide Ticketed, Registered, SlotFits, Step, Enabled;
    if actions != [] {
      var front, last := actions[..|actions| - 1], actions[|actions| - 1];
      AlwaysSound(start, front);
      var s := Run(start, front).value;
      StepTicketed(s, last);
      StepRegistered(s, last);
      forall slot: Slot ensures SlotFits(Step(s, last), slot) {
        StepFits(s, last, slot);
      }
    }
  }

  // ---- When memory and table agree ----

  /** Nothing is under way. */
  predicate AtRest(s: State) {
    s.pending == [] && s.deleting == {}
  }

  ghost predicate Agrees(s: State) {
    && s.memory.Keys == s.rows.Keys
    && forall slot: Slot :: slot.key in s.memory ==> Shows(s, slot)
  }

  /** The row's column is the object's field. */
  predicate Shows(s: State, slot: Slot)
    requires slot.key in s.memory
  {
    slot.key in s.rows && slot.column in s.rows[slot.key]
    && s.rows[slot.key][slot.column] == Field(s.memory[slot.key], slot.column)
  }

  /** The statement of the last update of a column, whatever came of it. */
  ghost predicate IsLatest(s: State, slot: Slot, w: Write) {
    Exists(s, w) && Sets(w, slot) && forall v :: Exists(s, v) && Sets(v, slot) ==> v.ticket <= w.ticket
  }

  /**
   The j-th statement to land was overtaken: it is that of the latest update of the column, and after it
   the i-th, the last to set the column, wrote an earlier update's value over it.
   */
  ghost predicate Overtaken(s: State, slot: Slot, j: nat, i: nat) {
    && j < i < |s.landed| && s.landed[i].ticket < s.landed[j].ticket && IsLatest(s, slot, s.landed[j])
    && Sets(s.landed[i], slot) && LastLanded(s.landed, slot) == Some(s.landed[i])
    && s.landed[i].values[slot.column] != s.landed[j].values[slot.column]
  }

  ghost predicate AnyOvertaken(s: State, slot: Slot) {
    exists j: nat, i: nat :: Overtaken(s, slot, j, i)
  }

  /** The statement of the latest update failed without having run, and the others left something else. */
  ghost predicate Missing(s: State, slot: Slot, w: Write)
    requires slot.key in s.base
  {
    w in s.dropped && w !in s.landed && IsLatest(s, slot, w) && Left(s, slot) != w.values[slot.column]
  }

  ghost predicate AnyMissing(s: State, slot: Slot)
    requires slot.key in s.base
  {
    exists w :: Missing(s, slot, w)
  }

  /** What goes wrong with a column: an earlier update's statement lands last, or the latest one never lands. */
  ghost predicate Spoiled(s: State, slot: Slot)
    requires slot.key in s.base
  {
    AnyOvertaken(s, slot) || AnyMissing(s, slot)
  }

  lemma {:induction false} LastLandedAt(landed: seq<Write>, slot: Slot) returns (i: nat)
    requires LastLanded(landed, slot).Some?
    ensures i < |landed| && LastLanded(landed, slot) == Some(landed[i]) && Sets(landed[i], slot)
    ensures forall j :: i < j < |landed| ==> !Sets(landed[j], slot)
  {
    hide Sets;
    if Sets(landed[|landed| - 1], slot) {
      i := |landed| - 1;
    } else {
      i := LastLandedAt(landed[..|landed| - 1], slot);
    }
  }

  /** Once nothing is under way the last statement to set a column decides. */
  lemma SlotAtRest(s: State, slot: Slot)
    requires Ticketed(s) && SlotFits(s, slot) && AtRest(s) && slot.key in s.memory
    ensures Shows(s, slot) <==> !Spoiled(s, slot)
  {
    hide Field, LastLanded, TicketOf, Ticketed, Spoiled, Exists;
    if TicketOf(s, slot).Some? {
      var b :| Exists(s, b) && Sets(b, slot) && b.ticket == TicketOf(s, slot).value
               && b.values[slot.column] == Field(s.memory[slot.key], slot.column);
      assert IsLatest(s, slot, b);
      LatestDecides(s, slot, b);
    } else {
      NoneSpoiled(s, slot);
    }
  }

  lemma LatestDecides(s: State, slot: Slot, b: Write)
    requires Ticketed(s) && AtRest(s) && slot.key in s.base && IsLatest(s, slot, b)
    ensures Left(s, slot) == b.values[slot.column] <==> !Spoiled(s, slot)
  {
    hide Field, LastLanded;
    if b in s.landed {
      var j :| 0 <= j < |s.landed| && s.landed[j] == b;
      LastLandedSets(s.landed, slot);
      var i := LastLandedAt(s.landed, slot);
      assert s.landed[i] in s.landed;
      if Left(s, slot) != b.values[slot.column] {
        assert Overtaken(s, slot, j, i);
      }
    } else if Left(s, slot) != b.values[slot.column] {
      assert Missing(s, slot, b);
    }
    forall w | IsLatest(s, slot, w) ensures w == b {
      SameTicket(s, w, b);
    }
  }

  lemma NoneSpoiled(s: State, slot: Slot)
    requires slot.key in s.base && forall w :: Exists(s, w) ==> !Sets(w, slot)
    ensures !Spoiled(s, slot) && Left(s, slot) == Field(s.base[slot.key], slot.column)
  {
    hide Sets, Field, LastLanded;
    LastLandedSets(s.landed, slot);
    assert forall w :: w in s.landed ==> Exists(s, w);
  }

  lemma SameTicket(s: State, v: Write, w: Write)
    requires Ticketed(s) && Exists(s, v) && Exists(s, w) && s.pending == [] && v.ticket == w.ticket
    ensures v == w
  {
  }

  /**
   Whatever the interleaving of safe operations, once nothing is under way memory and table agree if and
   only if no row was left behind, no statement was overtaken by an earlier one that set the same column
   to something else, and no column whose last update failed holds something else.
   */
  lemma OverlapsAgree(start: State, actions: seq<Action>)
    requires Sound(start) && Run(start, actions).Some? && AtRest(Run(start, actions).value)
    ensures
      var s := Run(start, actions).value;
      && s.memory.Keys <= s.base.Keys
      && (Agrees(s) <==> s.leftover == {} && forall slot: Slot :: slot.key in s.memory ==> !Spoiled(s, slot))
  {
    hide Run, Ticketed, SlotFits, Spoiled, Shows;
    AlwaysSound(start, actions);
    var s := Run(start, actions).value;
    forall slot: Slot | slot.key in s.memory ensures Shows(s, slot) <==> !Spoiled(s, slot) {
      SlotAtRest(s, slot);
    }
  }

  /** Statements that land in the order of their updates overtake nothing. */
  lemma InTurnOvertakesNothing(s: State, slot: Slot)
    requires forall i, j :: 0 <= i < j < |s.landed| ==> s.landed[i].ticket <= s.landed[j].ticket
    ensures !AnyOvertaken(s, slot)
  {
  }

  /** A registry just built from a table with these rows. */
  function Started(profiles: map<string, Profile>): State {
    State.State(profiles, map key | key in profiles :: FieldsOf(profiles[key]), [], {}, [], [], {}, 0, map[], profiles)
  }

  lemma StartIsSound(profiles: map<string, Profile>)
    ensures Sound(Started(profiles)) && AtRest(Started(profiles)) && Agrees(Started(profiles))
  {
    hide Field, FieldsOf;
    forall p: Profile, c: Column ensures c in FieldsOf(p) && FieldsOf(p)[c] == Field(p, c) {
      EveryField(p, c);
    }
  }

  lemma RunOne(start: State, actions: seq<Action>, a: Action)
    requires Run(start, actions).Some? && Enabled(Run(start, actions).value, a)
    ensures Run(start, actions + [a]) == Some(Step(Run(start, actions).value, a))
  {
    assert (actions + [a])[..|actions|] == actions;
  }

  /** Two updates of the credentials whose statements land the other way round. */
  function Crossed(s: State, key: string, data: Dict): State
    requires key in s.memory && s.pending == []
  {
    Landing(Landing(Changing(Changing(s, key, SaveAuth(data)), key, DropAuth), 1), 0)
  }

  lemma CrossedIsWrong(s: State, key: string, data: Dict)
    requires key in s.memory && key in s.rows && AtRest(s)
    ensures
      var s' := Crossed(s, key, data);
      && AtRest(s') && key in s'.memory && key in s'.rows
      && s'.memory[key].creds == None && Lookup(s'.rows[key], Creds) == Some(Json(Some(data)))
  {
    hide Newest;
    var p := s.memory[key];
    var q := InMemory(p, SaveAuth(data));
    var w0, w1 := Write(s.tickets, key, Assigned(p, SaveAuth(data))), Write(s.tickets + 1, key, Assigned(q, DropAuth));
    var s2 := Changing(Changing(s, key, SaveAuth(data)), key, DropAuth);
    assert s2.pending == [w0, w1];
    assert Landing(s2, 1).pending == [w0];
    assert w0.values[Creds] == Json(Some(data));
  }

  /**
   From any rest: credentials whose write is retried past a later logout stay in the row, where the next
   restart of the process finds them.
   */
  lemma LateCredentialsSurviveLogout(start: State, actions: seq<Action>, key: string, data: Dict)
    requires Sound(start) && Run(start, actions).Some? && AtRest(Run(start, actions).value)
    requires key in Run(start, actions).value.memory
    ensures
      var both := actions + [Changed(key, SaveAuth(data))] + [Changed(key, DropAuth)];
      var after := Run(start, both + [Land(1)] + [Land(0)]);
      && after.Some? && AtRest(after.value) && !Agrees(after.value)
      && key in after.value.memory && after.value.memory[key].creds == None
      && key in after.value.rows && Lookup(after.value.rows[key], Creds) == Some(Json(Some(data)))
  {
    hide Run, Changing, Landing, Sound;
    AlwaysSound(start, actions);
    var s := Run(start, actions).value;
    assert key in s.rows by { RowsAreThere(s); }
    var a1, a2 := Changed(key, SaveAuth(data)), Changed(key, DropAuth);
    PendingGrows(s, key, SaveAuth(data));
    PendingGrows(Changing(s, key, SaveAuth(data)), key, DropAuth);
    PendingShrinks(Changing(Changing(s, key, SaveAuth(data)), key, DropAuth), 1);
    RunOne(start, actions, a1);
    RunOne(start, actions + [a1], a2);
    RunOne(start, actions + [a1] + [a2], Land(1));
    RunOne(start, actions + [a1] + [a2] + [Land(1)], Land(0));
    CrossedIsWrong(s, key, data);
    assert !Shows(Crossed(s, key, data), Slot(key, Creds));
  }

  /** Credentials that took effect unseen, a logout, and their retry. */
  function Revived(s: State, key: string, data: Dict): State
    requires key in s.memory && s.pending == []
  {
    Landing(Landing(Changing(Running(Changing(s, key, SaveAuth(data)), 0), key, DropAuth), 1), 0)
  }

  lemma RevivedIsWrong(s: State, key: string, data: Dict)
    requires key in s.memory && key in s.rows && AtRest(s)
    ensures
      var s' := Revived(s, key, data);
      && AtRest(s') && key in s'.memory && key in s'.rows
      && s'.memory[key].creds == None && Lookup(s'.rows[key], Creds) == Some(Json(Some(data)))
  {
    hide Newest, Crossed, InMemory, Assign;
    var w := Write(s.tickets, key, Assigned(s.memory[key], SaveAuth(data)));
    var landed := s.(landed := s.landed + [w], rows := s.rows[key := s.rows[key] + w.values]);
    assert Changing(s, key, SaveAuth(data)).pending == [w];
    assert Running(Changing(s, key, SaveAuth(data)), 0) == Changing(landed, key, SaveAuth(data));
    CrossedIsWrong(landed, key, data);
    assert Revived(s, key, data) == Crossed(landed, key, data) by { CrossedUnfolds(landed, key, data); }
  }

  lemma CrossedUnfolds(s: State, key: string, data: Dict)
    requires key in s.memory && s.pending == []
    ensures Crossed(s, key, data) == Landing(Landing(Changing(Changing(s, key, SaveAuth(data)), key, DropAuth), 1), 0)
  {
  }

  /** The same when they had landed already, unseen: the retry brings them back after the logout. */
  lemma RetryRevivesCredentials(start: State, actions: seq<Action>, key: string, data: Dict)
    requires Sound(start) && Run(start, actions).Some? && AtRest(Run(start, actions).value)
    requires key in Run(start, actions).value.memory
    ensures
      var both := actions + [Changed(key, SaveAuth(data))] + [LandUnseen(0)] + [Changed(key, DropAuth)];
      var after := Run(start, both + [Land(1)] + [Land(0)]);
      && after.Some? && AtRest(after.value)
      && key in after.value.memory && after.value.memory[key].creds == None
      && key in after.value.rows && Lookup(after.value.rows[key], Creds) == Some(Json(Some(data)))
  {
    hide Run, Changing, Landing, Running, Sound;
    AlwaysSound(start, actions);
    var s := Run(start, actions).value;
    assert key in s.rows by { RowsAreThere(s); }
    var a1, a3 := Changed(key, SaveAuth(data)), Changed(key, DropAuth);
    var saved := Changing(s, key, SaveAuth(data));
    PendingGrows(s, key, SaveAuth(data));
    SavingIsRetried(s, key, data);
    PendingStays(saved, 0);
    PendingGrows(Running(saved, 0), key, DropAuth);
    PendingShrinks(Changing(Running(saved, 0), key, DropAuth), 1);
    RunOne(start, actions, a1);
    RunOne(start, actions + [a1], LandUnseen(0));
    RunOne(start, actions + [a1] + [LandUnseen(0)], a3);
    RunOne(start, actions + [a1] + [LandUnseen(0)] + [a3], Land(1));
    RunOne(start, actions + [a1] + [LandUnseen(0)] + [a3] + [Land(1)], Land(0));
    RevivedIsWrong(s, key, data);
  }

  lemma SavingIsRetried(s: State, key: string, data: Dict)
    requires key in s.memory && s.pending == []
    ensures
      var s' := Changing(s, key, SaveAuth(data));
      |s'.pending| == 1 && Retried(s'.pending[0])
  {
  }

  lemma PendingStays(s: State, k: nat)
    requires k < |s.pending|
    ensures Running(s, k).pending == s.pending && Running(s, k).memory == s.memory
  {
  }

  /** From any rest at which both sides agree: a refused update leaves them apart iff it changes the object at all. */
  lemma RefusedUpdateDisagrees(start: State, actions: seq<Action>, key: string, u: Update)
    requires Run(start, actions).Some? && AtRest(Run(start, actions).value) && Agrees(Run(start, actions).value)
    requires Enabled(Run(start, actions).value, Changed(key, u))
    ensures
      var p := Run(start, actions).value.memory[key];
      var after := Run(start, actions + [Changed(key, u)] + [Fail(0)]);
      after.Some? && AtRest(after.value) && (Agrees(after.value) <==> InMemory(p, u) == p)
  {
    hide Run, Changing, Failing, Agrees, InMemory, Safe;
    var s := Run(start, actions).value;
    PendingGrows(s, key, u);
    RunOne(start, actions, Changed(key, u));
    RunOne(start, actions + [Changed(key, u)], Fail(0));
    RefusedAtOnce(s, key, u);
  }

  lemma RefusedAtOnce(s: State, key: string, u: Update)
    requires AtRest(s) && Agrees(s) && key in s.memory
    ensures
      var s' := Failing(Changing(s, key, u), 0);
      AtRest(s') && (Agrees(s') <==> InMemory(s.memory[key], u) == s.memory[key])
  {
    hide Field, InMemory, Assign, Newest;
    var s' := Failing(Changing(s, key, u), 0);
    var p, q := s.memory[key], InMemory(s.memory[key], u);
    if Agrees(s') {
      forall c: Column ensures Field(p, c) == Field(q, c) {
        assert Shows(s, Slot(key, c)) && Shows(s', Slot(key, c));
      }
      SameFields(p, u);
    }
    if q == p {
      forall slot: Slot | slot.key in s'.memory ensures Shows(s', slot) {
        assert Shows(s, slot);
      }
    }
  }

  lemma SameFields(p: Profile, u: Update)
    requires forall c: Column :: Field(p, c) == Field(InMemory(p, u), c)
    ensures InMemory(p, u) == p
  {
    hide Removed, Merged;
    var q := InMemory(p, u);
    assert Field(p, Webhooks) == Field(q, Webhooks) && Field(p, ConnectionState) == Field(q, ConnectionState)
           && Field(p, SelfJid) == Field(q, SelfJid) && Field(p, SelfPhone) == Field(q, SelfPhone)
           && Field(p, SelfName) == Field(q, SelfName) && Field(p, HasAuth) == Field(q, HasAuth)
           && Field(p, Creds) == Field(q, Creds) && Field(p, Settings) == Field(q, Settings);
  }

  lemma RowsAreThere(s: State)
    requires Sound(s)
    ensures s.memory.Keys <= s.rows.Keys
  {
  }

  lemma PendingGrows(s: State, key: string, u: Update)
    requires key in s.memory
    ensures |Changing(s, key, u).pending| == |s.pending| + 1 && key in Changing(s, key, u).memory
  {
  }

  lemma PendingShrinks(s: State, k: nat)
    requires k < |s.pending|
    ensures |Landing(s, k).pending| == |s.pending| - 1
  {
  }
}
