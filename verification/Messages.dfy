/**
 The message table and the contact index of src/store/database.py (PostgreSQL branch), with the
 phone numbers of src/utils/phone.py. A save runs two statements on connections of their own and
 other saves run in between; what comes of a statement is a parameter of it.
 */
module Messages {
  import opened Requests
  import opened Wrappers

  // ---- Phone numbers ----

  predicate IsDigit(c: char) {
    '0' <= c <= '9'
  }

  /** `s.split(c)[0]`. */
  function Before(s: string, c: char): (r: string)
    ensures r <= s && c !in r && (r == s || s[|r|] == c)
  {
    if s == "" || s[0] == c then "" else [s[0]] + Before(s[1..], c)
  }

  function Digits(s: string): (r: string)
    ensures forall i :: 0 <= i < |r| ==> IsDigit(r[i])
  {
    if s == "" then "" else (if IsDigit(s[0]) then [s[0]] else "") + Digits(s[1..])
  }

  function ExtractPhone(jid: string): string {
    Before(Before(jid, '@'), ':')
  }

  /** The phone a chat is filed under; empty when the JID holds no digit. */
  function PhoneOf(jid: string): string {
    Digits(ExtractPhone(jid))
  }

  lemma {:induction false} BeforeStops(x: string, c: char, y: string)
    requires c !in x && (y == "" || y[0] == c)
    ensures Before(x + y, c) == x
  {
    if x == "" {
      assert x + y == y;
    } else {
      assert (x + y)[1..] == x[1..] + y;
      BeforeStops(x[1..], c, y);
    }
  }

  /** Every device and every server suffix of a number is filed under the same contact. */
  lemma DevicesShareAContact(number: string, device: string, server: string)
    requires '@' !in number && ':' !in number && '@' !in device
    ensures PhoneOf(number + (":" + device) + ("@" + server)) == Digits(number)
    ensures PhoneOf(number + ("@" + server)) == Digits(number)
  {
    hide Before, Digits;
    ExtractsNumber(number, ":" + device, "@" + server);
    ExtractsNumber(number, "", "@" + server);
    assert number + "" == number;
  }

  /** Of any text exactly the digits stay, in order. */
  lemma {:induction false} DigitsStay(s: string, more: string)
    ensures Digits(s + more) == Digits(s) + Digits(more)
    ensures forall c: char :: Digits([c]) == if '0' <= c <= '9' then [c] else ""
  {
    if s == "" {
      assert s + more == more;
    } else {
      assert (s + more)[1..] == s[1..] + more;
      DigitsStay(s[1..], more);
    }
  }

  lemma {:induction false} NumberStays(number: string)
    requires forall i :: 0 <= i < |number| ==> '0' <= number[i] <= '9'
    ensures Digits(number) == number
  {
    if number != "" {
      NumberStays(number[1..]);
    }
  }

  /** A plain number is filed under itself, whatever device and server it came from: numbers do not mix. */
  lemma NumbersDoNotMix(number: string, other: string, device: string, server: string)
    requires forall i :: 0 <= i < |number| ==> '0' <= number[i] <= '9'
    requires forall i :: 0 <= i < |other| ==> '0' <= other[i] <= '9'
    requires '@' !in device
    ensures PhoneOf(number + (":" + device) + ("@" + server)) == number == PhoneOf(number + ("@" + server))
    ensures PhoneOf(number + ("@" + server)) == PhoneOf(other + ("@" + server)) <==> number == other
  {
    hide PhoneOf, Digits;
    DevicesShareAContact(number, device, server);
    DevicesShareAContact(other, device, server);
    NumberStays(number);
    NumberStays(other);
  }

  lemma ExtractsNumber(number: string, device: string, server: string)
    requires '@' !in number && ':' !in number && '@' !in device && server != "" && server[0] == '@'
    requires device == "" || device[0] == ':'
    ensures ExtractPhone((number + device) + server) == number
  {
    hide Before;
    BeforeStops(number + device, '@', server);
    BeforeStops(number, ':', device);
  }

  // ---- Rows ----

  datatype Message = Message(
    id: string, fromJid: string, chatJid: string, isGroup: bool, pushName: Option<string>, text: string,
    kind: string, timestamp: int, direction: string, chatName: Option<string>)

  datatype Row = Row(tenant: string, id: nat, message: Message)

  datatype Key = Key(tenant: string, phone: string)

  datatype Contact = Contact(name: Option<string>, chatJid: string, isGroup: bool, count: nat)

  datatype Tables = Tables(messages: seq<Row>, contacts: map<Key, Contact>, serial: nat)

  /** What comes of the insert and of the upsert of one save. */
  datatype Fault = Fault(insert: Answer, upsert: Answer)

  datatype Outcome = Inserted(id: nat) | Conflict | Raised

  predicate IsSpace(c: char) {
    c in {' ', '\t', '\n', '\r', '\U{0b}', '\U{0c}', '\U{1c}', '\U{1d}', '\U{1e}', '\U{1f}', '\U{85}', '\U{a0}'}
  }

  function StripLeft(s: string): (r: string)
    ensures r == "" || !IsSpace(r[0])
    ensures |r| <= |s| && r == s[|s| - |r|..] && forall i :: 0 <= i < |s| - |r| ==> IsSpace(s[i])
  {
    if s == "" || !IsSpace(s[0]) then s else StripLeft(s[1..])
  }

  function StripRight(s: string): (r: string)
    ensures r <= s && (r == "" || !IsSpace(r[|r| - 1]))
    ensures forall i :: |r| <= i < |s| ==> IsSpace(s[i])
  {
    if s == "" || !IsSpace(s[|s| - 1]) then s else StripRight(s[..|s| - 1])
  }

  function Strip(s: string): string {
    StripRight(StripLeft(s))
  }

  /** `strip` cuts out the part between the first and the last character that is no space. */
  lemma StripTrims(s: string) returns (lo: nat, hi: nat)
    ensures lo <= hi <= |s| && Strip(s) == s[lo..hi]
    ensures forall i :: 0 <= i < lo || hi <= i < |s| ==> IsSpace(s[i])
    ensures lo < hi ==> !IsSpace(s[lo]) && !IsSpace(s[hi - 1])
  {
    var left := StripLeft(s);
    lo := |s| - |left|;
    hi := lo + |Strip(s)|;
  }

  /** The name a message offers for its chat's contact. */
  function NameOffered(m: Message): (name: Option<string>)
    ensures name.Some? ==> name.value != ""
  {
    if m.isGroup && Truthy(m.chatName) then m.chatName
    else if !m.isGroup && Truthy(m.pushName) && Strip(m.pushName.value) != "" then Some(Strip(m.pushName.value))
    else None
  }

  /**
   A group is named after its chat only, whoever writes. A direct chat is named after its sender,
   without outer spaces, whenever the sender's name has any other character.
   */
  lemma WhoNamesAContact(m: Message)
    ensures m.isGroup ==> forall p :: NameOffered(m.(pushName := p)) == NameOffered(m)
    ensures m.isGroup && m.chatName.Some? ==> NameOffered(m) == if m.chatName.value == "" then None else m.chatName
    ensures !m.isGroup && m.pushName.Some? ==>
              (NameOffered(m).Some? <==> exists i :: 0 <= i < |m.pushName.value| && !IsSpace(m.pushName.value[i]))
    ensures !m.isGroup && NameOffered(m).Some? ==>
              exists lo, hi :: 0 <= lo < hi <= |m.pushName.value| && NameOffered(m).value == m.pushName.value[lo..hi]
                && !IsSpace(m.pushName.value[lo]) && !IsSpace(m.pushName.value[hi - 1])
                && forall i :: 0 <= i < lo || hi <= i < |m.pushName.value| ==> IsSpace(m.pushName.value[i])
  {
    hide IsSpace, Strip;
    if !m.isGroup && m.pushName.Some? {
      var lo, hi := StripTrims(m.pushName.value);
      if lo < hi {
        assert !IsSpace(m.pushName.value[lo]);
      }
    }
  }

  predicate Known(rows: seq<Row>, tenant: string, id: string) {
    exists i :: 0 <= i < |rows| && rows[i].tenant == tenant && rows[i].message.id == id
  }

  /** `INSERT … ON CONFLICT (tenant_hash, phone) DO UPDATE`. */
  function Upserted(before: Option<Contact>, name: Option<string>, chatJid: string, isGroup: bool): Contact {
    match before
    case None => Contact(name, chatJid, isGroup, 1)
    case Some(c) => Contact(if Truthy(name) then name else c.name, chatJid, isGroup, c.count + 1)
  }

  // ---- What the tables mean ----

  function KeyOf(row: Row): Key {
    Key(row.tenant, PhoneOf(row.message.chatJid))
  }

  /** The row belongs to the contact. */
  predicate Files(row: Row, key: Key) {
    KeyOf(row) == key && key.phone != ""
  }

  function CountFor(rows: seq<Row>, key: Key): nat {
    if rows == [] then 0
    else CountFor(rows[..|rows| - 1], key) + if Files(rows[|rows| - 1], key) then 1 else 0
  }

  /** The row has a say on the contact's chat, or, with `naming`, on its name. */
  predicate Speaks(row: Row, key: Key, naming: bool) {
    Files(row, key) && (naming ==> NameOffered(row.message).Some?)
  }

  function LastWord(rows: seq<Row>, key: Key, naming: bool): Option<Row> {
    if rows == [] then None
    else if Speaks(rows[|rows| - 1], key, naming) then Some(rows[|rows| - 1])
    else LastWord(rows[..|rows| - 1], key, naming)
  }

  /** The contact the index should hold for these rows: how many, the last one's chat, the last name offered. */
  function Expected(rows: seq<Row>, key: Key): Option<Contact> {
    var last, named := LastWord(rows, key, false), LastWord(rows, key, true);
    if last.None? then None
    else
      Some(Contact(if named.Some? then NameOffered(named.value.message) else None,
                   last.value.message.chatJid, last.value.message.isGroup, CountFor(rows, key)))
  }

  lemma Appended(rows: seq<Row>, row: Row, key: Key)
    ensures CountFor(rows + [row], key) == CountFor(rows, key) + if Files(row, key) then 1 else 0
    ensures forall naming ::
              LastWord(rows + [row], key, naming)
              == if Speaks(row, key, naming) then Some(row) else LastWord(rows, key, naming)
  {
    assert (rows + [row])[..|rows|] == rows;
  }

  /** One more row is one more upsert of its contact. */
  lemma ExpectedGrows(rows: seq<Row>, row: Row, key: Key)
    ensures Expected(rows + [row], key)
         == if Files(row, key)
            then Some(Upserted(Expected(rows, key), NameOffered(row.message), row.message.chatJid, row.message.isGroup))
            else Expected(rows, key)
  {
    hide Files, NameOffered, LastWord, CountFor;
    Appended(rows, row, key);
    NoneFiled(rows, key);
  }

  lemma {:induction false} NoneFiled(rows: seq<Row>, key: Key)
    ensures LastWord(rows, key, false).None? <==> CountFor(rows, key) == 0
    ensures LastWord(rows, key, false).None? ==> LastWord(rows, key, true).None?
  {
    if rows != [] {
      NoneFiled(rows[..|rows| - 1], key);
    }
  }

  ghost predicate IndexIs(contacts: map<Key, Contact>, rows: seq<Row>) {
    forall key: Key :: Lookup(contacts, key) == Expected(rows, key)
  }

  // ---- One save ----

  datatype Saved = Saved(tables: Tables, outcome: Outcome)

  function WithContact(contacts: map<Key, Contact>, row: Row): map<Key, Contact> {
    var m, key := row.message, KeyOf(row);
    contacts[key := Upserted(Lookup(contacts, key), NameOffered(m), m.chatJid, m.isGroup)]
  }

  /** A rejected insert still draws from the id sequence; a failed upsert leaves the inserted row behind. */
  function Save(t: Tables, tenant: string, m: Message, fault: Fault): Saved {
    if fault.insert == Refused then Saved(t, Raised)
    else
      var drawn := t.(serial := t.serial + 1);
      if Known(t.messages, tenant, m.id) then Saved(drawn, if fault.insert == Done then Conflict else Raised)
      else
        var row := Row(tenant, t.serial + 1, m);
        var inserted := drawn.(messages := t.messages + [row]);
        if fault.insert == Unseen then Saved(inserted, Raised)
        else if KeyOf(row).phone == "" then Saved(inserted, Inserted(row.id))
        else if fault.upsert == Refused then Saved(inserted, Raised)
        else
          Saved(inserted.(contacts := WithContact(t.contacts, row)),
                if fault.upsert == Done then Inserted(row.id) else Raised)
  }

  /**
   A save adds the message as it is, unless its id is stored or the insert is refused; then it counts the
   message for its contact, unless there is none, the insert raised, or the upsert is refused. It reports
   the new row's id exactly if it added one and nothing raised.
   */
  lemma SaveIsExact(t: Tables, tenant: string, m: Message, fault: Fault)
    ensures
      var Saved(after, outcome) := Save(t, tenant, m, fault);
      var row := Row(tenant, t.serial + 1, m);
      var added := !Known(t.messages, tenant, m.id) && fault.insert != Refused;
      var counts := added && fault.insert == Done && PhoneOf(m.chatJid) != "";
      && after.messages == (if added then t.messages + [row] else t.messages)
      && after.contacts == (if counts && fault.upsert != Refused then WithContact(t.contacts, row) else t.contacts)
      && after.serial == (if fault.insert == Refused then t.serial else t.serial + 1)
      && (outcome.Inserted? <==> added && fault.insert == Done && (counts ==> fault.upsert == Done))
      && (outcome.Inserted? ==> outcome.id == row.id)
      && (outcome == Conflict <==> Known(t.messages, tenant, m.id) && fault.insert == Done)
  {
    hide WithContact, Known, PhoneOf;
  }

  class Database {
    var messages: seq<Row>
    var contacts: map<Key, Contact>
    var serial: nat

    ghost function State(): Tables
      reads this
    {
      Tables(messages, contacts, serial)
    }

    constructor ()
      ensures State() == Tables([], map[], 0)
    {
      messages := [];
      contacts := map[];
      serial := 0;
    }

    method UpsertContact(tenant: string, phone: string, name: Option<string>, chatJid: string, isGroup: bool)
      modifies `contacts
      ensures
        var key := Key(tenant, phone);
        contacts == old(contacts)[key := Upserted(Lookup(old(contacts), key), name, chatJid, isGroup)]
    {
      var key := Key(tenant, phone);
      if key in contacts {
        var c := contacts[key];
        var kept := if name.Some? && name.value != "" then name else c.name;
        contacts := contacts[key := Contact(kept, chatJid, isGroup, c.count + 1)];
      } else {
        contacts := contacts[key := Contact(name, chatJid, isGroup, 1)];
      }
    }

    method SaveMessage(tenant: string, m: Message, fault: Fault) returns (outcome: Outcome)
      modifies this
      ensures Saved(State(), outcome) == Save(old(State()), tenant, m, fault)
    {
      if fault.insert == Refused {
        return Raised;
      }
      serial := serial + 1;
      var msgId := serial;
      var known := Known(messages, tenant, m.id);
      if !known {
        messages := messages + [Row(tenant, msgId, m)];
      }
      if fault.insert == Unseen {
        return Raised;
      }
      if known {
        return Conflict;
      }
      var phone := Digits(ExtractPhone(m.chatJid));
      if phone != "" {
        if fault.upsert == Refused {
          return Raised;
        }
        var name := None;
        if m.isGroup && Truthy(m.chatName) {
          name := m.chatName;
        } else if !m.isGroup && Truthy(m.pushName) && Strip(m.pushName.value) != "" {
          name := Some(Strip(m.pushName.value));
        }
        UpsertContact(tenant, phone, name, m.chatJid, m.isGroup);
        if fault.upsert == Unseen {
          return Raised;
        }
      }
      return Inserted(msgId);
    }
  }

  /** A message that is already stored changes neither table, whatever raises. */
  lemma ReplayChangesNothing(t: Tables, tenant: string, m: Message, fault: Fault)
    requires Known(t.messages, tenant, m.id)
    ensures
      var after := Save(t, tenant, m, fault);
      after.tables.messages == t.messages && after.tables.contacts == t.contacts && !after.outcome.Inserted?
  {
  }

  // ---- Saves that overlap ----

  /**
   The tables, and history: rows inserted whose upsert is still to come, rows whose upsert ran, in the
   order the upserts ran, and rows that will never have one because a statement raised.
   */
  datatype State = State(tables: Tables, waiting: seq<Row>, indexed: seq<Row>, lost: seq<Row>)

  /** One statement of some save; `Upsert(k, …)` is that of the k-th row waiting for it. */
  datatype Action = Insert(tenant: string, message: Message, answer: Answer) | Upsert(k: nat, answer: Answer)

  predicate Enabled(s: State, a: Action) {
    a.Upsert? ==> a.k < |s.waiting|
  }

  function Inserting(s: State, tenant: string, m: Message, answer: Answer): State {
    if answer == Refused then s
    else
      var drawn := s.tables.(serial := s.tables.serial + 1);
      if Known(s.tables.messages, tenant, m.id) then s.(tables := drawn)
      else
        var row := Row(tenant, s.tables.serial + 1, m);
        var inserted := s.(tables := drawn.(messages := s.tables.messages + [row]));
        if KeyOf(row).phone == "" then inserted
        else if answer == Unseen then inserted.(lost := s.lost + [row])
        else inserted.(waiting := s.waiting + [row])
  }

  function Upserting(s: State, k: nat, answer: Answer): State
    requires k < |s.waiting|
  {
    var row := s.waiting[k];
    var left := s.(waiting := s.waiting[..k] + s.waiting[k + 1..]);
    if answer == Refused then left.(lost := s.lost + [row])
    else left.(tables := s.tables.(contacts := WithContact(s.tables.contacts, row)), indexed := s.indexed + [row])
  }

  function Step(s: State, a: Action): State
    requires Enabled(s, a)
  {
    match a
    case Insert(tenant, m, answer) => Inserting(s, tenant, m, answer)
    case Upsert(k, answer) => Upserting(s, k, answer)
  }

  /** The state after a run, or None if some step of it was not possible. */
  function Run(start: State, actions: seq<Action>): Option<State> {
    if actions == [] then Some(start)
    else
      var before := Run(start, actions[..|actions| - 1]);
      if before.Some? && Enabled(before.value, actions[|actions| - 1])
      then Some(Step(before.value, actions[|actions| - 1])) else None
  }

  /** A save that nothing interrupts: its insert and, if a row is left waiting, its upsert. */
  function Saving(s: State, tenant: string, m: Message, fault: Fault): State
    requires s.waiting == []
  {
    var inserted := Step(s, Insert(tenant, m, fault.insert));
    if inserted.waiting == [] then inserted else Step(inserted, Upsert(0, fault.upsert))
  }

  /** It does to the tables what `save_message` does. */
  lemma SaveIsTwoSteps(s: State, tenant: string, m: Message, fault: Fault)
    requires s.waiting == []
    ensures Saving(s, tenant, m, fault).waiting == []
    ensures Saving(s, tenant, m, fault).tables == Save(s.tables, tenant, m, fault).tables
  {
  }

  // ---- What every interleaving keeps ----

  ghost predicate Unique(rows: seq<Row>) {
    forall i, j :: 0 <= i < j < |rows| ==>
      rows[i].tenant != rows[j].tenant || rows[i].message.id != rows[j].message.id
  }

  /** Ids grow along the table, and the sequence is ahead of them. */
  ghost predicate Numbered(rows: seq<Row>, serial: nat) {
    && (forall i, j :: 0 <= i < j < |rows| ==> rows[i].id < rows[j].id)
    && forall row :: row in rows ==> row.id <= serial
  }

  /** Every row of a contact had its upsert, waits for it, or lost it; and only those. */
  ghost predicate WellPlaced(s: State, key: Key) {
    && CountFor(s.tables.messages, key)
       == CountFor(s.indexed, key) + CountFor(s.waiting, key) + CountFor(s.lost, key)
    && forall row :: Files(row, key) ==>
         (row in s.tables.messages <==> row in s.indexed || row in s.waiting || row in s.lost)
  }

  ghost predicate Sound(s: State) {
    && Unique(s.tables.messages) && Numbered(s.tables.messages, s.tables.serial)
    && IndexIs(s.tables.contacts, s.indexed)
    && (forall key: Key :: WellPlaced(s, key))
    && (forall row :: row in s.lost || row in s.waiting ==> KeyOf(row).phone != "")
  }

  /** Nothing is under way, and the index is that of the table. */
  ghost predicate Settled(s: State) {
    && s.waiting == [] && s.lost == [] && s.indexed == s.tables.messages
    && Unique(s.tables.messages) && Numbered(s.tables.messages, s.tables.serial)
    && IndexIs(s.tables.contacts, s.tables.messages)
  }

  lemma IndexGrows(contacts: map<Key, Contact>, rows: seq<Row>, row: Row)
    requires IndexIs(contacts, rows) && KeyOf(row).phone != ""
    ensures IndexIs(WithContact(contacts, row), rows + [row])
  {
    hide Expected, NameOffered, Upserted;
    forall key: Key
      ensures Lookup(WithContact(contacts, row), key) == Expected(rows + [row], key)
    {
      ExpectedGrows(rows, row, key);
    }
  }

  lemma UniqueGrows(rows: seq<Row>, row: Row)
    requires Unique(rows) && !Known(rows, row.tenant, row.message.id)
    ensures Unique(rows + [row])
  {
  }

  lemma NumberedGrows(rows: seq<Row>, serial: nat, row: Row)
    requires Numbered(rows, serial) && row.id == serial + 1
    ensures Numbered(rows + [row], serial + 1)
  {
  }

  lemma {:induction false} CountTaken(rows: seq<Row>, k: nat, key: Key)
    requires k < |rows|
    ensures CountFor(rows, key) == CountFor(rows[..k] + rows[k + 1..], key) + if Files(rows[k], key) then 1 else 0
  {
    hide Files;
    var last := |rows| - 1;
    if k == last {
      assert rows[..k] + rows[k + 1..] == rows[..last];
    } else {
      var rest := rows[..k] + rows[k + 1..];
      CountTaken(rows[..last], k, key);
      assert rest[..|rest| - 1] == rows[..last][..k] + rows[..last][k + 1..];
    }
  }

  lemma InsertKeepsPlaces(s: State, tenant: string, m: Message, answer: Answer, key: Key)
    requires WellPlaced(s, key)
    ensures WellPlaced(Inserting(s, tenant, m, answer), key)
  {
    hide Known, KeyOf, CountFor;
    var row := Row(tenant, s.tables.serial + 1, m);
    Appended(s.tables.messages, row, key);
    Appended(s.waiting, row, key);
    Appended(s.lost, row, key);
    assert KeyOf(row).phone == "" ==> !Files(row, key);
  }

  lemma InsertKeepsSound(s: State, tenant: string, m: Message, answer: Answer)
    requires Sound(s)
    ensures Sound(Inserting(s, tenant, m, answer))
  {
    hide Unique, Numbered, IndexIs, WellPlaced, Known, KeyOf;
    var row := Row(tenant, s.tables.serial + 1, m);
    if !Known(s.tables.messages, tenant, m.id) {
      UniqueGrows(s.tables.messages, row);
    }
    NumberedGrows(s.tables.messages, s.tables.serial, row);
    NumberedLater(s.tables.messages, s.tables.serial);
    forall key: Key ensures WellPlaced(Inserting(s, tenant, m, answer), key) {
      InsertKeepsPlaces(s, tenant, m, answer, key);
    }
  }

  lemma NumberedLater(rows: seq<Row>, serial: nat)
    requires Numbered(rows, serial)
    ensures Numbered(rows, serial + 1)
  {
  }

  lemma UpsertKeepsPlaces(s: State, k: nat, answer: Answer, key: Key)
    requires WellPlaced(s, key) && k < |s.waiting|
    ensures WellPlaced(Upserting(s, k, answer), key)
  {
    hide Files, CountFor, WithContact;
    var row := s.waiting[k];
    CountTaken(s.waiting, k, key);
    Appended(s.indexed, row, key);
    Appended(s.lost, row, key);
    var left := s.waiting[..k] + s.waiting[k + 1..];
    assert s.waiting == s.waiting[..k] + [row] + s.waiting[k + 1..];
    assert forall r :: r in s.waiting <==> r == row || r in left;
  }

  lemma UpsertKeepsSound(s: State, k: nat, answer: Answer)
    requires Sound(s) && k < |s.waiting|
    ensures Sound(Upserting(s, k, answer))
  {
    hide Unique, Numbered, IndexIs, WellPlaced, KeyOf, WithContact;
    var row := s.waiting[k];
    assert KeyOf(row).phone != "";
    IndexGrows(s.tables.contacts, s.indexed, row);
    forall key: Key ensures WellPlaced(Upserting(s, k, answer), key) {
      UpsertKeepsPlaces(s, k, answer, key);
    }
  }

  lemma SettledIsSound(s: State)
    requires Settled(s)
    ensures Sound(s)
  {
    hide IndexIs, Unique, Numbered;
    assert forall key: Key :: CountFor([], key) == 0;
  }

  /**
   Whatever the interleaving and whatever raises: keys stay unique, and each contact counts the rows
   whose upsert ran and holds what the last of these upserts said.
   */
  lemma {:induction false} AlwaysSound(start: State, actions: seq<Action>)
    requires Sound(start) && Run(start, actions).Some?
    ensures Sound(Run(start, actions).value)
  {
    hide Sound, Inserting, Upserting;
    if actions != [] {
      var front, last := actions[..|actions| - 1], actions[|actions| - 1];
      AlwaysSound(start, front);
      match last {
        case Insert(tenant, m, answer) => InsertKeepsSound(Run(start, front).value, tenant, m, answer);
        case Upsert(k, answer) => UpsertKeepsSound(Run(start, front).value, k, answer);
      }
    }
  }

  // ---- When the index agrees with the table ----

  datatype Said = InChat(jid: string, isGroup: bool) | Named(name: Option<string>)

  function SaidBy(row: Row, naming: bool): Said {
    if naming then Named(NameOffered(row.message)) else InChat(row.message.chatJid, row.message.isGroup)
  }

  /** No row that speaks was inserted later. */
  ghost predicate Youngest(rows: seq<Row>, key: Key, naming: bool, row: Row) {
    Speaks(row, key, naming) && forall other :: other in rows && Speaks(other, key, naming) ==> other.id <= row.id
  }

  /**
   The j-th upsert was overtaken: it wrote what the youngest message of the contact says, and then the
   i-th, the last to write it, wrote what an older one says instead.
   */
  ghost predicate Overtaken(upserts: seq<Row>, key: Key, naming: bool, j: nat, i: nat) {
    && j < i < |upserts| && upserts[i].id < upserts[j].id
    && Youngest(upserts, key, naming, upserts[j]) && LastWord(upserts, key, naming) == Some(upserts[i])
    && SaidBy(upserts[i], naming) != SaidBy(upserts[j], naming)
  }

  ghost predicate AnyOvertaken(upserts: seq<Row>, key: Key) {
    exists naming: bool, j: nat, i: nat :: Overtaken(upserts, key, naming, j, i)
  }

  lemma {:induction false} LastWordAt(rows: seq<Row>, key: Key, naming: bool) returns (i: nat)
    requires LastWord(rows, key, naming).Some?
    ensures i < |rows| && LastWord(rows, key, naming) == Some(rows[i]) && Speaks(rows[i], key, naming)
    ensures forall j :: i < j < |rows| ==> !Speaks(rows[j], key, naming)
  {
    hide Speaks;
    if Speaks(rows[|rows| - 1], key, naming) {
      i := |rows| - 1;
    } else {
      i := LastWordAt(rows[..|rows| - 1], key, naming);
    }
  }

  lemma {:induction false} SomeoneSpeaks(rows: seq<Row>, key: Key, naming: bool, row: Row)
    requires row in rows && Speaks(row, key, naming)
    ensures LastWord(rows, key, naming).Some?
  {
    hide Speaks;
    if row != rows[|rows| - 1] {
      assert rows == rows[..|rows| - 1] + [rows[|rows| - 1]];
      SomeoneSpeaks(rows[..|rows| - 1], key, naming, row);
    }
  }

  /** In a table the last word is the youngest row's, and nobody else's. */
  lemma LastIsYoungest(rows: seq<Row>, serial: nat, key: Key, naming: bool, row: Row)
    requires Numbered(rows, serial) && row in rows
    ensures LastWord(rows, key, naming) == Some(row) <==> Youngest(rows, key, naming, row)
  {
    hide Speaks;
    if Speaks(row, key, naming) {
      SomeoneSpeaks(rows, key, naming, row);
      var i := LastWordAt(rows, key, naming);
      var j :| 0 <= j < |rows| && rows[j] == row;
      forall k | 0 <= k < |rows| && Speaks(rows[k], key, naming) ensures rows[k].id <= rows[i].id {
        assert k <= i;
      }
    }
    if LastWord(rows, key, naming) == Some(row) {
      var i := LastWordAt(rows, key, naming);
    }
  }

  /** Once every upsert has run, the rows of a contact in the table are those upserted. */
  lemma SameRows(s: State, key: Key)
    requires WellPlaced(s, key) && s.waiting == [] && s.lost == []
    ensures CountFor(s.tables.messages, key) == CountFor(s.indexed, key)
    ensures forall row :: Files(row, key) ==> (row in s.tables.messages <==> row in s.indexed)
  {
    assert CountFor([], key) == 0;
  }

  /** The two last words on a contact are the same, unless an upsert was overtaken. */
  lemma SameWord(s: State, key: Key, naming: bool)
    requires WellPlaced(s, key) && Numbered(s.tables.messages, s.tables.serial) && s.waiting == [] && s.lost == []
    ensures
      var table, index := LastWord(s.tables.messages, key, naming), LastWord(s.indexed, key, naming);
      && table.Some? == index.Some?
      && (index.Some? && SaidBy(index.value, naming) != SaidBy(table.value, naming) <==>
            exists j: nat, i: nat :: Overtaken(s.indexed, key, naming, j, i))
  {
    hide LastWord, SaidBy, WellPlaced, Numbered, CountFor, Files, NameOffered;
    SameRows(s, key);
    var table, index := LastWord(s.tables.messages, key, naming), LastWord(s.indexed, key, naming);
    if table.Some? {
      var i := LastWordAt(s.tables.messages, key, naming);
      SomeoneSpeaks(s.indexed, key, naming, table.value);
    }
    if index.Some? {
      var i := LastWordAt(s.indexed, key, naming);
      SomeoneSpeaks(s.tables.messages, key, naming, index.value);
      LastIsYoungest(s.tables.messages, s.tables.serial, key, naming, table.value);
      SameYoungest(s, key, naming, table.value);
      if SaidBy(index.value, naming) != SaidBy(table.value, naming) {
        var j :| 0 <= j < |s.indexed| && s.indexed[j] == table.value;
        YoungerThan(s, key, naming, index.value, table.value);
        assert Overtaken(s.indexed, key, naming, j, i);
      }
    }
    forall j: nat, i: nat | Overtaken(s.indexed, key, naming, j, i)
      ensures index.Some? && SaidBy(index.value, naming) != SaidBy(table.value, naming)
    {
      SameYoungest(s, key, naming, s.indexed[j]);
      LastIsYoungest(s.tables.messages, s.tables.serial, key, naming, s.indexed[j]);
    }
  }

  lemma SameYoungest(s: State, key: Key, naming: bool, row: Row)
    requires forall row :: Files(row, key) ==> (row in s.tables.messages <==> row in s.indexed)
    ensures Youngest(s.tables.messages, key, naming, row) <==> Youngest(s.indexed, key, naming, row)
  {
  }

  /** Different rows of the table have different ids. */
  lemma YoungerThan(s: State, key: Key, naming: bool, older: Row, younger: Row)
    requires Numbered(s.tables.messages, s.tables.serial) && older != younger
    requires older in s.tables.messages && younger in s.tables.messages && Speaks(older, key, naming)
    requires Youngest(s.tables.messages, key, naming, younger)
    ensures older.id < younger.id
  {
    var i :| 0 <= i < |s.tables.messages| && s.tables.messages[i] == older;
    var j :| 0 <= j < |s.tables.messages| && s.tables.messages[j] == younger;
  }

  lemma AgreesOnContact(s: State, key: Key)
    requires WellPlaced(s, key) && Numbered(s.tables.messages, s.tables.serial) && s.waiting == [] && s.lost == []
    ensures Expected(s.indexed, key) == Expected(s.tables.messages, key)
       <==> !AnyOvertaken(s.indexed, key)
  {
    hide WellPlaced, Numbered, Overtaken, LastWord, NameOffered;
    SameRows(s, key);
    SameWord(s, key, false);
    SameWord(s, key, true);
    var table, index := LastWord(s.tables.messages, key, true), LastWord(s.indexed, key, true);
    NoneFiled(s.indexed, key);
    if index.Some? {
      var i := LastWordAt(s.indexed, key, true);
      i := LastWordAt(s.tables.messages, key, true);
    }
  }

  lemma AgreesAtRest(s: State)
    requires Sound(s) && s.waiting == []
    ensures IndexIs(s.tables.contacts, s.tables.messages)
       <==> s.lost == [] && !exists key: Key :: AnyOvertaken(s.indexed, key)
  {
    hide Expected, AnyOvertaken, WellPlaced, Numbered, Unique;
    if s.lost != [] {
      LostIsMissed(s);
    } else {
      forall key: Key
        ensures Lookup(s.tables.contacts, key) == Expected(s.tables.messages, key) <==> !AnyOvertaken(s.indexed, key)
      {
        AgreesOnContact(s, key);
        assert Lookup(s.tables.contacts, key) == Expected(s.indexed, key);
      }
    }
  }

  /**
   After any interleaving, once nothing is under way, the index agrees with the whole table if and only
   if no row lost its upsert and no upsert was overtaken by an older one that says something else.
   */
  lemma IndexAgrees(start: State, actions: seq<Action>)
    requires Sound(start) && Run(start, actions).Some? && Run(start, actions).value.waiting == []
    ensures
      var s := Run(start, actions).value;
      IndexIs(s.tables.contacts, s.tables.messages)
      <==> s.lost == [] && !exists key: Key :: AnyOvertaken(s.indexed, key)
  {
    hide Run, Sound, IndexIs, AnyOvertaken;
    AlwaysSound(start, actions);
    AgreesAtRest(Run(start, actions).value);
  }

  /** A lost upsert leaves its contact's count short for good. */
  lemma LostIsMissed(s: State)
    requires Sound(s) && s.lost != []
    ensures !IndexIs(s.tables.contacts, s.tables.messages)
  {
    hide Unique, Numbered, KeyOf;
    var key := KeyOf(s.lost[|s.lost| - 1]);
    assert s.lost[|s.lost| - 1] in s.lost;
    assert CountFor(s.lost, key) > 0;
    assert WellPlaced(s, key);
    assert Lookup(s.tables.contacts, key) == Expected(s.indexed, key);
    NoneFiled(s.tables.messages, key);
    NoneFiled(s.indexed, key);
  }

  /** No step makes up for a lost upsert. */
  lemma {:induction false} LostStays(start: State, before: seq<Action>, after: seq<Action>)
    requires Run(start, before + after).Some?
    ensures Run(start, before).Some? && Run(start, before).value.lost <= Run(start, before + after).value.lost
  {
    hide Known, KeyOf, WithContact;
    var all := before + after;
    if after == [] {
      assert all == before;
    } else {
      assert all[..|all| - 1] == before + after[..|after| - 1];
      LostStays(start, before, after[..|after| - 1]);
    }
  }

  /** Once an upsert is lost the index disagrees with the table in every later state. */
  lemma LostForGood(start: State, before: seq<Action>, after: seq<Action>)
    requires Sound(start) && Run(start, before + after).Some?
    requires Run(start, before).Some? && Run(start, before).value.lost != []
    ensures
      var s := Run(start, before + after).value;
      !IndexIs(s.tables.contacts, s.tables.messages)
  {
    hide Run, Sound, IndexIs;
    LostStays(start, before, after);
    AlwaysSound(start, before + after);
    LostIsMissed(Run(start, before + after).value);
  }

  /** Upserts that run in the order of the ids overtake nothing. */
  lemma InTurnOvertakesNothing(upserts: seq<Row>, serial: nat, key: Key)
    requires Numbered(upserts, serial)
    ensures !AnyOvertaken(upserts, key)
  {
  }

  lemma SavingKeepsTurn(s: State, tenant: string, m: Message, fault: Fault)
    requires Sound(s) && s.waiting == [] && Numbered(s.indexed, s.tables.serial)
    ensures
      var after := Saving(s, tenant, m, fault);
      Sound(after) && after.waiting == [] && Numbered(after.indexed, after.tables.serial)
  {
    hide Sound, Numbered, Known, KeyOf, WithContact;
    InsertKeepsSound(s, tenant, m, fault.insert);
    var inserted := Step(s, Insert(tenant, m, fault.insert));
    NumberedLater(s.indexed, s.tables.serial);
    if inserted.waiting != [] {
      UpsertKeepsSound(inserted, 0, fault.upsert);
      NumberedGrows(s.indexed, s.tables.serial, inserted.waiting[0]);
    }
  }

  /** Two saves of one contact that overlap the wrong way round: nothing raises, and the index is wrong. */
  lemma OverlappingSavesDisagree(s: State, tenant: string, a: Message, b: Message)
    requires Settled(s) && a.id != b.id
    requires !Known(s.tables.messages, tenant, a.id) && !Known(s.tables.messages, tenant, b.id)
    requires PhoneOf(a.chatJid) == PhoneOf(b.chatJid) != "" && a.chatJid != b.chatJid
    ensures
      var after := Run(s, [Insert(tenant, a, Done), Insert(tenant, b, Done), Upsert(1, Done), Upsert(0, Done)]);
      && after.Some? && after.value.waiting == [] && after.value.lost == []
      && !IndexIs(after.value.tables.contacts, after.value.tables.messages)
  {
    hide Run, PhoneOf, IndexIs, Unique, Numbered, NameOffered, Upserted, Known, WithContact, CountFor;
    var i1, i2, u1, u2 := Insert(tenant, a, Done), Insert(tenant, b, Done), Upsert(1, Done), Upsert(0, Done);
    RunStart(s);
    RunOne(s, [], i1);
    assert [] + [i1] == [i1] && [i1] + [i2] == [i1, i2];
    assert [i1, i2] + [u1] == [i1, i2, u1] && [i1, i2, u1] + [u2] == [i1, i2, u1, u2];
    var ra, rb := Row(tenant, s.tables.serial + 1, a), Row(tenant, s.tables.serial + 2, b);
    var s1 := Step(s, i1);
    assert s1.tables.messages == s.tables.messages + [ra] && s1.waiting == [ra];
    StillUnknown(s.tables.messages, ra, tenant, b.id);
    RunOne(s, [i1], i2);
    var s2 := Step(s1, i2);
    assert s2.tables.messages == s.tables.messages + [ra] + [rb] && s2.waiting == [ra, rb];
    RunOne(s, [i1, i2], u1);
    RunOne(s, [i1, i2, u1], u2);
    var s4 := Step(Step(s2, u1), u2);
    var key := KeyOf(rb);
    assert Lookup(s4.tables.contacts, key).value.chatJid == a.chatJid by { LastUpsertWins(s2.tables.contacts, rb, ra); }
    assert Expected(s4.tables.messages, key).value.chatJid == b.chatJid by {
      Appended(s.tables.messages + [ra], rb, key);
    }
    Refuted(s4.tables.contacts, s4.tables.messages, key);
  }

  lemma RunStart(start: State)
    ensures Run(start, []) == Some(start)
  {
  }

  lemma RunOne(start: State, actions: seq<Action>, a: Action)
    requires Run(start, actions).Some? && Enabled(Run(start, actions).value, a)
    ensures Run(start, actions + [a]) == Some(Step(Run(start, actions).value, a))
  {
    assert (actions + [a])[..|actions|] == actions;
  }

  lemma StillUnknown(rows: seq<Row>, row: Row, tenant: string, id: string)
    requires !Known(rows, tenant, id) && row.message.id != id
    ensures !Known(rows + [row], tenant, id)
  {
  }

  lemma LastUpsertWins(contacts: map<Key, Contact>, first: Row, last: Row)
    ensures
      var contact := Lookup(WithContact(WithContact(contacts, first), last), KeyOf(last));
      contact.Some? && contact.value.chatJid == last.message.chatJid
  {
  }

  lemma Refuted(contacts: map<Key, Contact>, rows: seq<Row>, key: Key)
    requires Lookup(contacts, key) != Expected(rows, key)
    ensures !IndexIs(contacts, rows)
  {
  }
}
