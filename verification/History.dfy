/**
 The bounded message store of src/store/messages.py on top of the message table, and the history
 sync of src/utils/history.py that feeds it.
 */
module History {
  import opened Requests
  import opened Wrappers
  import opened Messages

  // ---- The bounded store ----

  class StoredMessage {
    const content: Message
    var dbId: Option<nat>

    constructor (content: Message)
      ensures this.content == content && dbId == None
    {
      this.content := content;
      dbId := None;
    }
  }

  /** `deque(maxlen=n)`: the last `n` elements. */
  function Bounded<T>(s: seq<T>, n: nat): (r: seq<T>)
    ensures |r| == (if |s| <= n then |s| else n) && r == s[|s| - |r|..]
  {
    if |s| <= n then s else s[|s| - n..]
  }

  function IdOf(outcome: Outcome): Option<nat> {
    if outcome.Inserted? then Some(outcome.id) else None
  }

  class MessageStore {
    const maxMessages: nat
    const tenantHash: Option<string>
    const db: Database?
    var messages: seq<StoredMessage>

    constructor (maxMessages: nat, tenantHash: Option<string>, db: Database?)
      ensures this.maxMessages == maxMessages && this.tenantHash == tenantHash && this.db == db
      ensures messages == [] && Valid()
    {
      this.maxMessages := maxMessages;
      this.tenantHash := tenantHash;
      this.db := db;
      messages := [];
    }

    predicate Persists() {
      db != null && Truthy(tenantHash)
    }

    /** The deque never exceeds its bound. */
    ghost predicate Valid()
      reads this
    {
      |messages| <= maxMessages
    }

    ghost function Contents(): seq<Message>
      reads this
    {
      seq(|messages|, i requires 0 <= i < |messages| reads this => messages[i].content)
    }

    method Add(msg: StoredMessage)
      modifies `messages
      ensures Valid() && messages == Bounded(old(messages) + [msg], maxMessages)
      ensures Contents() == Bounded(old(Contents()) + [msg.content], maxMessages)
    {
      messages := Bounded(messages + [msg], maxMessages);
    }

    /** A failure of the database is swallowed. */
    method AddWithPersist(msg: StoredMessage, fault: Fault) returns (dbId: Option<nat>)
      modifies this, msg, if Persists() then {db} else {}
      ensures !Persists() ==> dbId == None && msg.dbId == old(msg.dbId)
      ensures Persists() ==>
        var saved := Save(old(db.State()), tenantHash.value, msg.content, fault);
        && db.State() == saved.tables && dbId == IdOf(saved.outcome)
        && msg.dbId == if saved.outcome == Raised then old(msg.dbId) else dbId
      ensures Valid() && messages == Bounded(old(messages) + [msg], maxMessages)
      ensures Contents() == Bounded(old(Contents()) + [msg.content], maxMessages)
    {
      hide Save, Bounded;
      Add(msg);
      dbId := None;
      if db != null && Truthy(tenantHash) {
        var outcome := db.SaveMessage(tenantHash.value, msg.content, fault);
        if outcome != Raised {
          dbId := IdOf(outcome);
          msg.dbId := dbId;
        }
      }
    }
  }

  // ---- The history sync ----

  /** One entry of a chat's message list; `Malformed` is an entry whose fields cannot be read. */
  datatype Entry =
    | Malformed
    | Entry(id: string, fromMe: bool, from: Option<string>, text: string, kind: string, timestamp: int,
            pushName: Option<string>)

  datatype Chat = Chat(jid: string, isGroup: bool, name: Option<string>, subject: Option<string>, entries: seq<Entry>)

  datatype Stats = Stats(stored: nat, duplicates: nat, errors: nat)

  /** What a sync makes of one entry. */
  datatype Item = Broken | NoId | Storable(message: Message)

  function ItemOf(chat: Chat, e: Entry): Item {
    if e.Malformed? then Broken
    else if e.id == "" then NoId
    else
      Storable(Message(
        e.id, if e.from.Some? then e.from.value else "", chat.jid, chat.isGroup, e.pushName, e.text, e.kind,
        e.timestamp, if e.fromMe then "outbound" else "inbound",
        if Truthy(chat.name) then chat.name else chat.subject))
  }

  /** The columns of the message made from an entry: from the entry, its chat, and the direction it tells. */
  lemma EntryColumns(chat: Chat, e: Entry)
    requires ItemOf(chat, e).Storable?
    ensures
      var m := ItemOf(chat, e).message;
      && e.Entry? && e.id != "" && m.id == e.id && m.text == e.text && m.kind == e.kind && m.timestamp == e.timestamp
      && m.pushName == e.pushName && m.chatJid == chat.jid && m.isGroup == chat.isGroup
      && m.direction == (if e.fromMe then "outbound" else "inbound")
      && m.fromJid == (match e.from case None => "" case Some(from) => from)
      && (chat.name.Some? && chat.name.value != "" ==> m.chatName == chat.name)
      && (chat.name == None || chat.name == Some("") ==> m.chatName == chat.subject)
  {
  }

  function ItemsOf(chat: Chat, entries: seq<Entry>): seq<Item> {
    if entries == [] then []
    else ItemsOf(chat, entries[..|entries| - 1]) + [ItemOf(chat, entries[|entries| - 1])]
  }

  /** Every entry of every chat, in the order the nested loops visit them. */
  function Items(chats: seq<Chat>): seq<Item> {
    if chats == [] then []
    else
      var chat := chats[|chats| - 1];
      Items(chats[..|chats| - 1]) + ItemsOf(chat, chat.entries)
  }

  datatype Progress = Progress(tables: Tables, stats: Stats)

  function Advance(p: Progress, tenant: Option<string>, item: Item, fault: Fault): Progress {
    match item
    case Broken => p.(stats := p.stats.(errors := p.stats.errors + 1))
    case NoId => p
    case Storable(m) =>
      if tenant.None? then p.(stats := p.stats.(duplicates := p.stats.duplicates + 1))
      else
        var saved := Save(p.tables, tenant.value, m, fault);
        Progress(saved.tables,
                 if saved.outcome.Inserted? then p.stats.(stored := p.stats.stored + 1)
                 else p.stats.(duplicates := p.stats.duplicates + 1))
  }

  /** The tables and the counts after these items; `tenant` is `None` when the store does not persist. */
  function Sync(t: Tables, tenant: Option<string>, items: seq<Item>, faults: nat -> Fault): Progress {
    if items == [] then Progress(t, Stats(0, 0, 0))
    else
      var last := |items| - 1;
      Advance(Sync(t, tenant, items[..last], faults), tenant, items[last], faults(last))
  }

  /** The messages an item list offers to the store. */
  function Offered(items: seq<Item>): seq<Message> {
    if items == [] then []
    else
      var last := |items| - 1;
      Offered(items[..last]) + if items[last].Storable? then [items[last].message] else []
  }

  const EMPTY := Tables([], map[], 0)

  /** The table behind a store, if it persists. */
  ghost function Behind(store: MessageStore): Tables
    reads store, store.db
  {
    if store.db != null then store.db.State() else EMPTY
  }

  function Tenant(store: MessageStore): Option<string> {
    if store.Persists() then store.tenantHash else None
  }

  lemma SyncExtends(t: Tables, tenant: Option<string>, items: seq<Item>, item: Item, faults: nat -> Fault)
    ensures Sync(t, tenant, items + [item], faults)
         == Advance(Sync(t, tenant, items, faults), tenant, item, faults(|items|))
    ensures Offered(items + [item]) == Offered(items) + if item.Storable? then [item.message] else []
  {
    assert (items + [item])[..|items|] == items;
  }

  lemma BoundedTwice<T>(s: seq<T>, x: T, n: nat)
    ensures Bounded(Bounded(s, n) + [x], n) == Bounded(s + [x], n)
  {
  }

  function Kept(recent: seq<Message>, item: Item, n: nat): seq<Message> {
    if item.Storable? then Bounded(recent + [item.message], n) else recent
  }

  /** An inserted row's id counts as true. */
  lemma IdsAreTruthy(t: Tables, tenant: string, m: Message, fault: Fault)
    ensures var outcome := Save(t, tenant, m, fault).outcome; outcome.Inserted? ==> outcome.id != 0
  {
  }

  /** One entry: an entry without an id is skipped, a malformed one is an error. */
  method StoreEntry(store: MessageStore, chat: Chat, e: Entry, fault: Fault, stats: Stats) returns (after: Stats)
    modifies store, if store.Persists() then {store.db} else {}
    ensures old(store.Valid()) ==> store.Valid()
    ensures Progress(Behind(store), after)
         == Advance(Progress(old(Behind(store)), stats), Tenant(store), ItemOf(chat, e), fault)
    ensures store.Contents() == Kept(old(store.Contents()), ItemOf(chat, e), store.maxMessages)
  {
    hide Save, Bounded;
    if e.Malformed? {
      return stats.(errors := stats.errors + 1);
    }
    if e.id == "" {
      return stats;
    }
    var chatName := if Truthy(chat.name) then chat.name else chat.subject;
    var from := if e.from.Some? then e.from.value else "";
    var direction := if e.fromMe then "outbound" else "inbound";
    var msg := new StoredMessage(Message(
      e.id, from, chat.jid, chat.isGroup, e.pushName, e.text, e.kind, e.timestamp, direction, chatName));
    if store.Persists() {
      IdsAreTruthy(store.db.State(), store.tenantHash.value, msg.content, fault);
    }
    var dbId := store.AddWithPersist(msg, fault);
    if dbId.Some? && dbId.value != 0 {
      after := stats.(stored := stats.stored + 1);
    } else {
      after := stats.(duplicates := stats.duplicates + 1);
    }
  }

  /** The fold over the items visited so far, from tables `t` and a store holding `recent`. */
  ghost predicate Synced(p: Progress, contents: seq<Message>, store: MessageStore, t: Tables, recent: seq<Message>,
                         items: seq<Item>, faults: nat -> Fault)
  {
    && p == Sync(t, Tenant(store), items, faults)
    && contents == Bounded(recent + Offered(items), store.maxMessages)
  }

  lemma SyncedStarts(store: MessageStore, t: Tables, recent: seq<Message>, faults: nat -> Fault)
    requires |recent| <= store.maxMessages
    ensures Synced(Progress(t, Stats(0, 0, 0)), recent, store, t, recent, [], faults)
  {
    assert recent + [] == recent;
  }

  lemma SyncedExtends(p: Progress, contents: seq<Message>, store: MessageStore, t: Tables, recent: seq<Message>,
                      items: seq<Item>, item: Item, faults: nat -> Fault)
    requires Synced(p, contents, store, t, recent, items, faults)
    ensures Synced(Advance(p, Tenant(store), item, faults(|items|)), Kept(contents, item, store.maxMessages),
                   store, t, recent, items + [item], faults)
  {
    hide Advance, Bounded;
    SyncExtends(t, Tenant(store), items, item, faults);
    if item.Storable? {
      BoundedTwice(recent + Offered(items), item.message, store.maxMessages);
      assert recent + (Offered(items) + [item.message]) == recent + Offered(items) + [item.message];
    } else {
      assert Offered(items) + [] == Offered(items);
    }
  }

  lemma NoItems(before: seq<Item>, chat: Chat)
    ensures before + ItemsOf(chat, chat.entries[..0]) == before
  {
  }

  lemma ItemsExtend(before: seq<Item>, chat: Chat, i: nat)
    requires i < |chat.entries|
    ensures before + ItemsOf(chat, chat.entries[..i + 1])
         == before + ItemsOf(chat, chat.entries[..i]) + [ItemOf(chat, chat.entries[i])]
  {
    hide ItemOf;
    assert chat.entries[..i + 1][..i] == chat.entries[..i];
  }

  lemma ChatsExtend(chats: seq<Chat>, i: nat)
    requires i < |chats|
    ensures Items(chats[..i + 1]) == Items(chats[..i]) + ItemsOf(chats[i], chats[i].entries[..|chats[i].entries|])
  {
    assert chats[..i + 1][..i] == chats[..i];
    assert chats[i].entries[..|chats[i].entries|] == chats[i].entries;
  }

  /** Files every message of every chat, and counts what became of each. */
  method StoreChatMessages(store: MessageStore, chats: seq<Chat>, faults: nat -> Fault) returns (stats: Stats)
    requires store.Valid()
    modifies store, if store.Persists() then {store.db} else {}
    ensures store.Valid()
    ensures Synced(Progress(Behind(store), stats), store.Contents(), store, old(Behind(store)), old(store.Contents()),
                   Items(chats), faults)
  {
    hide Advance, Sync, Offered, ItemOf, ItemsOf, Bounded, Synced, Kept;
    ghost var t, recent := Behind(store), store.Contents();
    stats := Stats(0, 0, 0);
    var visited := 0;
    var i := 0;
    SyncedStarts(store, t, recent, faults);
    while i < |chats|
      invariant store.Valid() && 0 <= i <= |chats| && visited == |Items(chats[..i])|
      invariant Synced(Progress(Behind(store), stats), store.Contents(), store, t, recent, Items(chats[..i]), faults)
    {
      var chat := chats[i];
      ghost var before := Items(chats[..i]);
      var j := 0;
      NoItems(before, chat);
      while j < |chat.entries|
        invariant store.Valid() && 0 <= j <= |chat.entries| && visited == |before + ItemsOf(chat, chat.entries[..j])|
        invariant Synced(Progress(Behind(store), stats), store.Contents(), store, t, recent,
                         before + ItemsOf(chat, chat.entries[..j]), faults)
      {
        ghost var items := before + ItemsOf(chat, chat.entries[..j]);
        SyncedExtends(Progress(Behind(store), stats), store.Contents(), store, t, recent, items,
                      ItemOf(chat, chat.entries[j]), faults);
        ItemsExtend(before, chat, j);
        stats := StoreEntry(store, chat, chat.entries[j], faults(visited), stats);
        visited, j := visited + 1, j + 1;
      }
      ChatsExtend(chats, i);
      i := i + 1;
    }
    assert chats[..i] == chats;
  }

  // ---- What a sync does ----

  function BrokenCount(items: seq<Item>): nat {
    if items == [] then 0 else BrokenCount(items[..|items| - 1]) + if items[|items| - 1].Broken? then 1 else 0
  }

  /** Every entry but those without an id is counted exactly once: offered to the store, or an error. */
  lemma {:induction false} NothingIsMiscounted(
      t: Tables, tenant: Option<string>, items: seq<Item>, faults: nat -> Fault)
    ensures
      var stats := Sync(t, tenant, items, faults).stats;
      && stats.stored + stats.duplicates == |Offered(items)| && stats.errors == BrokenCount(items)
      && (tenant == None ==> stats.stored == 0)
  {
    hide Save;
    if items != [] {
      NothingIsMiscounted(t, tenant, items[..|items| - 1], faults);
    }
  }

  /** The save of this item raised and yet left a new row behind. */
  predicate Unreported(t: Tables, tenant: string, item: Item, fault: Fault) {
    && item.Storable? && Save(t, tenant, item.message, fault).outcome == Raised
    && !Known(t.messages, tenant, item.message.id) && fault.insert != Refused
  }

  /** How many rows a sync stored without counting them as stored. */
  function UnreportedRows(t: Tables, tenant: string, items: seq<Item>, faults: nat -> Fault): nat {
    if items == [] then 0
    else
      var last := |items| - 1;
      var before := Sync(t, Some(tenant), items[..last], faults).tables;
      UnreportedRows(t, tenant, items[..last], faults)
      + if Unreported(before, tenant, items[last], faults(last)) then 1 else 0
  }

  /**
   The table grows by one row per message reported as stored and one per row whose save raised after
   its insert: those are reported as duplicates.
   */
  lemma {:induction false} StoredIsGrowth(t: Tables, tenant: string, items: seq<Item>, faults: nat -> Fault)
    ensures
      var after := Sync(t, Some(tenant), items, faults);
      |after.tables.messages| == |t.messages| + after.stats.stored + UnreportedRows(t, tenant, items, faults)
  {
    hide Save;
    if items != [] {
      var last := |items| - 1;
      StoredIsGrowth(t, tenant, items[..last], faults);
      if items[last].Storable? {
        GrowsByOne(Sync(t, Some(tenant), items[..last], faults).tables, tenant, items[last].message, faults(last));
      }
    }
  }

  lemma GrowsByOne(t: Tables, tenant: string, m: Message, fault: Fault)
    ensures
      var after := Save(t, tenant, m, fault);
      |after.tables.messages|
      == |t.messages| + if after.outcome.Inserted? || Unreported(t, tenant, Storable(m), fault) then 1 else 0
  {
  }

  /** `stored` is the number of new rows exactly if every save that raised left the message table alone. */
  lemma {:induction false} StoredIsNewRows(t: Tables, tenant: string, items: seq<Item>, faults: nat -> Fault)
    ensures
      var after := Sync(t, Some(tenant), items, faults);
      after.stats.stored == |after.tables.messages| - |t.messages|
      <==> forall i :: 0 <= i < |items| ==>
             !Unreported(Sync(t, Some(tenant), items[..i], faults).tables, tenant, items[i], faults(i))
  {
    hide Unreported, Sync;
    StoredIsGrowth(t, tenant, items, faults);
    NoneUnreported(t, tenant, items, faults);
  }

  lemma {:induction false} NoneUnreported(t: Tables, tenant: string, items: seq<Item>, faults: nat -> Fault)
    ensures UnreportedRows(t, tenant, items, faults) == 0
       <==> forall i :: 0 <= i < |items| ==>
              !Unreported(Sync(t, Some(tenant), items[..i], faults).tables, tenant, items[i], faults(i))
  {
    hide Unreported, Sync;
    if items != [] {
      var front := items[..|items| - 1];
      NoneUnreported(t, tenant, front, faults);
      assert forall i :: 0 <= i < |front| ==> front[..i] == items[..i] && front[i] == items[i];
    }
  }

  // ---- The index after a sync ----

  /** The sync as a run of statements, with no other save in between. */
  function SyncSteps(s: State, tenant: string, items: seq<Item>, faults: nat -> Fault): State
    requires s.waiting == []
    ensures SyncSteps(s, tenant, items, faults).waiting == []
  {
    if items == [] then s
    else
      var last := |items| - 1;
      var before := SyncSteps(s, tenant, items[..last], faults);
      if items[last].Storable? then
        SaveIsTwoSteps(before, tenant, items[last].message, faults(last));
        Saving(before, tenant, items[last].message, faults(last))
      else before
  }

  lemma {:induction false} SyncIsSteps(s: State, tenant: string, items: seq<Item>, faults: nat -> Fault)
    requires Sound(s) && s.waiting == [] && Numbered(s.indexed, s.tables.serial)
    ensures
      var after := SyncSteps(s, tenant, items, faults);
      && after.tables == Sync(s.tables, Some(tenant), items, faults).tables
      && Sound(after) && Numbered(after.indexed, after.tables.serial)
  {
    hide Sound, Numbered, Save, Saving;
    if items != [] {
      var last := |items| - 1;
      SyncIsSteps(s, tenant, items[..last], faults);
      if items[last].Storable? {
        var before := SyncSteps(s, tenant, items[..last], faults);
        SaveIsTwoSteps(before, tenant, items[last].message, faults(last));
        SavingKeepsTurn(before, tenant, items[last].message, faults(last));
      }
    }
  }

  /** After a sync into a settled table the index agrees with the table exactly if no row lost its upsert. */
  lemma SyncedIndexAgrees(s: State, tenant: string, items: seq<Item>, faults: nat -> Fault)
    requires Settled(s)
    ensures
      var after := Sync(s.tables, Some(tenant), items, faults).tables;
      IndexIs(after.contacts, after.messages) <==> SyncSteps(s, tenant, items, faults).lost == []
  {
    hide Sync, SyncSteps, Sound, IndexIs, Numbered, Unique, AnyOvertaken;
    SettledIsSound(s);
    SyncIsSteps(s, tenant, items, faults);
    var after := SyncSteps(s, tenant, items, faults);
    AgreesAtRest(after);
    forall key: Key ensures !AnyOvertaken(after.indexed, key) {
      InTurnOvertakesNothing(after.indexed, after.tables.serial, key);
    }
  }

  /** Every row a sync adds is the tenant's and holds one of the messages offered to it. */
  lemma {:induction false} SyncedRows(t: Tables, tenant: string, items: seq<Item>, faults: nat -> Fault)
    ensures
      var rows := Sync(t, Some(tenant), items, faults).tables.messages;
      && |t.messages| <= |rows| && t.messages == rows[..|t.messages|]
      && forall i :: |t.messages| <= i < |rows| ==> rows[i].tenant == tenant && rows[i].message in Offered(items)
  {
    hide Save;
    if items != [] {
      var last := |items| - 1;
      SyncedRows(t, tenant, items[..last], faults);
      if items[last].Storable? {
        SaveAdds(Sync(t, Some(tenant), items[..last], faults).tables, tenant, items[last].message, faults(last));
      }
    }
  }

  lemma SaveAdds(t: Tables, tenant: string, m: Message, fault: Fault)
    ensures
      var rows := Save(t, tenant, m, fault).tables.messages;
      rows == t.messages || rows == t.messages + [Row(tenant, t.serial + 1, m)]
  {
  }

  /** Every storable message is in the table already. */
  ghost predicate Present(rows: seq<Row>, tenant: string, items: seq<Item>) {
    forall i :: 0 <= i < |items| && items[i].Storable? ==> Known(rows, tenant, items[i].message.id)
  }

  lemma {:induction false} SyncKeepsRows(t: Tables, tenant: string, items: seq<Item>, faults: nat -> Fault)
    ensures t.messages <= Sync(t, Some(tenant), items, faults).tables.messages
  {
    if items != [] {
      SyncKeepsRows(t, tenant, items[..|items| - 1], faults);
    }
  }

  lemma {:induction false} SyncStores(t: Tables, tenant: string, items: seq<Item>, faults: nat -> Fault)
    requires forall i :: 0 <= i < |items| ==> faults(i).insert != Refused
    ensures Present(Sync(t, Some(tenant), items, faults).tables.messages, tenant, items)
  {
    if items != [] {
      var last := |items| - 1;
      SyncStores(t, tenant, items[..last], faults);
      AdvanceStores(Sync(t, Some(tenant), items[..last], faults), tenant, items[..last], items[last], faults(last));
      assert items == items[..last] + [items[last]];
    }
  }

  lemma KnownGrows(rows: seq<Row>, more: seq<Row>, tenant: string, id: string)
    requires rows <= more && Known(rows, tenant, id)
    ensures Known(more, tenant, id)
  {
    var i :| 0 <= i < |rows| && rows[i].tenant == tenant && rows[i].message.id == id;
    assert more[i] == rows[i];
  }

  lemma AdvanceStores(p: Progress, tenant: string, items: seq<Item>, item: Item, fault: Fault)
    requires Present(p.tables.messages, tenant, items) && fault.insert != Refused
    ensures Present(Advance(p, Some(tenant), item, fault).tables.messages, tenant, items + [item])
  {
    hide Known;
    var rows, more := p.tables.messages, Advance(p, Some(tenant), item, fault).tables.messages;
    forall i | 0 <= i < |items| && items[i].Storable? ensures Known(more, tenant, items[i].message.id) {
      KnownGrows(rows, more, tenant, items[i].message.id);
    }
    if item.Storable? && !Known(rows, tenant, item.message.id) {
      NewRowIsKnown(rows, Row(tenant, p.tables.serial + 1, item.message));
    }
  }

  lemma NewRowIsKnown(rows: seq<Row>, row: Row)
    ensures Known(rows + [row], row.tenant, row.message.id)
  {
    assert (rows + [row])[|rows|] == row;
  }

  /** Syncing what is already there changes nothing and stores nothing, whatever raises. */
  lemma {:induction false} NothingNew(t: Tables, tenant: string, items: seq<Item>, faults: nat -> Fault)
    requires Present(t.messages, tenant, items)
    ensures
      var after := Sync(t, Some(tenant), items, faults);
      && after.tables.messages == t.messages && after.tables.contacts == t.contacts
      && after.stats.stored == 0
  {
    if items != [] {
      var last := |items| - 1;
      NothingNew(t, tenant, items[..last], faults);
      if items[last].Storable? {
        var before := Sync(t, Some(tenant), items[..last], faults).tables;
        ReplayChangesNothing(before, tenant, items[last].message, faults(last));
      }
    }
  }

  /** A repeated sync: if no insert of the first run raised, the second stores nothing, whatever raises in it. */
  lemma RepeatedSync(t: Tables, tenant: string, items: seq<Item>, first: nat -> Fault, second: nat -> Fault)
    requires forall i :: 0 <= i < |items| ==> first(i).insert != Refused
    ensures
      var once := Sync(t, Some(tenant), items, first).tables;
      var twice := Sync(once, Some(tenant), items, second);
      && twice.tables.messages == once.messages && twice.tables.contacts == once.contacts
      && twice.stats == Stats(0, |Offered(items)|, BrokenCount(items))
  {
    hide Sync;
    SyncStores(t, tenant, items, first);
    var once := Sync(t, Some(tenant), items, first).tables;
    NothingNew(once, tenant, items, second);
    NothingIsMiscounted(once, Some(tenant), items, second);
  }
}
