/**
 The batch sync of stored messages to Chatwoot: the query and the mark of src/store/database.py, and
 the loops of src/chatwoot/sync.py. What Chatwoot and the database answer in a run is its `World`.
 */
module Sync {
  import opened Requests
  import opened Wrappers
  import opened Messages

  /** The columns the query returns; ids are primary keys. */
  datatype Stored = Stored(
    id: nat, tenant: string, chatJid: string, isGroup: bool, text: string, kind: string, inbound: bool,
    mediaUrl: Option<string>, createdAt: real)

  datatype Attachment = Attachment(fileType: string, url: string)

  datatype Delivery = Delivery(
    conversation: nat, content: string, incoming: bool, attachment: Option<Attachment>, row: Stored)

  /** Answers to: posting a row, marking a row, and creating the contact and conversation of the n-th chat. */
  datatype World = World(
    posts: nat -> Answer, marks: nat -> Answer, contact: nat -> Option<nat>, conversation: nat -> Option<nat>)

  /**
   `marked` is the chatwoot_synced_at column, as the ids where it is not NULL, and `log` is what Chatwoot
   accepted. The rest is history: rows accepted although the post raised, rows accepted whose mark
   was refused, and rows whose mark took effect although it raised.
   */
  datatype Site = Site(marked: set<nat>, log: seq<Delivery>, unseen: seq<nat>, lost: seq<nat>, late: seq<nat>)

  datatype Tally = Tally(synced: nat, skipped: nat, errors: nat)

  datatype Caches = Caches(contacts: map<string, nat>, conversations: map<nat, nat>)

  // ---- The query ----

  predicate Eligible(row: Stored, marked: set<nat>, tenant: string, cutoff: real) {
    row.tenant == tenant && row.id !in marked && !row.isGroup && row.createdAt >= cutoff
  }

  function Filter(rows: seq<Stored>, keep: Stored -> bool): (kept: seq<Stored>)
    ensures forall row :: row in kept <==> row in rows && keep(row)
  {
    if rows == [] then []
    else Filter(rows[..|rows| - 1], keep) + if keep(rows[|rows| - 1]) then [rows[|rows| - 1]] else []
  }

  /** Behind every row that is not younger. */
  function Placed(sorted: seq<Stored>, row: Stored): seq<Stored> {
    if sorted == [] || sorted[|sorted| - 1].createdAt <= row.createdAt then sorted + [row]
    else Placed(sorted[..|sorted| - 1], row) + [sorted[|sorted| - 1]]
  }

  function ByCreation(rows: seq<Stored>): seq<Stored> {
    if rows == [] then [] else Placed(ByCreation(rows[..|rows| - 1]), rows[|rows| - 1])
  }

  function EligibleRows(rows: seq<Stored>, marked: set<nat>, tenant: string, cutoff: real): seq<Stored> {
    Filter(rows, (row: Stored) => Eligible(row, marked, tenant, cutoff))
  }

  function Fetch(rows: seq<Stored>, marked: set<nat>, tenant: string, cutoff: real, limit: nat): seq<Stored> {
    var sorted := ByCreation(EligibleRows(rows, marked, tenant, cutoff));
    if |sorted| <= limit then sorted else sorted[..limit]
  }

  ghost predicate OldestFirst(rows: seq<Stored>) {
    forall i, j :: 0 <= i < j < |rows| ==> rows[i].createdAt <= rows[j].createdAt
  }

  ghost predicate DistinctIds(rows: seq<Stored>) {
    forall i, j :: 0 <= i < j < |rows| ==> rows[i].id != rows[j].id
  }

  lemma {:induction false} PlacedPermutes(sorted: seq<Stored>, row: Stored)
    ensures multiset(Placed(sorted, row)) == multiset(sorted) + multiset{row}
  {
    if sorted != [] && sorted[|sorted| - 1].createdAt > row.createdAt {
      var front, last := sorted[..|sorted| - 1], sorted[|sorted| - 1];
      assert sorted == front + [last];
      PlacedPermutes(front, row);
    }
  }

  lemma SortedBehind(front: seq<Stored>, last: Stored)
    requires OldestFirst(front) && forall r :: r in front ==> r.createdAt <= last.createdAt
    ensures OldestFirst(front + [last])
  {
  }

  lemma {:induction false} PlacedSorted(sorted: seq<Stored>, row: Stored)
    requires OldestFirst(sorted)
    ensures OldestFirst(Placed(sorted, row))
  {
    if sorted == [] {
    } else if sorted[|sorted| - 1].createdAt <= row.createdAt {
      SortedBehind(sorted, row);
    } else {
      var front, last := sorted[..|sorted| - 1], sorted[|sorted| - 1];
      PlacedSorted(front, row);
      forall r | r in Placed(front, row) ensures r.createdAt <= last.createdAt {
        PlacedPermutes(front, row);
        assert r in multiset(Placed(front, row));
        assert r in front || r == row;
      }
      SortedBehind(Placed(front, row), last);
    }
  }

  lemma {:induction false} SortedByCreation(rows: seq<Stored>)
    ensures OldestFirst(ByCreation(rows)) && multiset(ByCreation(rows)) == multiset(rows)
  {
    if rows != [] {
      var front, last := rows[..|rows| - 1], rows[|rows| - 1];
      assert rows == front + [last];
      SortedByCreation(front);
      PlacedSorted(ByCreation(front), last);
      PlacedPermutes(ByCreation(front), last);
    }
  }

  lemma DistinctBehind(front: seq<Stored>, last: Stored)
    requires DistinctIds(front) && forall r :: r in front ==> r.id != last.id
    ensures DistinctIds(front + [last])
  {
  }

  lemma {:induction false} FilterDistinct(rows: seq<Stored>, keep: Stored -> bool)
    requires DistinctIds(rows)
    ensures DistinctIds(Filter(rows, keep))
  {
    if rows != [] {
      var front, last := rows[..|rows| - 1], rows[|rows| - 1];
      FilterDistinct(front, keep);
      DistinctBehind(Filter(front, keep), last);
    }
  }

  lemma {:induction false} PlacedDistinct(sorted: seq<Stored>, row: Stored)
    requires DistinctIds(sorted) && forall r :: r in sorted ==> r.id != row.id
    ensures DistinctIds(Placed(sorted, row))
  {
    if sorted == [] || sorted[|sorted| - 1].createdAt <= row.createdAt {
      DistinctBehind(sorted, row);
    } else {
      var front, last := sorted[..|sorted| - 1], sorted[|sorted| - 1];
      PlacedDistinct(front, row);
      forall r | r in Placed(front, row) ensures r.id != last.id {
        PlacedPermutes(front, row);
        assert r in multiset(Placed(front, row));
        assert r in front || r == row;
      }
      DistinctBehind(Placed(front, row), last);
    }
  }

  lemma {:induction false} SortedDistinct(rows: seq<Stored>)
    requires DistinctIds(rows)
    ensures DistinctIds(ByCreation(rows))
  {
    if rows != [] {
      var front, last := rows[..|rows| - 1], rows[|rows| - 1];
      SortedDistinct(front);
      forall r | r in ByCreation(front) ensures r.id != last.id {
        SortedByCreation(front);
        assert r in multiset(ByCreation(front));
      }
      PlacedDistinct(ByCreation(front), last);
    }
  }

  /** The query returns distinct unmarked direct messages, oldest first, and leaves out only younger ones. */
  lemma FetchIsOldest(rows: seq<Stored>, marked: set<nat>, tenant: string, cutoff: real, limit: nat)
    requires DistinctIds(rows)
    ensures
      var fetched := Fetch(rows, marked, tenant, cutoff, limit);
      && |fetched| <= limit && DistinctIds(fetched) && OldestFirst(fetched)
      && (forall r :: r in fetched ==>
            r in rows && r.tenant == tenant && r.id !in marked && !r.isGroup && cutoff <= r.createdAt)
      && (forall r ::
            r in rows && r.tenant == tenant && r.id !in marked && !r.isGroup && cutoff <= r.createdAt
            && r !in fetched ==>
              |fetched| == limit && forall f :: f in fetched ==> f.createdAt <= r.createdAt)
  {
    var kept := EligibleRows(rows, marked, tenant, cutoff);
    var sorted := ByCreation(kept);
    SortedByCreation(kept);
    FilterDistinct(rows, (row: Stored) => Eligible(row, marked, tenant, cutoff));
    SortedDistinct(kept);
    FetchedMembers(kept, sorted, Fetch(rows, marked, tenant, cutoff, limit));
  }

  lemma FetchedMembers(kept: seq<Stored>, sorted: seq<Stored>, fetched: seq<Stored>)
    requires multiset(kept) == multiset(sorted) && OldestFirst(sorted) && fetched <= sorted
    ensures forall r :: r in fetched ==> r in kept
    ensures forall r :: r in kept && r !in fetched ==>
              |fetched| < |sorted| && forall f :: f in fetched ==> f.createdAt <= r.createdAt
  {
    forall r | r in fetched ensures r in kept {
      assert r in multiset(sorted);
    }
    forall r | r in kept && r !in fetched
      ensures |fetched| < |sorted| && forall f :: f in fetched ==> f.createdAt <= r.createdAt
    {
      assert r in multiset(sorted);
      assert forall k :: 0 <= k < |fetched| ==> fetched[k] == sorted[k];
      var i :| 0 <= i < |sorted| && sorted[i] == r;
      forall f | f in fetched ensures f.createdAt <= r.createdAt {
        var j :| 0 <= j < |fetched| && fetched[j] == f;
        assert sorted[j] == f;
      }
    }
  }

  // ---- What a run does ----

  datatype Progress = Progress(site: Site, tally: Tally)

  datatype Batch = Batch(progress: Progress, caches: Caches)

  predicate HasContent(row: Stored) {
    row.text != "" || row.kind != "text"
  }

  function FileType(kind: string): string {
    match kind
    case "image" => "image/jpeg"
    case "video" => "video/mp4"
    case "audio" => "audio/ogg"
    case "document" => "application/pdf"
    case "sticker" => "image/webp"
    case _ => "application/octet-stream"
  }

  function Outgoing(conversation: nat, row: Stored): Delivery {
    Delivery(conversation, if row.text != "" then row.text else "[" + row.kind + "]", row.inbound,
             if Truthy(row.mediaUrl) && row.kind != "text"
             then Some(Attachment(FileType(row.kind), row.mediaUrl.value)) else None,
             row)
  }

  /** The column and the history after marking a row. */
  function Mark(site: Site, id: nat, answer: Answer): Site {
    match answer
    case Done => site.(marked := site.marked + {id})
    case Refused => site.(lost := site.lost + [id])
    case Unseen => site.(marked := site.marked + {id}, late := site.late + [id])
  }

  /**
   A post that raises is an error, whether or not Chatwoot accepted it; a mark that raises is an
   error on top of the success.
   */
  function SyncRow(p: Progress, conversation: nat, row: Stored, w: World): Progress {
    var Progress(site, tally) := p;
    var posted := site.(log := site.log + [Outgoing(conversation, row)]);
    if !HasContent(row) then Progress(site, tally.(skipped := tally.skipped + 1))
    else
      match w.posts(row.id)
      case Refused => Progress(site, tally.(errors := tally.errors + 1))
      case Unseen => Progress(posted.(unseen := site.unseen + [row.id]), tally.(errors := tally.errors + 1))
      case Done =>
        var counted := tally.(synced := tally.synced + 1);
        Progress(Mark(posted, row.id, w.marks(row.id)),
                 if w.marks(row.id) == Done then counted else counted.(errors := tally.errors + 1))
  }

  function SyncRows(p: Progress, conversation: nat, rows: seq<Stored>, w: World): Progress {
    if rows == [] then p
    else SyncRow(SyncRows(p, conversation, rows[..|rows| - 1], w), conversation, rows[|rows| - 1], w)
  }

  predicate Contains(s: string, part: string) {
    exists i :: 0 <= i <= |s| && part <= s[i..]
  }

  /** `extract_and_validate_phone_from_jid`. */
  function ValidPhone(jid: string): (phone: Option<string>)
    ensures phone.Some? ==> 11 <= |phone.value| <= 16
  {
    var number := ExtractPhone(jid);
    if jid == "" || Contains(jid, "@lid") || Contains(jid, "@g.us") then None
    else if (exists i :: 0 <= i < |number| && !IsDigit(number[i])) || |number| < 10 || |number| > 15 then None
    else Some("+" + number)
  }

  /** A direct chat is reached by a number of ten to fifteen digits; groups and hidden numbers have none. */
  lemma PhoneIsValid(number: string, device: string)
    requires forall i :: 0 <= i < |number| ==> '0' <= number[i] <= '9'
    requires forall i :: 0 <= i < |device| ==> '0' <= device[i] <= '9'
    ensures ValidPhone(number + "" + "@s.whatsapp.net")
         == ValidPhone(number + (":" + device) + "@s.whatsapp.net")
         == if 10 <= |number| <= 15 then Some("+" + number) else None
    ensures ValidPhone(number + "@lid") == ValidPhone(number + "@g.us") == None
  {
    hide ExtractPhone, Contains;
    ExtractsNumber(number, "", "@s.whatsapp.net");
    ExtractsNumber(number, ":" + device, "@s.whatsapp.net");
    OnlyOneAt(number + "", "@lid");
    OnlyOneAt(number + "", "@g.us");
    OnlyOneAt(number + (":" + device), "@lid");
    OnlyOneAt(number + (":" + device), "@g.us");
    EndsWithIt(number, "@lid");
    EndsWithIt(number, "@g.us");
  }

  lemma OnlyOneAt(left: string, part: string)
    requires '@' !in left && |part| >= 2 && part[0] == '@' && part[1] != 's'
    ensures !Contains(left + "@s.whatsapp.net", part)
  {
    var s := left + "@s.whatsapp.net";
    forall i | 0 <= i <= |s| ensures !(part <= s[i..]) {
      if i + 1 < |s| {
        assert s[i..][0] == s[i] && s[i..][1] == s[i + 1];
      }
    }
  }

  lemma EndsWithIt(left: string, part: string)
    ensures Contains(left + part, part)
  {
    assert (left + part)[|left|..] == part;
  }

  function Skip(p: Progress, n: nat): Progress {
    p.(tally := p.tally.(skipped := p.tally.skipped + n))
  }

  function Fail(p: Progress, n: nat): Progress {
    p.(tally := p.tally.(errors := p.tally.errors + n))
  }

  function ContactFor(caches: Caches, phone: string, n: nat, w: World): Option<nat> {
    if phone in caches.contacts then Some(caches.contacts[phone]) else w.contact(n)
  }

  /** One chat, the `n`-th of the run. */
  function SyncChat(b: Batch, jid: string, rows: seq<Stored>, n: nat, w: World): Batch {
    var phone := ValidPhone(jid);
    if phone.None? then b.(progress := Skip(b.progress, |rows|))
    else
      var contact := ContactFor(b.caches, phone.value, n, w);
      if contact.None? then b.(progress := Fail(b.progress, |rows|))
      else
        var known := b.caches.(contacts := b.caches.contacts[phone.value := contact.value]);
        var conversation := Conversation(known, contact.value, n, w);
        if conversation.None? then Batch(Fail(b.progress, |rows|), known)
        else
          Batch(SyncRows(b.progress, conversation.value, rows, w),
                known.(conversations := known.conversations[contact.value := conversation.value]))
  }

  function Conversation(caches: Caches, contact: nat, n: nat, w: World): Option<nat> {
    if contact in caches.conversations then Some(caches.conversations[contact]) else w.conversation(n)
  }

  /** The chats of the fetched rows, by first appearance. */
  function Chats(rows: seq<Stored>): seq<string> {
    if rows == [] then []
    else
      var before, jid := Chats(rows[..|rows| - 1]), rows[|rows| - 1].chatJid;
      if jid == "" || jid in before then before else before + [jid]
  }

  function RowsOf(rows: seq<Stored>, jid: string): seq<Stored> {
    Filter(rows, (row: Stored) => row.chatJid == jid)
  }

  function SyncChats(b: Batch, jids: seq<string>, rows: seq<Stored>, w: World): Batch {
    if jids == [] then b
    else
      var last := |jids| - 1;
      SyncChat(SyncChats(b, jids[..last], rows, w), jids[last], RowsOf(rows, jids[last]), last, w)
  }

  const LIMIT := 1000

  function SyncRun(site: Site, caches: Caches, rows: seq<Stored>, tenant: string, cutoff: real, w: World): Batch {
    var fetched := Fetch(rows, site.marked, tenant, cutoff, LIMIT);
    SyncChats(Batch(Progress(site, Tally(0, 0, 0)), caches), Chats(fetched), fetched, w)
  }

  // ---- Counting ----

  function Sum(t: Tally): nat {
    t.synced + t.skipped + t.errors
  }

  /** Every row is counted once, and once more if its mark raised; synced counts the deliveries that were seen. */
  ghost predicate Accounted(p: Progress, after: Progress, rows: nat) {
    && Sum(after.tally) + |p.site.lost| + |p.site.late| == Sum(p.tally) + rows + |after.site.lost| + |after.site.late|
    && after.tally.synced + |after.site.unseen| + |p.site.log| == p.tally.synced + |p.site.unseen| + |after.site.log|
  }

  lemma {:induction false} RowsCounted(p: Progress, conversation: nat, rows: seq<Stored>, w: World)
    ensures Accounted(p, SyncRows(p, conversation, rows, w), |rows|)
  {
    if rows != [] {
      RowsCounted(p, conversation, rows[..|rows| - 1], w);
    }
  }

  function Total(jids: seq<string>, rows: seq<Stored>): nat {
    if jids == [] then 0
    else Total(jids[..|jids| - 1], rows) + |RowsOf(rows, jids[|jids| - 1])|
  }

  lemma {:induction false} ChatsCounted(b: Batch, jids: seq<string>, rows: seq<Stored>, w: World)
    ensures Accounted(b.progress, SyncChats(b, jids, rows, w).progress, Total(jids, rows))
  {
    hide SyncRows, ValidPhone, RowsOf;
    if jids != [] {
      var last := |jids| - 1;
      ChatsCounted(b, jids[..last], rows, w);
      ChatCounted(SyncChats(b, jids[..last], rows, w), jids[last], RowsOf(rows, jids[last]), last, w);
    }
  }

  lemma ChatCounted(b: Batch, jid: string, rows: seq<Stored>, n: nat, w: World)
    ensures Accounted(b.progress, SyncChat(b, jid, rows, n, w).progress, |rows|)
  {
    hide SyncRows, ValidPhone;
    forall conversation
      ensures Accounted(b.progress, SyncRows(b.progress, conversation, rows, w), |rows|)
    {
      RowsCounted(b.progress, conversation, rows, w);
    }
  }

  /** Neither text nor a kind that could stand for it. */
  predicate Blank(row: Stored) {
    row.text == "" && row.kind == "text"
  }

  /** Blank rows are skipped; of the others one whose post is answered is synced, and every raise is an error. */
  lemma {:induction false} RowsTallied(p: Progress, conversation: nat, rows: seq<Stored>, w: World)
    ensures
      var after := SyncRows(p, conversation, rows, w).tally;
      && after.skipped == p.tally.skipped + |Filter(rows, (row: Stored) => Blank(row))|
      && after.synced == p.tally.synced + |Filter(rows, (row: Stored) => !Blank(row) && w.posts(row.id) == Done)|
      && after.errors == p.tally.errors
           + |Filter(rows, (row: Stored) => !Blank(row) && (w.posts(row.id) != Done || w.marks(row.id) != Done))|
  {
    hide Outgoing;
    if rows != [] {
      RowsTallied(p, conversation, rows[..|rows| - 1], w);
    }
  }

  /**
   What one chat adds to the counts and the caches: all skipped without a valid phone, all errors without a
   contact or a conversation, and otherwise row by row; a contact made is kept even if no conversation is.
   */
  lemma ChatTallied(b: Batch, jid: string, rows: seq<Stored>, n: nat, w: World)
    ensures
      var after, phone := SyncChat(b, jid, rows, n, w), ValidPhone(jid);
      var was, now := b.progress.tally, after.progress.tally;
      if phone.None? then now == was.(skipped := was.skipped + |rows|) && after.caches == b.caches
      else
        var contact := if phone.value in b.caches.contacts then Some(b.caches.contacts[phone.value]) else w.contact(n);
        if contact.None? then now == was.(errors := was.errors + |rows|) && after.caches == b.caches
        else
          var conversation := if contact.value in b.caches.conversations
                              then Some(b.caches.conversations[contact.value]) else w.conversation(n);
          && after.caches.contacts == b.caches.contacts[phone.value := contact.value]
          && if conversation.None? then
               now == was.(errors := was.errors + |rows|) && after.caches.conversations == b.caches.conversations
             else
               && now == SyncRows(b.progress, conversation.value, rows, w).tally
               && after.caches.conversations == b.caches.conversations[contact.value := conversation.value]
  {
    hide SyncRows, ValidPhone;
  }

  ghost predicate DistinctChats(jids: seq<string>) {
    forall i, j :: 0 <= i < j < |jids| ==> jids[i] != jids[j]
  }

  lemma {:induction false} ChatsAreDistinct(rows: seq<Stored>)
    ensures DistinctChats(Chats(rows)) && "" !in Chats(rows)
    ensures forall row :: row in rows && row.chatJid != "" ==> row.chatJid in Chats(rows)
  {
    if rows != [] {
      ChatsAreDistinct(rows[..|rows| - 1]);
      assert rows == rows[..|rows| - 1] + [rows[|rows| - 1]];
    }
  }

  /** Another row adds one to the chat it is in. */
  lemma {:induction false} TotalGrows(jids: seq<string>, rows: seq<Stored>, row: Stored)
    requires DistinctChats(jids)
    ensures Total(jids, rows + [row]) == Total(jids, rows) + if row.chatJid in jids then 1 else 0
  {
    if jids != [] {
      TotalGrows(jids[..|jids| - 1], rows, row);
      assert (rows + [row])[..|rows|] == rows;
      assert jids == jids[..|jids| - 1] + [jids[|jids| - 1]];
    }
  }

  lemma AbsentChat(rows: seq<Stored>, jid: string)
    requires jid != "" && jid !in Chats(rows)
    ensures RowsOf(rows, jid) == []
  {
    ChatsAreDistinct(rows);
    if RowsOf(rows, jid) != [] {
      HasMember(RowsOf(rows, jid));
      assert false;
    }
  }

  lemma HasMember(rows: seq<Stored>)
    requires rows != []
    ensures exists row :: row in rows
  {
    assert rows[0] in rows;
  }

  function WithChat(rows: seq<Stored>): seq<Stored> {
    Filter(rows, (row: Stored) => row.chatJid != "")
  }

  /** The groups together are the rows that have a chat. */
  lemma {:induction false} GroupsCoverRows(rows: seq<Stored>)
    ensures Total(Chats(rows), rows) == |WithChat(rows)|
  {
    if rows != [] {
      var front, row := rows[..|rows| - 1], rows[|rows| - 1];
      GroupsCoverRows(front);
      ChatsAreDistinct(front);
      assert rows == front + [row];
      TotalGrows(Chats(front), front, row);
      if row.chatJid != "" && row.chatJid !in Chats(front) {
        AbsentChat(front, row.chatJid);
        assert Chats(rows)[..|Chats(front)|] == Chats(front);
      }
    }
  }

  /**
   Synced, skipped and errors add up to the fetched rows with a chat, plus one per mark that raised;
   synced is the number of deliveries less those whose post raised.
   */
  lemma CountsAddUp(site: Site, caches: Caches, rows: seq<Stored>, tenant: string, cutoff: real, w: World)
    ensures
      var fetched := Fetch(rows, site.marked, tenant, cutoff, 1000);
      var Progress(after, tally) := SyncRun(site, caches, rows, tenant, cutoff, w).progress;
      && Sum(tally) == |WithChat(fetched)| + (|after.lost| - |site.lost|) + (|after.late| - |site.late|)
      && tally.synced == (|after.log| - |site.log|) - (|after.unseen| - |site.unseen|)
  {
    hide SyncChats, Fetch, Chats;
    var fetched := Fetch(rows, site.marked, tenant, cutoff, LIMIT);
    ChatsCounted(Batch(Progress(site, Tally(0, 0, 0)), caches), Chats(fetched), fetched, w);
    GroupsCoverRows(fetched);
  }

  // ---- Delivery and marking ----

  function Deliveries(log: seq<Delivery>, id: nat): nat {
    if log == [] then 0 else Deliveries(log[..|log| - 1], id) + if log[|log| - 1].row.id == id then 1 else 0
  }

  function Times(ids: seq<nat>, id: nat): nat {
    if ids == [] then 0 else Times(ids[..|ids| - 1], id) + if ids[|ids| - 1] == id then 1 else 0
  }

  /** Every delivery of a row either marked it, or raised, or lost its mark, and a marked row is not delivered again. */
  ghost predicate Balanced(site: Site) {
    forall id: nat :: Deliveries(site.log, id) == Missed(site, id) + if id in site.marked then 1 else 0
  }

  /** The deliveries of a row that left it unmarked. */
  function Missed(site: Site, id: nat): nat {
    Times(site.unseen, id) + Times(site.lost, id)
  }

  function Ids(rows: seq<Stored>): set<nat> {
    set row | row in rows :: row.id
  }

  lemma DeliveredOnceMore(log: seq<Delivery>, d: Delivery, id: nat)
    ensures Deliveries(log + [d], id) == Deliveries(log, id) + if d.row.id == id then 1 else 0
  {
    assert (log + [d])[..|log|] == log;
  }

  lemma LostOnceMore(lost: seq<nat>, last: nat, id: nat)
    ensures Times(lost + [last], id) == Times(lost, id) + if last == id then 1 else 0
  {
    assert (lost + [last])[..|lost|] == lost;
  }

  lemma RowBalanced(p: Progress, conversation: nat, row: Stored, w: World)
    requires Balanced(p.site) && row.id !in p.site.marked
    ensures
      var after := SyncRow(p, conversation, row, w).site;
      Balanced(after) && p.site.marked <= after.marked <= p.site.marked + {row.id}
  {
    hide Deliveries, Times, HasContent, Outgoing;
    var site, after := p.site, SyncRow(p, conversation, row, w).site;
    var d := Outgoing(conversation, row);
    assert d.row == row by { OutgoingRow(conversation, row); }
    forall id: nat
      ensures Deliveries(after.log, id) == Missed(after, id) + if id in after.marked then 1 else 0
    {
      DeliveredOnceMore(site.log, d, id);
      LostOnceMore(site.lost, row.id, id);
      LostOnceMore(site.unseen, row.id, id);
      assert Deliveries(site.log, id) == Missed(site, id) + if id in site.marked then 1 else 0;
    }
  }

  lemma OutgoingRow(conversation: nat, row: Stored)
    ensures Outgoing(conversation, row).row == row
  {
  }

  lemma {:induction false} RowsBalanced(p: Progress, conversation: nat, rows: seq<Stored>, w: World)
    requires Balanced(p.site) && DistinctIds(rows) && Ids(rows) !! p.site.marked
    ensures
      var after := SyncRows(p, conversation, rows, w).site;
      Balanced(after) && p.site.marked <= after.marked <= p.site.marked + Ids(rows)
  {
    hide Balanced, SyncRow;
    if rows != [] {
      var front, last := rows[..|rows| - 1], rows[|rows| - 1];
      assert rows == front + [last];
      RowsBalanced(p, conversation, front, w);
      assert last.id in Ids(rows);
      RowBalanced(SyncRows(p, conversation, front, w), conversation, last, w);
    }
  }

  lemma ChatBalanced(b: Batch, jid: string, rows: seq<Stored>, n: nat, w: World)
    requires Balanced(b.progress.site) && DistinctIds(rows) && Ids(rows) !! b.progress.site.marked
    ensures
      var after := SyncChat(b, jid, rows, n, w).progress.site;
      Balanced(after) && b.progress.site.marked <= after.marked <= b.progress.site.marked + Ids(rows)
  {
    hide SyncRows, ValidPhone, Balanced, DistinctIds;
    forall conversation
      ensures
        var after := SyncRows(b.progress, conversation, rows, w).site;
        Balanced(after) && b.progress.site.marked <= after.marked <= b.progress.site.marked + Ids(rows)
    {
      RowsBalanced(b.progress, conversation, rows, w);
    }
  }

  /** The ids of the rows of these chats. */
  function IdsIn(rows: seq<Stored>, jids: seq<string>): set<nat> {
    set row | row in rows && row.chatJid in jids :: row.id
  }

  lemma GroupIds(rows: seq<Stored>, jids: seq<string>, jid: string)
    requires DistinctIds(rows) && jid !in jids
    ensures DistinctIds(RowsOf(rows, jid)) && Ids(RowsOf(rows, jid)) !! IdsIn(rows, jids)
    ensures Ids(RowsOf(rows, jid)) <= Ids(rows)
    ensures IdsIn(rows, jids) + Ids(RowsOf(rows, jid)) <= IdsIn(rows, jids + [jid])
  {
    FilterDistinct(rows, (row: Stored) => row.chatJid == jid);
    forall a, b | a in rows && b in rows && a.id == b.id ensures a == b {
    }
  }

  lemma {:induction false} ChatsBalanced(b: Batch, jids: seq<string>, rows: seq<Stored>, w: World)
    requires Balanced(b.progress.site) && DistinctIds(rows) && DistinctChats(jids)
    requires Ids(rows) !! b.progress.site.marked
    ensures
      var after := SyncChats(b, jids, rows, w).progress.site;
      Balanced(after) && b.progress.site.marked <= after.marked <= b.progress.site.marked + IdsIn(rows, jids)
  {
    hide Balanced, SyncChat, RowsOf, DistinctIds;
    if jids != [] {
      var front, last := jids[..|jids| - 1], jids[|jids| - 1];
      assert jids == front + [last];
      ChatsBalanced(b, front, rows, w);
      GroupIds(rows, front, last);
      ChatBalanced(SyncChats(b, front, rows, w), last, RowsOf(rows, last), |front|, w);
    }
  }

  lemma RunBalanced(site: Site, caches: Caches, rows: seq<Stored>, tenant: string, cutoff: real, w: World)
    requires Balanced(site) && DistinctIds(rows)
    ensures Balanced(SyncRun(site, caches, rows, tenant, cutoff, w).progress.site)
  {
    hide Balanced, SyncChats, Fetch, Chats, DistinctIds, DistinctChats;
    var fetched := Fetch(rows, site.marked, tenant, cutoff, LIMIT);
    FetchIsOldest(rows, site.marked, tenant, cutoff, LIMIT);
    ChatsAreDistinct(fetched);
    ChatsBalanced(Batch(Progress(site, Tally(0, 0, 0)), caches), Chats(fetched), fetched, w);
  }

  // ---- Runs after runs ----

  /** One sync run: the table as it is by then, and a service with its caches. */
  datatype Round = Round(rows: seq<Stored>, tenant: string, cutoff: real, caches: Caches, world: World)

  const UNTOUCHED := Site({}, [], [], [], [])

  function After(rounds: seq<Round>): Site {
    if rounds == [] then UNTOUCHED
    else
      var r := rounds[|rounds| - 1];
      SyncRun(After(rounds[..|rounds| - 1]), r.caches, r.rows, r.tenant, r.cutoff, r.world).progress.site
  }

  /** Over any rounds, a row is delivered once per post that raised and per lost mark, and once more if it is marked. */
  lemma {:induction false} DeliveriesBalance(rounds: seq<Round>)
    requires forall i :: 0 <= i < |rounds| ==> DistinctIds(rounds[i].rows)
    ensures Balanced(After(rounds))
  {
    hide SyncRun, DistinctIds;
    if rounds != [] {
      DeliveriesBalance(rounds[..|rounds| - 1]);
      var r := rounds[|rounds| - 1];
      RunBalanced(After(rounds[..|rounds| - 1]), r.caches, r.rows, r.tenant, r.cutoff, r.world);
    }
  }

  ghost predicate AtMostOnce(log: seq<Delivery>) {
    forall id: nat :: Deliveries(log, id) <= 1
  }

  ghost predicate DeliveredIsMarked(site: Site) {
    forall id: nat :: Deliveries(site.log, id) > 0 <==> id in site.marked
  }

  /**
   Each message accepted at most once, and exactly the accepted ones marked, if and only if no
   accepted post raised and no mark was lost.
   */
  lemma AcceptedOnceAndMarked(rounds: seq<Round>)
    requires forall i :: 0 <= i < |rounds| ==> DistinctIds(rounds[i].rows)
    ensures
      var site := After(rounds);
      AtMostOnce(site.log) && DeliveredIsMarked(site) <==> site.unseen == [] && site.lost == []
  {
    hide After, DistinctIds, Balanced, AtMostOnce, DeliveredIsMarked;
    DeliveriesBalance(rounds);
    OnceIfNothingMissed(After(rounds));
  }

  lemma OnceIfNothingMissed(site: Site)
    requires Balanced(site)
    ensures AtMostOnce(site.log) && DeliveredIsMarked(site) <==> site.unseen == [] && site.lost == []
  {
    if site.unseen == [] && site.lost == [] {
      forall id: nat ensures Deliveries(site.log, id) == if id in site.marked then 1 else 0 {
        assert Times([], id) == 0;
      }
    } else {
      var missed := if site.unseen != [] then site.unseen else site.lost;
      var id := missed[|missed| - 1];
      assert Times(missed, id) >= 1;
      assert Deliveries(site.log, id) == Missed(site, id) + if id in site.marked then 1 else 0;
    }
  }

  /** On its own, at most once fails exactly for a row that was missed twice, or missed and then marked. */
  lemma DeliveredTwice(rounds: seq<Round>, id: nat)
    requires forall i :: 0 <= i < |rounds| ==> DistinctIds(rounds[i].rows)
    ensures
      var site := After(rounds);
      Deliveries(site.log, id) >= 2 <==> Missed(site, id) >= 2 || (Missed(site, id) == 1 && id in site.marked)
  {
    hide After, DistinctIds;
    DeliveriesBalance(rounds);
  }

  // ---- The duplicate that no raised mark announces ----

  /** A run over a table with one pending row of a chat that can be reached. */
  lemma OneRowRun(site: Site, caches: Caches, row: Stored, tenant: string, cutoff: real, w: World)
    returns (conversation: nat)
    requires Eligible(row, site.marked, tenant, cutoff) && ValidPhone(row.chatJid).Some?
    requires w.contact(0).Some? && w.conversation(0).Some?
    ensures SyncRun(site, caches, [row], tenant, cutoff, w).progress
         == SyncRow(Progress(site, Tally(0, 0, 0)), conversation, row, w)
  {
    hide ValidPhone, SyncRow, SyncRows, SyncChats, Fetch, Chats, RowsOf, Eligible;
    NoPhoneInNothing();
    FetchOne(row, site.marked, tenant, cutoff);
    ChatsOne(row);
    FilterOneChat([row], row.chatJid, row.chatJid);
    var start := Batch(Progress(site, Tally(0, 0, 0)), caches);
    SyncOneChat(start, row.chatJid, [row], w);
    var contact := ContactFor(caches, ValidPhone(row.chatJid).value, 0, w);
    conversation := Conversation(caches, contact.value, 0, w).value;
    SyncOneRow(start.progress, conversation, row, w);
  }

  lemma FetchOne(row: Stored, marked: set<nat>, tenant: string, cutoff: real)
    requires Eligible(row, marked, tenant, cutoff)
    ensures Fetch([row], marked, tenant, cutoff, LIMIT) == [row]
  {
    hide Eligible, Filter, ByCreation;
    FilterOne(row, (r: Stored) => Eligible(r, marked, tenant, cutoff));
    SortOne(row);
  }

  lemma FilterOne(row: Stored, keep: Stored -> bool)
    ensures Filter([row], keep) == if keep(row) then [row] else []
  {
    assert [row][..0] == [];
    assert Filter([], keep) == [];
  }

  lemma SortOne(row: Stored)
    ensures ByCreation([row]) == [row]
  {
    assert [row][..0] == [];
    assert ByCreation([]) == [];
  }

  lemma ChatsOne(row: Stored)
    requires row.chatJid != ""
    ensures Chats([row]) == [row.chatJid]
  {
    assert [row][..0] == [];
    assert Chats([]) == [];
  }

  lemma SyncOneRow(p: Progress, conversation: nat, row: Stored, w: World)
    ensures SyncRows(p, conversation, [row], w) == SyncRow(p, conversation, row, w)
  {
    hide SyncRow;
    assert [row][..0] == [];
  }

  lemma SyncOneChat(b: Batch, jid: string, rows: seq<Stored>, w: World)
    ensures SyncChats(b, [jid], rows, w) == SyncChat(b, jid, RowsOf(rows, jid), 0, w)
  {
    hide SyncChat, RowsOf;
    assert [jid][..0] == [];
  }

  lemma NoPhoneInNothing()
    ensures ValidPhone("") == None
  {
  }

  /**
   Chatwoot accepts the post but answers too late: the row is posted again by the next run, and is
   accepted twice although no mark ever raised.
   */
  lemma LateAnswerDeliversTwice(row: Stored, caches: Caches, tenant: string, cutoff: real, late: World, fine: World)
    requires Eligible(row, {}, tenant, cutoff) && HasContent(row) && ValidPhone(row.chatJid).Some?
    requires late.contact(0).Some? && late.conversation(0).Some? && late.posts(row.id) == Unseen
    requires fine.contact(0).Some? && fine.conversation(0).Some?
    requires fine.posts(row.id) == Done && fine.marks(row.id) == Done
    ensures
      var site := After([Round([row], tenant, cutoff, caches, late), Round([row], tenant, cutoff, caches, fine)]);
      Deliveries(site.log, row.id) == 2 && site.lost == [] && site.late == [] && site.marked == {row.id}
  {
    hide After, SyncRun, ValidPhone, HasContent, Outgoing, Deliveries;
    AfterTwo(Round([row], tenant, cutoff, caches, late), Round([row], tenant, cutoff, caches, fine));
    var c1 := OneRowRun(UNTOUCHED, caches, row, tenant, cutoff, late);
    var once := SyncRow(Progress(UNTOUCHED, Tally(0, 0, 0)), c1, row, late).site;
    var c2 := OneRowRun(once, caches, row, tenant, cutoff, fine);
    OutgoingRow(c1, row);
    OutgoingRow(c2, row);
    DeliveredOnceMore([], Outgoing(c1, row), row.id);
    DeliveredOnceMore([] + [Outgoing(c1, row)], Outgoing(c2, row), row.id);
    assert Deliveries([], row.id) == 0 by { NothingDelivered(row.id); }
  }

  lemma NothingDelivered(id: nat)
    ensures Deliveries([], id) == 0
  {
  }

  lemma AfterTwo(r1: Round, r2: Round)
    ensures
      var once := SyncRun(UNTOUCHED, r1.caches, r1.rows, r1.tenant, r1.cutoff, r1.world).progress.site;
      After([r1, r2]) == SyncRun(once, r2.caches, r2.rows, r2.tenant, r2.cutoff, r2.world).progress.site
  {
    hide SyncRun;
    assert [r1, r2][..1] == [r1] && [r1][..0] == [];
    assert After([]) == UNTOUCHED;
  }

  // ---- Order ----

  function RowsDelivered(log: seq<Delivery>): seq<Stored> {
    if log == [] then [] else RowsDelivered(log[..|log| - 1]) + [log[|log| - 1].row]
  }

  function AcceptedRows(rows: seq<Stored>, w: World): seq<Stored> {
    Filter(rows, (row: Stored) => HasContent(row) && w.posts(row.id) != Refused)
  }

  lemma RowLogged(p: Progress, conversation: nat, row: Stored, w: World)
    ensures RowsDelivered(SyncRow(p, conversation, row, w).site.log)
         == RowsDelivered(p.site.log) + if HasContent(row) && w.posts(row.id) != Refused then [row] else []
  {
    hide HasContent;
    var log, d := p.site.log, Outgoing(conversation, row);
    assert (log + [d])[..|log|] == log;
    assert RowsDelivered(log) + [] == RowsDelivered(log);
  }

  lemma {:induction false} RowsLogged(p: Progress, conversation: nat, rows: seq<Stored>, w: World)
    ensures RowsDelivered(SyncRows(p, conversation, rows, w).site.log)
         == RowsDelivered(p.site.log) + AcceptedRows(rows, w)
  {
    hide SyncRow, RowsDelivered, HasContent;
    if rows != [] {
      var front, last := rows[..|rows| - 1], rows[|rows| - 1];
      RowsLogged(p, conversation, front, w);
      RowLogged(SyncRows(p, conversation, front, w), conversation, last, w);
    }
  }

  lemma {:induction false} FilterAppends(a: seq<Stored>, b: seq<Stored>, keep: Stored -> bool)
    ensures Filter(a + b, keep) == Filter(a, keep) + Filter(b, keep)
  {
    if b == [] {
      assert a + b == a;
    } else {
      var front, last := b[..|b| - 1], b[|b| - 1];
      assert (a + b)[..|a + b| - 1] == a + front && (a + b)[|a + b| - 1] == last;
      FilterAppends(a, front, keep);
      assert Filter(a, keep) + (Filter(front, keep) + [last]) == Filter(a, keep) + Filter(front, keep) + [last];
    }
  }

  lemma {:induction false} FilterOneChat(rows: seq<Stored>, jid: string, other: string)
    requires forall row :: row in rows ==> row.chatJid == jid
    ensures RowsOf(rows, other) == if other == jid then rows else []
  {
    if rows != [] {
      assert rows == rows[..|rows| - 1] + [rows[|rows| - 1]];
      FilterOneChat(rows[..|rows| - 1], jid, other);
    }
  }

  /** The chat has a valid phone, and its contact and conversation were cached or could be made. */
  predicate Reached(caches: Caches, jid: string, n: nat, w: World) {
    var phone := ValidPhone(jid);
    && phone.Some?
    && var contact := ContactFor(caches, phone.value, n, w);
    contact.Some? && Conversation(caches, contact.value, n, w).Some?
  }

  lemma ChatInOrder(b: Batch, jid: string, group: seq<Stored>, n: nat, w: World, other: string)
    requires forall row :: row in group ==> row.chatJid == jid
    ensures RowsOf(RowsDelivered(SyncChat(b, jid, group, n, w).progress.site.log), other)
         == RowsOf(RowsDelivered(b.progress.site.log), other)
            + if other == jid && Reached(b.caches, jid, n, w) then AcceptedRows(group, w) else []
  {
    hide SyncRows, ValidPhone, RowsDelivered, RowsOf, HasContent;
    var was := RowsDelivered(b.progress.site.log);
    var accepted := AcceptedRows(group, w);
    forall conversation
      ensures RowsDelivered(SyncRows(b.progress, conversation, group, w).site.log) == was + accepted
    {
      RowsLogged(b.progress, conversation, group, w);
    }
    RowsOfAppends(was, accepted, other);
    FilterOneChat(accepted, jid, other);
    assert RowsOf(was, other) + [] == RowsOf(was, other);
  }

  lemma RowsOfAppends(a: seq<Stored>, b: seq<Stored>, jid: string)
    ensures RowsOf(a + b, jid) == RowsOf(a, jid) + RowsOf(b, jid)
  {
    FilterAppends(a, b, (row: Stored) => row.chatJid == jid);
  }

  /** What a run adds to the log for one chat: nothing unless it is the `k`-th and was reached. */
  function NewRows(b: Batch, jids: seq<string>, k: nat, rows: seq<Stored>, w: World): seq<Stored>
    requires k < |jids|
  {
    if Reached(SyncChats(b, jids[..k], rows, w).caches, jids[k], k, w) then AcceptedRows(RowsOf(rows, jids[k]), w)
    else []
  }

  lemma {:induction false} OtherChats(b: Batch, jids: seq<string>, rows: seq<Stored>, w: World, jid: string)
    requires jid !in jids
    ensures RowsOf(RowsDelivered(SyncChats(b, jids, rows, w).progress.site.log), jid)
         == RowsOf(RowsDelivered(b.progress.site.log), jid)
  {
    hide SyncChat, RowsDelivered, AcceptedRows, Reached;
    if jids != [] {
      var front, last := jids[..|jids| - 1], jids[|jids| - 1];
      assert jids == front + [last];
      OtherChats(b, front, rows, w, jid);
      ChatInOrder(SyncChats(b, front, rows, w), last, RowsOf(rows, last), |front|, w, jid);
    }
  }

  lemma {:induction false} ChatsInOrder(b: Batch, jids: seq<string>, rows: seq<Stored>, w: World, k: nat)
    requires DistinctChats(jids) && k < |jids|
    ensures RowsOf(RowsDelivered(SyncChats(b, jids, rows, w).progress.site.log), jids[k])
         == RowsOf(RowsDelivered(b.progress.site.log), jids[k]) + NewRows(b, jids, k, rows, w)
  {
    hide SyncChat, RowsDelivered, AcceptedRows, Reached;
    var front, last := jids[..|jids| - 1], jids[|jids| - 1];
    ChatInOrder(SyncChats(b, front, rows, w), last, RowsOf(rows, last), |front|, w, jids[k]);
    if k == |front| {
      OtherChats(b, front, rows, w, last);
      assert jids[..k] == front;
    } else {
      ChatsInOrder(b, front, rows, w, k);
      assert front[..k] == jids[..k];
      var was := RowsOf(RowsDelivered(SyncChats(b, front, rows, w).progress.site.log), jids[k]);
      assert was + [] == was;
    }
  }

  /**
   What a run delivers for each of its chats: if the chat was reached, its accepted rows in the order
   they were fetched, and otherwise nothing; and nothing for any other chat.
   */
  lemma DeliveredInFetchedOrder(site: Site, caches: Caches, rows: seq<Stored>, tenant: string, cutoff: real, w: World)
    ensures
      var fetched := Fetch(rows, site.marked, tenant, cutoff, LIMIT);
      var start, jids := Batch(Progress(site, Tally(0, 0, 0)), caches), Chats(fetched);
      var was := RowsDelivered(site.log);
      var now := RowsDelivered(SyncRun(site, caches, rows, tenant, cutoff, w).progress.site.log);
      && (forall k :: 0 <= k < |jids| ==>
            RowsOf(now, jids[k]) == RowsOf(was, jids[k]) + NewRows(start, jids, k, fetched, w))
      && (forall jid :: jid !in jids ==> RowsOf(now, jid) == RowsOf(was, jid))
  {
    hide SyncChats, Fetch, Chats, RowsDelivered, RowsOf, NewRows;
    var fetched := Fetch(rows, site.marked, tenant, cutoff, LIMIT);
    var start, jids := Batch(Progress(site, Tally(0, 0, 0)), caches), Chats(fetched);
    ChatsAreDistinct(fetched);
    forall k | 0 <= k < |jids|
      ensures RowsOf(RowsDelivered(SyncChats(start, jids, fetched, w).progress.site.log), jids[k])
           == RowsOf(RowsDelivered(site.log), jids[k]) + NewRows(start, jids, k, fetched, w)
    {
      ChatsInOrder(start, jids, fetched, w, k);
    }
    forall jid | jid !in jids
      ensures RowsOf(RowsDelivered(SyncChats(start, jids, fetched, w).progress.site.log), jid)
           == RowsOf(RowsDelivered(site.log), jid)
    {
      OtherChats(start, jids, fetched, w, jid);
    }
  }

  // ---- Which conversation ----

  /** What is delivered is what the row says: its direction, its text or else its kind, and its media. */
  predicate FromColumns(d: Delivery) {
    && d.incoming == d.row.inbound
    && (d.row.text != "" ==> d.content == d.row.text) && (d.row.text == "" ==> d.content == "[" + d.row.kind + "]")
    && (d.attachment.Some? <==> d.row.kind != "text" && d.row.mediaUrl.Some? && d.row.mediaUrl.value != "")
    && (d.attachment.Some? ==> d.attachment.value == Attachment(FileType(d.row.kind), d.row.mediaUrl.value))
  }

  /** The delivery says what its row says, and went to the conversation the caches hold for the phone of its chat. */
  ghost predicate Filed(d: Delivery, caches: Caches) {
    var phone := ValidPhone(d.row.chatJid);
    && FromColumns(d)
    && phone.Some? && phone.value in caches.contacts && caches.contacts[phone.value] in caches.conversations
    && d.conversation == caches.conversations[caches.contacts[phone.value]]
  }

  /** Nothing a cache holds is replaced. */
  ghost predicate Extends(more: Caches, caches: Caches) {
    && (forall p :: p in caches.contacts ==> p in more.contacts && more.contacts[p] == caches.contacts[p])
    && forall c :: c in caches.conversations ==>
         c in more.conversations && more.conversations[c] == caches.conversations[c]
  }

  ghost predicate NewlyFiled(before: seq<Delivery>, after: seq<Delivery>, caches: Caches) {
    before <= after && forall i :: |before| <= i < |after| ==> Filed(after[i], caches)
  }

  lemma {:induction false} RowsPosted(p: Progress, conversation: nat, rows: seq<Stored>, w: World)
    ensures
      var before, after := p.site.log, SyncRows(p, conversation, rows, w).site.log;
      && before <= after
      && forall i :: |before| <= i < |after| ==>
           after[i].conversation == conversation && after[i].row in rows && FromColumns(after[i])
  {
    if rows != [] {
      var front, last := rows[..|rows| - 1], rows[|rows| - 1];
      assert rows == front + [last];
      RowsPosted(p, conversation, front, w);
    }
  }

  lemma ChatFiled(b: Batch, jid: string, group: seq<Stored>, n: nat, w: World)
    requires forall row :: row in group ==> row.chatJid == jid
    ensures
      var after := SyncChat(b, jid, group, n, w);
      Extends(after.caches, b.caches) && NewlyFiled(b.progress.site.log, after.progress.site.log, after.caches)
  {
    hide SyncRows, ValidPhone;
    forall conversation
      ensures
        var before, after := b.progress.site.log, SyncRows(b.progress, conversation, group, w).site.log;
        && before <= after
        && forall i :: |before| <= i < |after| ==>
             after[i].conversation == conversation && after[i].row.chatJid == jid && FromColumns(after[i])
    {
      RowsPosted(b.progress, conversation, group, w);
    }
  }

  lemma StillFiled(before: seq<Delivery>, middle: seq<Delivery>, after: seq<Delivery>, caches: Caches, more: Caches)
    requires NewlyFiled(before, middle, caches) && NewlyFiled(middle, after, more) && Extends(more, caches)
    ensures NewlyFiled(before, after, more)
  {
    hide ValidPhone;
    forall i | |before| <= i < |after| ensures Filed(after[i], more) {
      if i < |middle| {
        assert Filed(middle[i], caches);
      }
    }
  }

  lemma {:induction false} ChatsFiled(b: Batch, jids: seq<string>, rows: seq<Stored>, w: World)
    ensures
      var after := SyncChats(b, jids, rows, w);
      Extends(after.caches, b.caches) && NewlyFiled(b.progress.site.log, after.progress.site.log, after.caches)
  {
    hide SyncChat, Filed;
    if jids != [] {
      var front, last := jids[..|jids| - 1], jids[|jids| - 1];
      var middle := SyncChats(b, front, rows, w);
      var after := SyncChat(middle, last, RowsOf(rows, last), |front|, w);
      ChatsFiled(b, front, rows, w);
      ChatFiled(middle, last, RowsOf(rows, last), |front|, w);
      StillFiled(b.progress.site.log, middle.progress.site.log, after.progress.site.log, middle.caches, after.caches);
    }
  }

  /** Every delivery of a run goes to the one conversation its caches end up holding for the phone of its chat. */
  lemma OneConversationPerPhone(site: Site, caches: Caches, rows: seq<Stored>, tenant: string, cutoff: real, w: World)
    ensures
      var after := SyncRun(site, caches, rows, tenant, cutoff, w);
      Extends(after.caches, caches) && NewlyFiled(site.log, after.progress.site.log, after.caches)
  {
    hide SyncChats, Fetch, Chats, NewlyFiled, Extends;
    var fetched := Fetch(rows, site.marked, tenant, cutoff, LIMIT);
    ChatsFiled(Batch(Progress(site, Tally(0, 0, 0)), caches), Chats(fetched), fetched, w);
  }
}
