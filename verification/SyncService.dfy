/** `ChatwootSyncService` of src/chatwoot/sync.py as an object with its caches, over the message table and Chatwoot. */
module SyncService {
  import opened Requests
  import opened Wrappers
  import opened Messages
  import opened Sync

  class MessageTable {
    var rows: seq<Stored>
    var marked: set<nat>
    /** The rows whose mark raised: without effect, and with it. */
    ghost var lost: seq<nat>
    ghost var late: seq<nat>

    constructor (rows: seq<Stored>)
      ensures this.rows == rows && marked == {} && lost == [] && late == []
    {
      this.rows := rows;
      marked := {};
      lost, late := [], [];
    }

    method GetUnsynced(tenant: string, cutoff: real, limit: nat) returns (fetched: seq<Stored>)
      ensures fetched == Fetch(rows, marked, tenant, cutoff, limit)
    {
      hide EligibleRows, ByCreation, Placed;
      fetched := [];
      NoneEligible(marked, tenant, cutoff);
      var i := 0;
      while i < |rows|
        invariant 0 <= i <= |rows|
        invariant fetched == ByCreation(EligibleRows(rows[..i], marked, tenant, cutoff))
      {
        assert rows[..i + 1] == rows[..i] + [rows[i]];
        EligibleGrows(rows[..i], rows[i], marked, tenant, cutoff);
        if rows[i].tenant == tenant && rows[i].id !in marked && !rows[i].isGroup && rows[i].createdAt >= cutoff {
          fetched := Placed(fetched, rows[i]);
        }
        i := i + 1;
      }
      assert rows[..i] == rows;
      if |fetched| > limit {
        fetched := fetched[..limit];
      }
    }

    method MarkSynced(id: nat, answer: Answer) returns (done: bool)
      modifies `marked, `lost, `late
      ensures done == (answer == Done)
      ensures marked == if answer == Refused then old(marked) else old(marked) + {id}
      ensures lost == if answer == Refused then old(lost) + [id] else old(lost)
      ensures late == if answer == Unseen then old(late) + [id] else old(late)
    {
      if answer == Refused {
        lost := lost + [id];
        return false;
      }
      marked := marked + {id};
      if answer == Unseen {
        late := late + [id];
        return false;
      }
      return true;
    }
  }

  /** The messages Chatwoot has accepted. */
  class Chatwoot {
    var messages: seq<Delivery>

    /** The rows accepted although the post raised. */
    ghost var unseen: seq<nat>

    constructor ()
      ensures messages == [] && unseen == []
    {
      messages, unseen := [], [];
    }

    method CreateMessage(d: Delivery, answer: Answer) returns (done: bool)
      modifies this
      ensures done == (answer == Done)
      ensures messages == if answer == Refused then old(messages) else old(messages) + [d]
      ensures unseen == if answer == Unseen then old(unseen) + [d.row.id] else old(unseen)
    {
      if answer == Refused {
        return false;
      }
      messages := messages + [d];
      if answer == Unseen {
        unseen := unseen + [d.row.id];
        return false;
      }
      return true;
    }
  }

  class ChatwootSyncService {
    const tenant: string
    const table: MessageTable
    const chatwoot: Chatwoot
    var contactCache: map<string, nat>
    var conversationCache: map<nat, nat>

    constructor (tenant: string, table: MessageTable, chatwoot: Chatwoot)
      ensures this.tenant == tenant && this.table == table && this.chatwoot == chatwoot
      ensures contactCache == map[] && conversationCache == map[]
    {
      this.tenant := tenant;
      this.table := table;
      this.chatwoot := chatwoot;
      contactCache := map[];
      conversationCache := map[];
    }

    ghost function Now(): Site
      reads table, chatwoot
    {
      Site(table.marked, chatwoot.messages, chatwoot.unseen, table.lost, table.late)
    }

    ghost function Cached(): Caches
      reads this
    {
      Caches(contactCache, conversationCache)
    }

    /** One message: skipped without content, an error if its post or its mark raises. */
    method SyncSingleMessage(conversation: nat, row: Stored, w: World, tally: Tally) returns (after: Tally)
      modifies table`marked, table`lost, table`late, chatwoot
      ensures Progress(Now(), after) == SyncRow(Progress(old(Now()), tally), conversation, row, w)
    {
      if row.text == "" && row.kind == "text" {
        return tally.(skipped := tally.skipped + 1);
      }
      var attachment := None;
      if row.mediaUrl.Some? && row.mediaUrl.value != "" && row.kind != "text" {
        attachment := Some(Attachment(FileType(row.kind), row.mediaUrl.value));
      }
      var content := if row.text != "" then row.text else "[" + row.kind + "]";
      var d := Delivery(conversation, content, row.inbound, attachment, row);
      var posted := chatwoot.CreateMessage(d, w.posts(row.id));
      if !posted {
        return tally.(errors := tally.errors + 1);
      }
      after := tally.(synced := tally.synced + 1);
      var marked := table.MarkSynced(row.id, w.marks(row.id));
      if !marked {
        after := after.(errors := after.errors + 1);
      }
    }

    method SyncMessages(conversation: nat, rows: seq<Stored>, w: World, tally: Tally) returns (after: Tally)
      modifies table`marked, table`lost, table`late, chatwoot
      ensures Progress(Now(), after) == SyncRows(Progress(old(Now()), tally), conversation, rows, w)
    {
      hide SyncRow;
      after := tally;
      var i := 0;
      while i < |rows|
        invariant 0 <= i <= |rows|
        invariant Progress(Now(), after) == SyncRows(Progress(old(Now()), tally), conversation, rows[..i], w)
      {
        assert rows[..i + 1][..i] == rows[..i];
        after := SyncSingleMessage(conversation, rows[i], w, after);
        i := i + 1;
      }
      assert rows[..i] == rows;
    }

    method SyncContactMessages(jid: string, rows: seq<Stored>, n: nat, w: World, tally: Tally) returns (after: Tally)
      modifies this, table`marked, table`lost, table`late, chatwoot
      ensures Batch(Progress(Now(), after), Cached())
           == SyncChat(Batch(Progress(old(Now()), tally), old(Cached())), jid, rows, n, w)
    {
      hide SyncRows, ValidPhone;
      var phone := ValidPhone(jid);
      if phone.None? {
        return tally.(skipped := tally.skipped + |rows|);
      }
      var contact := Lookup(contactCache, phone.value);
      if contact.None? {
        contact := w.contact(n);
        if contact.None? {
          return tally.(errors := tally.errors + |rows|);
        }
      }
      contactCache := contactCache[phone.value := contact.value];
      var conversation := Lookup(conversationCache, contact.value);
      if conversation.None? {
        conversation := w.conversation(n);
        if conversation.None? {
          return tally.(errors := tally.errors + |rows|);
        }
      }
      conversationCache := conversationCache[contact.value := conversation.value];
      after := SyncMessages(conversation.value, rows, w, tally);
    }

    /** `messages_by_contact`, and its keys in insertion order. */
    method Group(rows: seq<Stored>) returns (jids: seq<string>, groups: map<string, seq<Stored>>)
      ensures Grouped(jids, groups, rows)
    {
      hide Grouped;
      jids, groups := [], map[];
      NothingGrouped();
      var i := 0;
      while i < |rows|
        invariant 0 <= i <= |rows| && Grouped(jids, groups, rows[..i])
      {
        var jid := rows[i].chatJid;
        assert rows[..i + 1] == rows[..i] + [rows[i]];
        GroupedGrows(jids, groups, rows[..i], rows[i]);
        if jid != "" {
          if jid !in groups {
            jids := jids + [jid];
            groups := groups[jid := [rows[i]]];
          } else {
            groups := groups[jid := groups[jid] + [rows[i]]];
          }
        }
        i := i + 1;
      }
      assert rows[..i] == rows;
    }

    method SyncMessageHistory(cutoff: real, w: World) returns (tally: Tally)
      modifies this, table`marked, table`lost, table`late, chatwoot
      ensures Batch(Progress(Now(), tally), Cached())
           == SyncRun(old(Now()), old(Cached()), table.rows, tenant, cutoff, w)
    {
      hide Fetch, Chats, RowsOf, SyncChat;
      tally := Tally(0, 0, 0);
      var fetched := table.GetUnsynced(tenant, cutoff, LIMIT);
      var jids, groups := Group(fetched);
      ghost var start := Batch(Progress(Now(), tally), Cached());
      var n := 0;
      while n < |jids|
        invariant 0 <= n <= |jids|
        invariant Batch(Progress(Now(), tally), Cached()) == SyncChats(start, jids[..n], fetched, w)
      {
        assert jids[..n + 1][..n] == jids[..n];
        tally := SyncContactMessages(jids[n], groups[jids[n]], n, w, tally);
        n := n + 1;
      }
      assert jids[..n] == jids;
    }
  }

  lemma NoneEligible(marked: set<nat>, tenant: string, cutoff: real)
    ensures ByCreation(EligibleRows([], marked, tenant, cutoff)) == []
  {
  }

  lemma EligibleGrows(rows: seq<Stored>, row: Stored, marked: set<nat>, tenant: string, cutoff: real)
    ensures
      var before := ByCreation(EligibleRows(rows, marked, tenant, cutoff));
      ByCreation(EligibleRows(rows + [row], marked, tenant, cutoff))
      == if Eligible(row, marked, tenant, cutoff) then Placed(before, row) else before
  {
    hide EligibleRows, Placed, Eligible;
    FilterGrows(rows, row, marked, tenant, cutoff);
    var kept := EligibleRows(rows, marked, tenant, cutoff);
    assert (kept + [row])[..|kept|] == kept;
  }

  lemma FilterGrows(rows: seq<Stored>, row: Stored, marked: set<nat>, tenant: string, cutoff: real)
    ensures EligibleRows(rows + [row], marked, tenant, cutoff)
         == if Eligible(row, marked, tenant, cutoff) then EligibleRows(rows, marked, tenant, cutoff) + [row]
            else EligibleRows(rows, marked, tenant, cutoff)
  {
    hide Eligible;
    assert (rows + [row])[..|rows|] == rows;
  }

  /** The rows by chat, the chats by first appearance. */
  ghost predicate Grouped(jids: seq<string>, groups: map<string, seq<Stored>>, rows: seq<Stored>) {
    && jids == Chats(rows)
    && (forall jid :: jid in groups <==> jid in jids)
    && forall jid :: jid in groups ==> groups[jid] == RowsOf(rows, jid)
  }

  lemma NothingGrouped()
    ensures Grouped([], map[], [])
  {
  }

  lemma GroupedGrows(jids: seq<string>, groups: map<string, seq<Stored>>, rows: seq<Stored>, row: Stored)
    requires Grouped(jids, groups, rows)
    ensures
      var jid := row.chatJid;
      if jid == "" then Grouped(jids, groups, rows + [row])
      else if jid !in groups then Grouped(jids + [jid], groups[jid := [row]], rows + [row])
      else Grouped(jids, groups[jid := groups[jid] + [row]], rows + [row])
  {
    hide RowsOf, Filter;
    ChatsAreDistinct(rows);
    assert (rows + [row])[..|rows|] == rows;
    forall jid
      ensures RowsOf(rows + [row], jid) == if row.chatJid == jid then RowsOf(rows, jid) + [row] else RowsOf(rows, jid)
    {
      GroupGrows(rows, row, jid);
    }
    if row.chatJid != "" && row.chatJid !in groups {
      AbsentChat(rows, row.chatJid);
      assert [] + [row] == [row];
    }
  }

  lemma GroupGrows(rows: seq<Stored>, row: Stored, jid: string)
    ensures RowsOf(rows + [row], jid) == if row.chatJid == jid then RowsOf(rows, jid) + [row] else RowsOf(rows, jid)
  {
    assert (rows + [row])[..|rows|] == rows;
  }
}
