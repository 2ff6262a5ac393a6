/**
 The conversation cache of src/chatwoot/client.py. Each awaited request to Chatwoot is a parameter of
 the call. The ghost `log` keeps every conversation Chatwoot was asked for and every clear.
 */
module ClientCache {
  import opened Wrappers
  import opened Windows

  datatype Event = Asked(contact: nat, conversation: nat, at: Time) | Cleared

  datatype Entry = Entry(conversation: nat, at: Time)

  datatype Found = Nothing | Existing(conversation: nat, closed: bool)

  /** The answers to the lookup, the reopening and the creation; `None` and `false` are errors. */
  datatype Answers = Answers(found: Option<Found>, reopened: bool, created: Option<nat>)

  const CACHE_TTL: Time := 1800.0

  /** The last conversation a contact was given since the last clear. */
  ghost function Latest(log: seq<Event>, contact: nat): Option<Entry> {
    if log == [] then None
    else
      var before := Latest(log[..|log| - 1], contact);
      match log[|log| - 1]
      case Cleared => None
      case Asked(c, conversation, at) => if c == contact then Some(Entry(conversation, at)) else before
  }

  predicate Live(entry: Option<Entry>, now: Time) {
    entry.Some? && now - entry.value.at < CACHE_TTL
  }

  /** Without a clear in between, Chatwoot is not asked again for a contact before the entry's time is up. */
  ghost predicate Spaced(log: seq<Event>) {
    forall i, j :: 0 <= i < j < |log| && Repeats(log, i, j) ==> log[j].at - log[i].at >= 1800.0
  }

  /** Two requests for one contact, with no clear between them. */
  ghost predicate Repeats(log: seq<Event>, i: nat, j: nat)
    requires i < j < |log|
  {
    log[j].Asked? && Stands(log[..j], i) && log[i].contact == log[j].contact
  }

  /** The request has not been cleared since. */
  ghost predicate Stands(log: seq<Event>, i: nat)
    requires i < |log|
  {
    forall k :: i <= k < |log| ==> log[k].Asked?
  }

  /** The cache holds live entries, and only what was given last. */
  ghost predicate Faithful(cache: map<nat, Entry>, log: seq<Event>, now: Time) {
    forall contact: nat ::
      && (contact in cache ==> Latest(log, contact) == Some(cache[contact]))
      && (contact !in cache ==> !Live(Latest(log, contact), now))
  }

  lemma Extended(log: seq<Event>, event: Event, contact: nat)
    ensures Latest(log + [event], contact) == match event
                                              case Cleared => None
                                              case Asked(c, conversation, at) =>
                                                if c == contact then Some(Entry(conversation, at))
                                                else Latest(log, contact)
  {
    assert (log + [event])[..|log|] == log;
  }

  /** A standing request for a contact is not younger than its latest entry. */
  lemma {:induction false} EarlierAsked(log: seq<Event>, contact: nat, i: nat)
    requires i < |log| && Stands(log, i) && log[i].contact == contact && Spaced(log)
    ensures Latest(log, contact).Some? && log[i].at <= Latest(log, contact).value.at
  {
    var j := |log| - 1;
    var front := log[..j];
    if log[j].contact == contact {
      assert i < j ==> Repeats(log, i, j);
    } else {
      SpacedBefore(log);
      EarlierAsked(front, contact, i);
    }
  }

  lemma SpacedBefore(log: seq<Event>)
    requires log != [] && Spaced(log)
    ensures Spaced(log[..|log| - 1])
  {
    var front := log[..|log| - 1];
    forall i, j | 0 <= i < j < |front| && Repeats(front, i, j) ensures front[j].at - front[i].at >= CACHE_TTL {
      assert front[..j] == log[..j];
      assert Repeats(log, i, j);
    }
  }

  lemma SpacedGrows(log: seq<Event>, contact: nat, conversation: nat, at: Time)
    requires Spaced(log) && !Live(Latest(log, contact), at)
    ensures Spaced(log + [Asked(contact, conversation, at)])
  {
    var more := log + [Asked(contact, conversation, at)];
    forall i, j | 0 <= i < j < |more| && Repeats(more, i, j) ensures more[j].at - more[i].at >= CACHE_TTL {
      assert more[..j] == log[..j];
      if j < |log| {
        assert Repeats(log, i, j);
      } else {
        assert log[..j] == log;
        EarlierAsked(log, contact, i);
      }
    }
  }

  lemma SpacedCleared(log: seq<Event>)
    requires Spaced(log)
    ensures Spaced(log + [Cleared])
  {
    var more := log + [Cleared];
    forall i, j | 0 <= i < j < |more| && Repeats(more, i, j) ensures more[j].at - more[i].at >= CACHE_TTL {
      assert more[..j] == log[..j];
      assert Repeats(log, i, j);
    }
  }

  lemma FaithfulGrows(cache: map<nat, Entry>, log: seq<Event>, contact: nat, conversation: nat, now: Time, at: Time)
    requires Faithful(cache, log, now) && now <= at
    ensures Faithful(cache[contact := Entry(conversation, at)], log + [Asked(contact, conversation, at)], at)
  {
    forall c: nat ensures Latest(log + [Asked(contact, conversation, at)], c)
                       == if c == contact then Some(Entry(conversation, at)) else Latest(log, c) {
      Extended(log, Asked(contact, conversation, at), c);
    }
  }

  lemma FaithfulLater(cache: map<nat, Entry>, log: seq<Event>, now: Time, later: Time)
    requires Faithful(cache, log, now) && now <= later
    ensures Faithful(cache, log, later)
  {
  }

  /** What Chatwoot's answers come to: reuse, reopen, or create. */
  function Resolve(reopen: bool, a: Answers): Option<nat> {
    if reopen then
      match a.found
      case None => None
      case Some(Nothing) => a.created
      case Some(Existing(conversation, closed)) => if closed && !a.reopened then None else Some(conversation)
    else a.created
  }

  /**
   A conversation is given if it was found and is open or could be reopened, or if it was created because
   none was found or reuse is switched off.
   */
  lemma ReuseReopenOrCreate(reopen: bool, a: Answers, conversation: nat)
    ensures Resolve(reopen, a) == Some(conversation)
       <==> || (reopen && a.found == Some(Existing(conversation, false)))
            || (reopen && a.found == Some(Existing(conversation, true)) && a.reopened)
            || (a.created == Some(conversation) && (!reopen || a.found == Some(Nothing)))
  {
  }

  class ChatwootClient {
    const reopen: bool
    var cache: map<nat, Entry>
    ghost var log: seq<Event>

    ghost predicate Valid(now: Time)
      reads this
    {
      Faithful(cache, log, now) && Spaced(log)
    }

    constructor (reopen: bool)
      ensures this.reopen == reopen && log == [] && forall now :: Valid(now)
    {
      this.reopen := reopen;
      cache := map[];
      log := [];
    }

    method GetCached(contact: nat, now: Time) returns (cached: Option<nat>)
      requires Valid(now)
      modifies `cache
      ensures Valid(now)
      ensures cached == if Live(Latest(log, contact), now) then Some(Latest(log, contact).value.conversation) else None
    {
      cached := None;
      if contact in cache {
        if now - cache[contact].at < CACHE_TTL {
          cached := Some(cache[contact].conversation);
        } else {
          cache := cache - {contact};
        }
      }
    }

    /** Looks up at `now`, files the answer at `later`. A failed request files nothing. */
    method GetOrCreateConversation(contact: nat, now: Time, later: Time, a: Answers) returns (conversation: Option<nat>)
      requires Valid(now) && now <= later
      modifies this
      ensures Valid(later)
      ensures
        var latest := Latest(old(log), contact);
        if Live(latest, now) then conversation == Some(latest.value.conversation) && log == old(log)
        else
          && conversation == Resolve(reopen, a)
          && log == if conversation.None? then old(log) else old(log) + [Asked(contact, conversation.value, later)]
    {
      hide Spaced, Latest;
      conversation := GetCached(contact, now);
      if conversation.Some? {
        return;
      }
      if reopen {
        if a.found.None? {
          return None;
        }
        if a.found.value.Existing? {
          if a.found.value.closed && !a.reopened {
            return None;
          }
          conversation := Some(a.found.value.conversation);
        } else {
          conversation := a.created;
        }
      } else {
        conversation := a.created;
      }
      if conversation.Some? {
        SpacedGrows(log, contact, conversation.value, later);
        FaithfulGrows(cache, log, contact, conversation.value, now, later);
        cache := cache[contact := Entry(conversation.value, later)];
        log := log + [Asked(contact, conversation.value, later)];
      }
    }

    method ClearCache(now: Time)
      requires Valid(now)
      modifies this
      ensures Valid(now) && log == old(log) + [Cleared] && cache == map[]
    {
      SpacedCleared(log);
      forall contact: nat ensures Latest(log + [Cleared], contact) == None {
        Extended(log, Cleared, contact);
      }
      cache := map[];
      log := log + [Cleared];
    }
  }
}
