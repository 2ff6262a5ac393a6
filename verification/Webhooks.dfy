/** Webhook delivery with retries and exponential backoff (src/webhooks/__init__.py). */
module Webhooks {
  import opened Wrappers

  /** What one POST comes to. */
  datatype Reply = Response(status: int) | TimedOut | Unreachable(reason: string) | Failed(reason: string)

  datatype Error = Http(status: int) | Timeout | Connection(reason: string) | Other(reason: string)

  datatype WebhookResult = WebhookResult(
    url: string, success: bool, statusCode: Option<int>, error: Option<Error>, attemptNumber: int)

  /** `s[:n]`. */
  function Cut(s: string, n: nat): string {
    if |s| <= n then s else s[..n]
  }

  predicate Accepted(reply: Reply) {
    reply.Response? && 200 <= reply.status < 300
  }

  function ErrorOf(reply: Reply): Error {
    match reply
    case Response(status) => Http(status)
    case TimedOut => Timeout
    case Unreachable(reason) => Connection(Cut(reason, 100))
    case Failed(reason) => Other(Cut(reason, 200))
  }

  /** Error texts say what kind of failure it was; what the library said is cut to 100 or 200 characters. */
  lemma ErrorTexts(reason: string, status: int)
    ensures ErrorOf(Response(status)) == Http(status) && ErrorOf(TimedOut) == Timeout
    ensures ErrorOf(Unreachable(reason)).Connection? && ErrorOf(Failed(reason)).Other?
    ensures
      var short, long := ErrorOf(Unreachable(reason)).reason, ErrorOf(Failed(reason)).reason;
      && short <= reason && |short| == (if |reason| < 100 then |reason| else 100)
      && long <= reason && |long| == (if |reason| < 200 then |reason| else 200)
  {
  }

  /** The status of the last of the first `n` replies that carried one. */
  function LastStatus(replies: nat -> Reply, n: nat): Option<int> {
    if n == 0 then None
    else if replies(n - 1).Response? then Some(replies(n - 1).status)
    else LastStatus(replies, n - 1)
  }

  lemma {:induction false} LastStatusIsLatest(replies: nat -> Reply, n: nat, status: int)
    ensures LastStatus(replies, n) == Some(status)
       <==> exists i: nat :: i < n && replies(i) == Response(status) && forall j :: i < j < n ==> !replies(j).Response?
  {
    if n > 0 {
      LastStatusIsLatest(replies, n - 1, status);
      if replies(n - 1).Response? {
        assert replies(n - 1).status == status ==> replies(n - 1) == Response(status);
      }
    }
  }

  function Pow2(n: nat): (p: nat)
    ensures p >= 1
  {
    if n == 0 then 1 else 2 * Pow2(n - 1)
  }

  /** The number of POSTs made when at most `limit` are allowed: up to and including the first accepted one. */
  function Posts(replies: nat -> Reply, limit: nat): nat {
    if limit == 0 then 0
    else
      var before := Posts(replies, limit - 1);
      if before > 0 && Accepted(replies(before - 1)) then before else limit
  }

  /** `Posts` stops at the first accepted reply, and only there or at the limit. */
  lemma {:induction false} PostsStopAtFirst(replies: nat -> Reply, limit: nat)
    ensures
      var k := Posts(replies, limit);
      && k <= limit && (limit > 0 ==> k > 0)
      && (forall i :: 0 <= i < k - 1 ==> !Accepted(replies(i)))
      && ((exists i :: 0 <= i < limit && Accepted(replies(i))) <==> k > 0 && Accepted(replies(k - 1)))
      && (k < limit ==> Accepted(replies(k - 1)))
  {
    if limit > 0 {
      PostsStopAtFirst(replies, limit - 1);
      var before := Posts(replies, limit - 1);
      if before > 0 && Accepted(replies(before - 1)) {
        assert 0 <= before - 1 < limit && Accepted(replies(before - 1));
      } else {
        assert forall i :: 0 <= i < limit - 1 ==> !Accepted(replies(i));
      }
    }
  }

  class WebhookSender {
    const maxRetries: int
    const persists: bool
    /** The attempts table. */
    var attempts: seq<WebhookResult>

    constructor (maxRetries: int, persists: bool)
      ensures this.maxRetries == maxRetries && this.persists == persists && attempts == []
    {
      this.maxRetries := maxRetries;
      this.persists := persists;
      attempts := [];
    }

    function Limit(): nat {
      if maxRetries < 0 then 0 else maxRetries
    }

    method SaveAttempt(result: WebhookResult)
      modifies this
      ensures attempts == if persists then old(attempts) + [result] else old(attempts)
    {
      if persists {
        attempts := attempts + [result];
      }
    }

    /** Also returns the number of POSTs and the seconds slept. */
    method SendWithRetry(url: string, replies: nat -> Reply) returns (result: WebhookResult, posts: nat, slept: real)
      modifies this
      ensures posts == Posts(replies, Limit())
      ensures result.success <==>
                exists i :: 0 <= i < maxRetries && replies(i).Response? && 200 <= replies(i).status < 300
      ensures result.attemptNumber == if result.success then posts else maxRetries
      ensures result.url == url && result.statusCode == LastStatus(replies, posts)
      ensures result.error == if result.success || posts == 0 then None else Some(ErrorOf(replies(posts - 1)))
      ensures slept == if posts == 0 then 0.0 else 0.5 * (Pow2(posts - 1) - 1) as real
      ensures attempts == if persists then old(attempts) + [result] else old(attempts)
    {
      var lastError: Option<Error> := None;
      var lastStatusCode: Option<int> := None;
      posts, slept := 0, 0.0;
      var attempt := 0;
      PostsStopAtFirst(replies, Limit());
      while attempt < maxRetries
        invariant 0 <= attempt && (attempt <= maxRetries || attempt == 0)
        invariant posts == attempt && attempts == old(attempts)
        invariant forall i :: 0 <= i < attempt ==> !Accepted(replies(i))
        invariant lastStatusCode == LastStatus(replies, attempt)
        invariant lastError == if attempt == 0 then None else Some(ErrorOf(replies(attempt - 1)))
        invariant slept == if attempt == 0 then 0.0
                           else if attempt == maxRetries then 0.5 * (Pow2(attempt - 1) - 1) as real
                           else 0.5 * (Pow2(attempt) - 1) as real
      {
        var reply := replies(attempt);
        posts := posts + 1;
        if reply.Response? {
          lastStatusCode := Some(reply.status);
          if 200 <= reply.status < 300 {
            result := WebhookResult(url, true, Some(reply.status), None, attempt + 1);
            SaveAttempt(result);
            return;
          }
        }
        lastError := Some(ErrorOf(reply));
        if attempt < maxRetries - 1 {
          slept := slept + Pow2(attempt) as real * 0.5;
        }
        attempt := attempt + 1;
      }
      result := WebhookResult(url, false, lastStatusCode, lastError, maxRetries);
      SaveAttempt(result);
    }
  }
}
