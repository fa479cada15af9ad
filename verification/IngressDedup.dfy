/** What a receiver that deduplicates by idempotency key sees of a run, and why the
    timing assumption on stale claims is needed.

    Source: discord/scripts/discord_gateway_service.py, `process_inbound_message`. */
module IngressDedup {
  import opened IngressDelivery
  import opened IngressProtocol
  import opened IdempotencyKeys
  import opened IngressRuns

  /** The receiver keeps the first POST it sees under each key. */
  function Accepted(posts: seq<Post>): seq<Post> {
    if posts == [] then []
    else
      var earlier, last := Accepted(posts[..|posts| - 1]), posts[|posts| - 1];
      if Seen(earlier, last.key) then earlier else earlier + [last]
  }

  predicate Seen(posts: seq<Post>, key: string) {
    exists p | p in posts :: p.key == key
  }

  lemma {:induction false} AcceptedDistinct(posts: seq<Post>)
    ensures forall p | p in Accepted(posts) :: p in posts
    ensures forall j, k | 0 <= j < k < |Accepted(posts)| :: Accepted(posts)[j].key != Accepted(posts)[k].key
  {
    if posts != [] {
      AcceptedDistinct(posts[..|posts| - 1]);
    }
  }

  lemma {:induction false} AcceptedCovers(posts: seq<Post>, p: Post)
    requires p in posts
    ensures Seen(Accepted(posts), p.key)
  {
    var earlier, last := posts[..|posts| - 1], posts[|posts| - 1];
    assert posts == earlier + [last];
    if p in earlier {
      AcceptedCovers(earlier, p);
    }
    assert !Seen(Accepted(earlier), last.key) ==> last in Accepted(posts);
  }

  /** Over every run of claims, retries, reclaims, crashes and recoveries, a deduplicating
      receiver accepts each message at most once per session, and every (message, session)
      that was posted at all exactly once. */
  lemma AcceptedOncePerSession(s: State, actions: seq<Action>)
    requires Initial(s) && AllEnabled(s, actions)
    requires forall p | p in Exec(s, actions).posts :: ':' !in p.ingress
    ensures var posts := Exec(s, actions).posts; var kept := Accepted(posts);
      && (forall j, k | 0 <= j < k < |kept| :: kept[j].ingress != kept[k].ingress || kept[j].session != kept[k].session)
      && (forall p | p in posts :: exists q | q in kept :: q.ingress == p.ingress && q.session == p.session)
  {
    hide IdempotencyKey, Exec, AllEnabled, Accepted;
    var posts := Exec(s, actions).posts;
    var kept := Accepted(posts);
    PostsKeyedOncePerClaim(s, actions);
    AcceptedDistinct(posts);
    forall j, k | 0 <= j < k < |kept| ensures kept[j].ingress != kept[k].ingress || kept[j].session != kept[k].session {
      assert kept[j] in kept && kept[k] in kept;
    }
    forall p | p in posts ensures exists q | q in kept :: q.ingress == p.ingress && q.session == p.session {
      AcceptedCovers(posts, p);
      var q :| q in kept && q.key == p.key;
      KeyInjective(p.ingress, p.session, q.ingress, q.session);
    }
  }

  /** The slow claim, then a retry taking it over. */
  lemma RetryTakesOver() returns (first: seq<Action>)
    ensures AllEnabled(EMPTY, first)
    ensures var s := Exec(EMPTY, first); var base := Receipt(Processing, PROTOCOL_VERSION, []);
      s == State(map["in-1" := base], map[0 := Claimed("in-1", base), 1 := Routing("in-1", base)], 2, [])
  {
    hide RunStep;
    var base := Receipt(Processing, PROTOCOL_VERSION, []);
    first := [];
    ExecAppend(EMPTY, first, Claim("in-1"));
    first := first + [Claim("in-1")];
    ExecAppend(EMPTY, first, BeginReclaim("in-1"));
    first := first + [BeginReclaim("in-1")];
    ExecAppend(EMPTY, first, FinishReclaim(1));
    first := first + [FinishReclaim(1)];
    assert Exec(EMPTY, first) == State(map["in-1" := base], map[0 := Claimed("in-1", base), 1 := Claimed("in-1", base)], 2, []);
    ExecAppend(EMPTY, first, TakeProcessLock(1));
    first := first + [TakeProcessLock(1)];
    assert Exec(EMPTY, first) == State(map["in-1" := base], map[0 := Claimed("in-1", base), 1 := Routing("in-1", base)], 2, []);
  }

  lemma RetryDelivers() returns (first: seq<Action>)
    ensures AllEnabled(EMPTY, first)
    ensures var s := Exec(EMPTY, first);
      && s.store.Keys == {"in-1"} && s.store["in-1"].status == AllDelivered
      && s.handlers == map[0 := Claimed("in-1", Receipt(Processing, PROTOCOL_VERSION, []))]
      && |s.posts| == 1 && s.posts[0].session == "fred"
  {
    hide IdempotencyKey, Exec, AllEnabled, RunStep;
    first := RetryTakesOver();
    first := SubmitAndPost(EMPTY, first, 1, ["fred"]);
    first := AnswerAndLeave(EMPTY, first, 1, "in-1", Exec(EMPTY, first).handlers[1].run);
  }

  /** Without the timing assumption the other guarantees fail: a claimant that was merely slow
      wakes up after a retry has delivered, resets the delivered receipt and posts again. When
      this can happen is said by IngressRetry.SettledCanPostAgain. */
  lemma SlowClaimantResends() returns (first: seq<Action>, second: seq<Action>)
    ensures AllEnabled(EMPTY, first) && AllEnabled(Exec(EMPTY, first), second)
    ensures var before := Exec(EMPTY, first); var after := Exec(before, second);
      && "in-1" in before.store && before.store["in-1"].status == AllDelivered && |before.posts| == 1
      && "in-1" in after.store && after.store["in-1"].status == PendingDelivery
      && |after.posts| == 2 && after.posts[1].session == after.posts[0].session
  {
    hide RunStep, IdempotencyKey, NewTargets;
    first := RetryDelivers();
    var before := Exec(EMPTY, first);
    assert !Locked(before, "in-1");
    ExecAppend(before, [], TakeProcessLock(0));
    second := [] + [TakeProcessLock(0)];
    second := SubmitAndPost(before, second, 0, ["fred"]);
  }
}
