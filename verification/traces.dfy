/** Properties of whole runs: any sequence of requests and timer events from a valid state. */
module Traces {
  import opened Wrappers
  import opened Seqs
  import opened Headers
  import opened Http
  import Store
  import opened SkillShare
  import opened Dispatch
  import opened Answers
  import Routes
  import opened Json

  datatype Run = Run(last: Server, delivered: seq<Delivery>)

  /** The state after `events`, with every response delivered to a waiter on the way. */
  function RunEvents(s: Server, events: seq<Event>): (r: Run)
    requires Valid(s)
    ensures Valid(r.last)
    decreases |events|
  {
    if events == [] then Run(s, [])
    else
      var step := Step(s, events[0]);
      var rest := RunEvents(step.next, events[1..]);
      Run(rest.last, step.delivered + rest.delivered)
  }

  /** How many of `events` mutate the talks, each judged in the state it arrives in. */
  function MutationCount(s: Server, events: seq<Event>): nat
    requires Valid(s)
    decreases |events|
  {
    if events == [] then 0
    else (if Mutates(s, events[0]) then 1 else 0) + MutationCount(Step(s, events[0]).next, events[1..])
  }

  /** The version moves up by exactly one per mutation, and never otherwise. */
  lemma {:induction false} VersionCountsMutations(s: Server, events: seq<Event>)
    requires Valid(s)
    ensures RunEvents(s, events).last.version == s.version + MutationCount(s, events)
    decreases |events|
  {
    if events != [] {
      VersionCountsMutations(Step(s, events[0]).next, events[1..]);
    }
  }

  /** A run without mutations leaves the talks and the version where they were. */
  lemma {:induction false} QuietRunKeepsTalks(s: Server, events: seq<Event>)
    requires Valid(s)
    requires MutationCount(s, events) == 0
    ensures RunEvents(s, events).last.talks == s.talks
    ensures RunEvents(s, events).last.version == s.version
    decreases |events|
  {
    if events != [] {
      QuietRunKeepsTalks(Step(s, events[0]).next, events[1..]);
    }
  }

  lemma DeliveredIdsAppend(a: seq<Delivery>, b: seq<Delivery>)
    ensures DeliveredIds(a + b) == DeliveredIds(a) + DeliveredIds(b)
  {
  }

  /** Bookkeeping composes: two accounted stretches make one. */
  lemma AccountedCompose(s1: Server, s2: Server, s3: Server, a: seq<nat>, b: seq<nat>)
    requires Valid(s1) && Valid(s2)
    requires Accounted(s1, s2, a) && Accounted(s2, s3, b)
    ensures Accounted(s1, s3, a + b)
  {
    forall i, j | 0 <= i < j < |a + b| ensures (a + b)[i] != (a + b)[j] {
      if i < |a| && j >= |a| {
        var x, y := a[i], b[j - |a|];
        assert x in a && y in b;
        assert x !in s2.waiting && x < s2.nextWaiter;
      }
    }
  }

  /**
   * No waiter is resolved twice in a run, none is resolved and still waiting, and every waiter
   * pending at the start or registered during the run is either resolved or still waiting.
   */
  lemma {:induction false} WaitersResolvedAtMostOnce(s: Server, events: seq<Event>)
    requires Valid(s)
    ensures Accounted(s, RunEvents(s, events).last, DeliveredIds(RunEvents(s, events).delivered))
    decreases |events|
  {
    if events == [] {
      assert DeliveredIds([]) == [];
    } else {
      var step := Step(s, events[0]);
      var rest := RunEvents(step.next, events[1..]);
      WaitersResolvedAtMostOnce(step.next, events[1..]);
      AccountedCompose(s, step.next, rest.last, DeliveredIds(step.delivered), DeliveredIds(rest.delivered));
      DeliveredIdsAppend(step.delivered, rest.delivered);
    }
  }

  /** The response a waiter pending at version `v` can get: a 304, or the listing of version `v + 1`. */
  predicate AnswersWaiterAt(v: nat, response: Response) {
    || response == Written(NotModified)
    || (&& response.status == 200 && response.body.ListingJson?
        && "ETag" in response.headers && response.headers["ETag"] == Etag(v + 1))
  }

  /**
   * No change is lost: a request waiting in `s` is answered either by its timeout (304) or by the
   * first mutation after it, with the listing one version ahead of the tag it matched.
   */
  lemma {:induction false} WaiterSeesNextVersion(s: Server, events: seq<Event>, w: nat)
    requires Valid(s) && w in s.waiting
    ensures forall d :: d in RunEvents(s, events).delivered && d.waiter == w ==> AnswersWaiterAt(s.version, d.response)
    decreases |events|
  {
    if events != [] {
      var step := Step(s, events[0]);
      var rest := RunEvents(step.next, events[1..]);
      assert RunEvents(s, events).delivered == step.delivered + rest.delivered;
      forall d | d in step.delivered
        ensures AnswersWaiterAt(s.version, d.response)
      {
        var i :| 0 <= i < |step.delivered| && step.delivered[i] == d;
        if Mutates(s, events[0]) {
          assert d.response == Written(TalkResponse(step.next));
        }
      }
      if w in step.next.waiting {
        assert step.next.version == s.version;
        WaiterSeesNextVersion(step.next, events[1..], w);
      } else {
        WaitersResolvedAtMostOnce(step.next, events[1..]);
        assert w < step.next.nextWaiter;
        forall d | d in rest.delivered ensures d.waiter != w {
          var i :| 0 <= i < |rest.delivered| && rest.delivered[i] == d;
          assert DeliveredIds(rest.delivered)[i] == d.waiter;
        }
      }
    }
  }

  /** A client echoing the ETag of a listing, without asking to wait, is served 304 while nothing changed. */
  lemma EchoedEtagNotModified(s: Server, body: RequestBody)
    requires Valid(s)
    ensures var etag := TalkResponse(s).headers.value["ETag"];
      var r := Step(s, Arrive(Request("GET", "/talks", Some(etag), None, body)));
      r.served == Some(Write(Response(304, DefaultHeaders, NoBody))) && r.next == s
  {
    ListTalksAnswered(s, Some(TalkResponse(s).headers.value["ETag"]), None, body);
  }

  /** The same ETag, after any mutation, is served the new listing at once, whatever `Prefer` says. */
  lemma MutationInvalidatesEtag(s: Server, e: Event, prefer: Option<string>, body: RequestBody)
    requires Valid(s) && Mutates(s, e)
    ensures var t := Step(s, e).next;
      var etag := TalkResponse(s).headers.value["ETag"];
      var r := Step(t, Arrive(Request("GET", "/talks", Some(etag), prefer, body)));
      r.served == Some(Write(Written(TalkResponse(t)))) && r.served.value.response.status == 200
  {
    var t := Step(s, e).next;
    ListTalksAnswered(t, Some(TalkResponse(s).headers.value["ETag"]), prefer, body);
  }

  /** A talk put through the router is served back by a `GET` of its path with 200 and no comments. */
  lemma PutThenGetServed(s: Server, title: string, put: Request, get: Request)
    requires Valid(s) && Routes.IsSegment(title)
    requires put.verb == "PUT" && put.path == "/talks/" + title
    requires put.body.Parsed? && GoodTalkData(put.body.value)
    requires get.verb == "GET" && get.path == "/talks/" + title
    ensures var t := Step(s, Arrive(put)).next;
      var presenter := put.body.value.fields["presenter"].s;
      var summary := put.body.value.fields["summary"].s;
      Step(t, Arrive(get)).served ==
        Some(Write(Response(200, JsonHeaders, TalkJson(Store.Talk(title, presenter, summary, [])))))
  {
    PutTalkAnswered(s, title, put.ifNoneMatch, put.prefer, put.body);
    var t := Step(s, Arrive(put)).next;
    GetTalkAnswered(t, title, get.ifNoneMatch, get.prefer, get.body);
  }
}
