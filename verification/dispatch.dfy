/**
 * One request or one timer at a time: the router picks a handler, the handler runs against
 * the server state, and `serveFromRouter` renders its reply. Waiters resolved along the way
 * receive their responses through the same rendering.
 */
module Dispatch {
  import opened Wrappers
  import opened Seqs
  import opened Json
  import opened Http
  import Routes
  import Store
  import opened SkillShare

  /** A request as the handlers see it; the body is read only by the handlers that read it. */
  datatype Request = Request(verb: string, path: string, ifNoneMatch: Option<string>, prefer: Option<string>, body: RequestBody)

  /** A request arriving, or the timer of a suspended request firing. */
  datatype Event = Arrive(request: Request) | TimerFires(waiter: nat)

  /** A suspended request receiving its response. */
  datatype Delivery = Delivery(waiter: nat, response: Response)

  datatype StepResult = StepResult(next: Server, served: Option<Served>, delivered: seq<Delivery>)

  /** The router's outcome: the next state, the handler's reply (none when no route matched), resolutions. */
  datatype Routed = Routed(next: Server, reply: Option<Reply>, resolved: seq<Resolution>)

  /** Each resolution written out to its waiter's connection, in order. */
  function Deliveries(rs: seq<Resolution>): seq<Delivery> {
    seq(|rs|, i requires 0 <= i < |rs| => Delivery(rs[i].waiter, Written(rs[i].result)))
  }

  /** The waiter ids of the deliveries, in order. */
  function DeliveredIds(ds: seq<Delivery>): seq<nat>
  {
    seq(|ds|, i requires 0 <= i < |ds| => ds[i].waiter)
  }

  /**
   * Waiter bookkeeping from `s` to `t` with `ids` resolved: no id resolved twice, none resolved
   * and still waiting, and every id pending in `s` or registered since is resolved or still waiting.
   */
  ghost predicate Accounted(s: Server, t: Server, ids: seq<nat>) {
    && Distinct(ids)
    && s.nextWaiter <= t.nextWaiter
    && (forall w :: w in ids ==> w !in t.waiting)
    && (forall w :: (w in s.waiting || s.nextWaiter <= w < t.nextWaiter) <==> (w in ids || w in t.waiting))
  }

  /** The requests that change the talks: a good PUT, a DELETE of a stored talk, a good comment on one. */
  predicate Mutates(s: Server, e: Event) {
    && e.Arrive?
    && var req := e.request;
       match Routes.Resolve(req.verb, req.path)
       case Some(PutTalk(_)) => req.body.Parsed? && GoodTalkData(req.body.value)
       case Some(DeleteTalk(title)) => title in s.talks.byTitle
       case Some(PostComment(title)) =>
         req.body.Parsed? && GoodCommentData(req.body.value) && title in s.talks.byTitle
       case _ => false
  }

  function Lift(h: Handled): Routed {
    Routed(h.next, Some(h.reply), h.resolved)
  }

  /** `router.resolve(request, server)` */
  function Route(s: Server, req: Request): (r: Routed)
    requires Valid(s)
    ensures Valid(r.next)
    ensures r.reply.None? <==> Routes.Resolve(req.verb, req.path).None?
  {
    match Routes.Resolve(req.verb, req.path)
    case None => Routed(s, None, [])
    case Some(GetTalk(title)) => Routed(s, Some(Returned(SkillShare.GetTalk(s, title))), [])
    case Some(DeleteTalk(title)) => Lift(SkillShare.DeleteTalk(s, title))
    case Some(PutTalk(title)) => Lift(SkillShare.PutTalk(s, title, req.body))
    case Some(PostComment(title)) => Lift(SkillShare.PostComment(s, title, req.body))
    case Some(ListTalks) => Lift(GetTalks(s, req.ifNoneMatch, req.prefer))
  }

  /** A request that does not mutate leaves the talks and the version alone and resolves nobody. */
  ghost predicate Quiet(s: Server, r: Routed) {
    && r.next.talks == s.talks && r.next.version == s.version && r.resolved == []
    && (r.next == s || (r.reply.Some? && r.reply.value.Suspended?
                       && r.reply.value.waiter == s.nextWaiter
                       && r.next.waiting == s.waiting + [s.nextWaiter]
                       && r.next.nextWaiter == s.nextWaiter + 1))
  }

  /** The routed request mutates exactly when `Mutates` says so, and then notifies every waiter. */
  lemma RouteEffect(s: Server, req: Request)
    requires Valid(s)
    ensures Mutates(s, Arrive(req)) ==> Notified(s, Route(s, req).next, Route(s, req).resolved)
    ensures !Mutates(s, Arrive(req)) ==> Quiet(s, Route(s, req))
  {
  }

  /** The deliveries go to the resolved waiters, in order, each with its resolution written out. */
  lemma DeliveredIdsOf(rs: seq<Resolution>)
    ensures DeliveredIds(Deliveries(rs)) == Ids(rs)
    ensures |Deliveries(rs)| == |rs|
    ensures forall i :: 0 <= i < |rs| ==> Deliveries(rs)[i].response == Written(rs[i].result)
  {
  }

  lemma NotifiedAccounted(s: Server, next: Server, rs: seq<Resolution>)
    requires Valid(s) && Notified(s, next, rs)
    ensures Accounted(s, next, Ids(rs))
  {
  }

  lemma QuietAccounted(s: Server, r: Routed)
    requires Valid(s) && Quiet(s, r)
    ensures Accounted(s, r.next, Ids(r.resolved))
  {
  }

  lemma ExpireAccounted(s: Server, w: nat)
    requires Valid(s)
    ensures Accounted(s, Expire(s, w).next, Ids(Expire(s, w).resolved))
  {
    var c := Expire(s, w);
    if w in s.waiting {
      assert Ids(c.resolved) == [w];
    } else {
      assert Ids(c.resolved) == [];
    }
  }

  /** One event: a request is routed and served, or a timer fires. */
  function Step(s: Server, e: Event): (r: StepResult)
    requires Valid(s)
    ensures Valid(r.next)
    ensures r.served.Some? <==> e.Arrive?
    ensures r.next.version == s.version + (if Mutates(s, e) then 1 else 0)
    ensures !Mutates(s, e) ==> r.next.talks == s.talks
    ensures Mutates(s, e) ==>
      && r.next.waiting == []
      && DeliveredIds(r.delivered) == s.waiting
      && forall i :: 0 <= i < |r.delivered| ==> r.delivered[i].response == Written(TalkResponse(r.next))
    ensures !Mutates(s, e) ==> forall i :: 0 <= i < |r.delivered| ==> r.delivered[i].response == Written(NotModified)
    ensures Accounted(s, r.next, DeliveredIds(r.delivered))
  {
    match e
    case Arrive(req) =>
      var routed := Route(s, req);
      RouteEffect(s, req);
      DeliveredIdsOf(routed.resolved);
      if Mutates(s, e) then
        NotifiedAccounted(s, routed.next, routed.resolved);
        StepResult(routed.next, Some(Serve(routed.reply)), Deliveries(routed.resolved))
      else
        QuietAccounted(s, routed);
        StepResult(routed.next, Some(Serve(routed.reply)), Deliveries(routed.resolved))
    case TimerFires(w) =>
      var c := Expire(s, w);
      ExpireAccounted(s, w);
      DeliveredIdsOf(c.resolved);
      StepResult(c.next, None, Deliveries(c.resolved))
  }
}
