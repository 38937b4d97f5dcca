/**
 * The method/path table of the server, stated on whole steps: for each route, the response
 * `serveFromRouter` writes for an arriving request, or that it waits or falls through, and
 * what becomes of the state.
 */
module Answers {
  import opened Wrappers
  import opened Json
  import opened Headers
  import opened Http
  import Routes
  import Store
  import opened SkillShare
  import opened Dispatch

  /** What is written for an error with no status: 500, the default headers, `String(error)`. */
  function ServerError(description: string): Response {
    Response(500, DefaultHeaders, Text(description))
  }

  /** A request whose method and path match no route is passed on to `next`, touching nothing. */
  lemma UnroutedFallsThrough(s: Server, req: Request)
    requires Valid(s) && Routes.Resolve(req.verb, req.path).None?
    ensures Step(s, Arrive(req)) == StepResult(s, Some(Next), [])
  {
  }

  /** Only `GET`, `PUT`, `DELETE` and `POST` are routed; any other method falls through. */
  lemma OtherMethodFallsThrough(s: Server, req: Request)
    requires Valid(s)
    requires req.verb != "GET" && req.verb != "PUT" && req.verb != "DELETE" && req.verb != "POST"
    ensures Step(s, Arrive(req)) == StepResult(s, Some(Next), [])
  {
  }

  /** `GET /talks/{title}`: the stored talk as JSON with 200, or 404 naming the title. */
  lemma GetTalkAnswered(s: Server, title: string, ifNoneMatch: Option<string>, prefer: Option<string>, body: RequestBody)
    requires Valid(s) && Routes.IsSegment(title)
    ensures var r := Step(s, Arrive(Request("GET", "/talks/" + title, ifNoneMatch, prefer, body)));
      && r.next == s && r.delivered == []
      && (title in s.talks.byTitle ==>
            r.served == Some(Write(Response(200, JsonHeaders, TalkJson(s.talks.byTitle[title])))))
      && (title !in s.talks.byTitle ==>
            r.served == Some(Write(Response(404, DefaultHeaders, Text("No talk \"" + title + "\" found")))))
  {
    Routes.ResolveRoundTrip(Routes.GetTalk(title));
  }

  /** `DELETE /talks/{title}`: always 204; a stored talk is removed and the waiters get the listing. */
  lemma DeleteTalkAnswered(s: Server, title: string, ifNoneMatch: Option<string>, prefer: Option<string>, body: RequestBody)
    requires Valid(s) && Routes.IsSegment(title)
    ensures var r := Step(s, Arrive(Request("DELETE", "/talks/" + title, ifNoneMatch, prefer, body)));
      && r.served == Some(Write(Response(204, DefaultHeaders, NoBody)))
      && (title !in s.talks.byTitle ==> r.next == s && r.delivered == [])
      && (title in s.talks.byTitle ==>
            && Store.Lookup(r.next.talks, title) == None
            && r.next.version == s.version + 1
            && DeliveredIds(r.delivered) == s.waiting)
  {
    Routes.ResolveRoundTrip(Routes.DeleteTalk(title));
  }

  /** `PUT /talks/{title}`: 500 for a body that is not JSON, 400 for bad talk data, else 204 and stored. */
  lemma PutTalkAnswered(s: Server, title: string, ifNoneMatch: Option<string>, prefer: Option<string>, body: RequestBody)
    requires Valid(s) && Routes.IsSegment(title)
    ensures var r := Step(s, Arrive(Request("PUT", "/talks/" + title, ifNoneMatch, prefer, body)));
      && (body.Unparsable? ==>
            r.served == Some(Write(ServerError(body.description))) && r.next == s && r.delivered == [])
      && (body.Parsed? && !GoodTalkData(body.value) ==>
            && r.served == Some(Write(Response(400, DefaultHeaders, Text("Bad talk data"))))
            && r.next == s && r.delivered == [])
      && (body.Parsed? && GoodTalkData(body.value) ==>
            && r.served == Some(Write(Response(204, DefaultHeaders, NoBody)))
            && Store.Lookup(r.next.talks, title) ==
                 Some(Store.Talk(title, body.value.fields["presenter"].s, body.value.fields["summary"].s, []))
            && r.next.version == s.version + 1
            && DeliveredIds(r.delivered) == s.waiting)
  {
    Routes.ResolveRoundTrip(Routes.PutTalk(title));
  }

  /**
   * `POST /talks/{title}/comments`: 500 for a body that is not JSON, 400 for bad comment data,
   * 404 for an unknown talk, else 204 with the comment appended.
   */
  lemma PostCommentAnswered(s: Server, title: string, ifNoneMatch: Option<string>, prefer: Option<string>, body: RequestBody)
    requires Valid(s) && Routes.IsSegment(title)
    ensures var r := Step(s, Arrive(Request("POST", "/talks/" + title + "/comments", ifNoneMatch, prefer, body)));
      && (body.Unparsable? ==>
            r.served == Some(Write(ServerError(body.description))) && r.next == s && r.delivered == [])
      && (body.Parsed? && !GoodCommentData(body.value) ==>
            && r.served == Some(Write(Response(400, DefaultHeaders, Text("Bad comment data"))))
            && r.next == s && r.delivered == [])
      && (body.Parsed? && GoodCommentData(body.value) && title !in s.talks.byTitle ==>
            && r.served == Some(Write(Response(404, DefaultHeaders, Text("No talk \"" + title + "\" found"))))
            && r.next == s && r.delivered == [])
      && (body.Parsed? && GoodCommentData(body.value) && title in s.talks.byTitle ==>
            && r.served == Some(Write(Response(204, DefaultHeaders, NoBody)))
            && (var before := s.talks.byTitle[title];
                Store.Lookup(r.next.talks, title) == Some(before.(comments := before.comments + [body.value.fields])))
            && r.next.version == s.version + 1
            && DeliveredIds(r.delivered) == s.waiting)
  {
    Routes.ResolveRoundTrip(Routes.PostComment(title));
  }

  /**
   * `GET /talks`: the listing with 200 unless `If-None-Match` names the current version; then
   * 304 without `wait=`, or the request waits under a fresh waiter id for the requested seconds.
   */
  lemma ListTalksAnswered(s: Server, ifNoneMatch: Option<string>, prefer: Option<string>, body: RequestBody)
    requires Valid(s)
    ensures var r := Step(s, Arrive(Request("GET", "/talks", ifNoneMatch, prefer, body)));
      && r.delivered == []
      && (IfNoneMatchTag(ifNoneMatch) != Some(s.version) ==>
            r.served == Some(Write(Written(TalkResponse(s)))) && r.next == s)
      && (IfNoneMatchTag(ifNoneMatch) == Some(s.version) && PreferWait(prefer).None? ==>
            r.served == Some(Write(Response(304, DefaultHeaders, NoBody))) && r.next == s)
      && (IfNoneMatchTag(ifNoneMatch) == Some(s.version) && PreferWait(prefer).Some? ==>
            && r.served == Some(Pending(s.nextWaiter, PreferWait(prefer).value))
            && r.next.waiting == s.waiting + [s.nextWaiter]
            && r.next.talks == s.talks && r.next.version == s.version)
  {
    Routes.ResolveRoundTrip(Routes.ListTalks);
  }
}
