/**
 * The skill-sharing server as a sequential state machine: the talks object, the `version`
 * counter, and the `waiting` list of pending long-poll requests, each named by a waiter id.
 * Every transition returns the next state, the handler's reply, and the waiters it resolved.
 */
module SkillShare {
  import opened Wrappers
  import opened Seqs
  import opened Json
  import opened Headers
  import Store
  import opened Http
  import Routes

  type Talks = Store.Talks

  /** `nextWaiter` is the id the next suspended request will get. */
  datatype Server = Server(talks: Talks, version: nat, waiting: seq<nat>, nextWaiter: nat)

  ghost predicate Valid(s: Server) {
    && Store.Valid(s.talks)
    && Store.CommentsWellFormed(s.talks)
    && Distinct(s.waiting)
    && (forall w :: w in s.waiting ==> w < s.nextWaiter)
  }

  /** `new SkillShareServer(talks)` */
  function Initial(talks: Talks): (s: Server)
    ensures s.version == 0 && s.waiting == [] && s.talks == talks
    ensures Store.Valid(talks) && Store.CommentsWellFormed(talks) ==> Valid(s)
  {
    Server(talks, 0, [], 0)
  }

  /** A waiter's promise resolving with a handler result. */
  datatype Resolution = Resolution(waiter: nat, result: HandlerResult)

  /** A state change together with the waiters it resolved. */
  datatype Change = Change(next: Server, resolved: seq<Resolution>)

  /** A handler's run: the next state, its reply, and the waiters it resolved. */
  datatype Handled = Handled(next: Server, reply: Reply, resolved: seq<Resolution>)

  /** The waiter ids of the resolutions, in order. */
  function Ids(rs: seq<Resolution>): seq<nat> {
    seq(|rs|, i requires 0 <= i < |rs| => rs[i].waiter)
  }

  const NoContent := HandlerResult(Some(204), NoBody, None)
  const NotModified := HandlerResult(Some(304), NoBody, None)
  const JsonHeaders: HeaderMap := map["Content-Type" := "application/json"]

  function BadRequest(message: string): HandlerResult {
    HandlerResult(Some(400), Text(message), None)
  }

  /** `{status: 404, body: `No talk "${title}" found`}` */
  function TalkNotFound(title: string): HandlerResult {
    HandlerResult(Some(404), Text("No talk \"" + title + "\" found"), None)
  }

  /** What `readJSON` throws on a body that is not JSON: an error without a status. */
  function ParseFailure(description: string): Thrown {
    Thrown(None, NoBody, None, description)
  }

  /** The headers of a full listing at `version`. */
  function ListingHeaders(version: nat): HeaderMap {
    map["Content-Type" := "application/json", "ETag" := Etag(version), "Cache-Control" := "no-store"]
  }

  /** `talkResponse`: every talk, tagged with the current version and marked uncacheable. */
  function TalkResponse(s: Server): (r: HandlerResult)
    requires Store.Valid(s.talks)
    ensures Written(r).status == 200
    ensures r.body.ListingJson? && |r.body.talks| == |s.talks.byTitle|
    ensures forall k :: k in s.talks.byTitle ==> s.talks.byTitle[k] in r.body.talks
    ensures forall t :: t in r.body.talks ==> Store.Lookup(s.talks, t.title) == Some(t)
    ensures r.headers.Some? && "ETag" in r.headers.value
    ensures IfNoneMatchTag(Some(r.headers.value["ETag"])) == Some(s.version)
    ensures "Cache-Control" in r.headers.value && r.headers.value["Cache-Control"] == "no-store"
    ensures "Content-Type" in r.headers.value && r.headers.value["Content-Type"] == "application/json"
  {
    EtagRoundTrip(s.version);
    HandlerResult(None, ListingJson(Store.Listing(s.talks)), Some(ListingHeaders(s.version)))
  }

  /** Nothing changed and nobody was resolved. */
  ghost predicate Unchanged(s: Server, next: Server, resolved: seq<Resolution>) {
    next == s && resolved == []
  }

  /**
   * What `updated` promises: the version moved up by one, every waiter pending in `s`
   * got the listing of the new state once, and none is left waiting.
   */
  ghost predicate Notified(s: Server, next: Server, resolved: seq<Resolution>) {
    && Store.Valid(next.talks)
    && next.version == s.version + 1
    && next.waiting == []
    && next.nextWaiter == s.nextWaiter
    && Ids(resolved) == s.waiting
    && forall i :: 0 <= i < |resolved| ==> resolved[i].result == TalkResponse(next)
  }

  /** `updated`, without the file write. */
  function Updated(s: Server): (r: Change)
    requires Valid(s)
    ensures Valid(r.next)
    ensures r.next.talks == s.talks
    ensures Notified(s, r.next, r.resolved)
  {
    var next := s.(version := s.version + 1, waiting := []);
    var response := TalkResponse(next);
    Change(next, seq(|s.waiting|, i requires 0 <= i < |s.waiting| => Resolution(s.waiting[i], response)))
  }

  /** `GET /talks/{title}` */
  function GetTalk(s: Server, title: string): (r: HandlerResult)
    ensures title in s.talks.byTitle ==>
      Written(r) == Response(200, JsonHeaders, TalkJson(s.talks.byTitle[title]))
    ensures title !in s.talks.byTitle ==> Written(r).status == 404
  {
    match Store.Lookup(s.talks, title)
    case Some(talk) => HandlerResult(None, TalkJson(talk), Some(JsonHeaders))
    case None => TalkNotFound(title)
  }

  /** `DELETE /talks/{title}` */
  function DeleteTalk(s: Server, title: string): (r: Handled)
    requires Valid(s)
    ensures Valid(r.next)
    ensures r.reply == Returned(NoContent)
    ensures title !in s.talks.byTitle ==> Unchanged(s, r.next, r.resolved)
    ensures title in s.talks.byTitle ==>
      && Store.Lookup(r.next.talks, title) == None
      && Store.OthersUntouched(s.talks, r.next.talks, title)
      && Notified(s, r.next, r.resolved)
  {
    if title in s.talks.byTitle then
      var c := Updated(s.(talks := Store.Delete(s.talks, title)));
      Handled(c.next, Returned(NoContent), c.resolved)
    else
      Handled(s, Returned(NoContent), [])
  }

  /** The check of the `PUT` handler: a truthy body whose presenter and summary are strings. */
  predicate GoodTalkData(v: JsonValue) {
    Truthy(v) && StringProperty(v, "presenter").Some? && StringProperty(v, "summary").Some?
  }

  /** `PUT /talks/{title}` */
  function PutTalk(s: Server, title: string, body: RequestBody): (r: Handled)
    requires Valid(s)
    ensures Valid(r.next)
    ensures body.Unparsable? ==>
      Unchanged(s, r.next, r.resolved) && r.reply == Threw(ParseFailure(body.description))
    ensures body.Parsed? && !GoodTalkData(body.value) ==>
      Unchanged(s, r.next, r.resolved) && r.reply == Returned(BadRequest("Bad talk data"))
    ensures body.Parsed? && GoodTalkData(body.value) ==>
      && r.reply == Returned(NoContent)
      && Store.Lookup(r.next.talks, title) ==
           Some(Store.Talk(title, body.value.fields["presenter"].s, body.value.fields["summary"].s, []))
      && Store.OthersUntouched(s.talks, r.next.talks, title)
      && Notified(s, r.next, r.resolved)
  {
    match body
    case Unparsable(d) => Handled(s, Threw(ParseFailure(d)), [])
    case Parsed(talk) =>
      if !GoodTalkData(talk) then
        Handled(s, Returned(BadRequest("Bad talk data")), [])
      else
        var presenter := StringProperty(talk, "presenter").value;
        var summary := StringProperty(talk, "summary").value;
        var c := Updated(s.(talks := Store.Put(s.talks, title, presenter, summary)));
        Handled(c.next, Returned(NoContent), c.resolved)
  }

  /** The check of the comment handler: a truthy body whose author and message are strings. */
  predicate GoodCommentData(v: JsonValue) {
    Truthy(v) && StringProperty(v, "author").Some? && StringProperty(v, "message").Some?
  }

  /** `POST /talks/{title}/comments`: the body is checked before the talk is looked up. */
  function PostComment(s: Server, title: string, body: RequestBody): (r: Handled)
    requires Valid(s)
    ensures Valid(r.next)
    ensures body.Unparsable? ==>
      Unchanged(s, r.next, r.resolved) && r.reply == Threw(ParseFailure(body.description))
    ensures body.Parsed? && !GoodCommentData(body.value) ==>
      Unchanged(s, r.next, r.resolved) && r.reply == Returned(BadRequest("Bad comment data"))
    ensures body.Parsed? && GoodCommentData(body.value) && title !in s.talks.byTitle ==>
      Unchanged(s, r.next, r.resolved) && r.reply == Returned(TalkNotFound(title))
    ensures body.Parsed? && GoodCommentData(body.value) && title in s.talks.byTitle ==>
      && r.reply == Returned(NoContent)
      && (var before := s.talks.byTitle[title];
          Store.Lookup(r.next.talks, title) == Some(before.(comments := before.comments + [body.value.fields])))
      && Store.OthersUntouched(s.talks, r.next.talks, title)
      && Notified(s, r.next, r.resolved)
  {
    match body
    case Unparsable(d) => Handled(s, Threw(ParseFailure(d)), [])
    case Parsed(comment) =>
      if !GoodCommentData(comment) then
        Handled(s, Returned(BadRequest("Bad comment data")), [])
      else if title in s.talks.byTitle then
        var c := Updated(s.(talks := Store.AddComment(s.talks, title, comment.fields)));
        Handled(c.next, Returned(NoContent), c.resolved)
      else
        Handled(s, Returned(TalkNotFound(title)), [])
  }

  /** `waitForChanges`: the request's waiter joins the end of `waiting` under a fresh id. */
  function WaitForChanges(s: Server): (r: (Server, nat))
    requires Valid(s)
    ensures Valid(r.0)
    ensures r.1 !in s.waiting
    ensures r.0.waiting == s.waiting + [r.1]
    ensures r.1 == s.nextWaiter && r.0.nextWaiter == s.nextWaiter + 1
    ensures r.0.talks == s.talks && r.0.version == s.version
  {
    DistinctAppend(s.waiting, s.nextWaiter);
    (s.(waiting := s.waiting + [s.nextWaiter], nextWaiter := s.nextWaiter + 1), s.nextWaiter)
  }

  /** `GET /talks`: the listing, a 304, or a suspended request, decided by the two headers. */
  function GetTalks(s: Server, ifNoneMatch: Option<string>, prefer: Option<string>): (r: Handled)
    requires Valid(s)
    ensures Valid(r.next)
    ensures r.resolved == []
    ensures r.next.talks == s.talks && r.next.version == s.version
    ensures IfNoneMatchTag(ifNoneMatch) != Some(s.version) ==>
      r.next == s && r.reply == Returned(TalkResponse(s))
    ensures IfNoneMatchTag(ifNoneMatch) == Some(s.version) && PreferWait(prefer).None? ==>
      r.next == s && r.reply == Returned(NotModified)
    ensures IfNoneMatchTag(ifNoneMatch) == Some(s.version) && PreferWait(prefer).Some? ==>
      && r.reply.Suspended? && r.reply.seconds == PreferWait(prefer).value
      && r.reply.waiter !in s.waiting
      && r.next.waiting == s.waiting + [r.reply.waiter]
      && r.reply.waiter == s.nextWaiter && r.next.nextWaiter == s.nextWaiter + 1
  {
    var tag := IfNoneMatchTag(ifNoneMatch);
    var wait := PreferWait(prefer);
    if tag.None? || tag.value != s.version then
      Handled(s, Returned(TalkResponse(s)), [])
    else if wait.None? then
      Handled(s, Returned(NotModified), [])
    else
      var (next, w) := WaitForChanges(s);
      Handled(next, Suspended(w, wait.value), [])
  }

  /**
   * The timer of `waitForChanges` firing for waiter `w`: a waiter still pending is removed and
   * answered with 304; one already answered by `updated` is left alone.
   */
  function Expire(s: Server, w: nat): (r: Change)
    requires Valid(s)
    ensures Valid(r.next)
    ensures w !in s.waiting ==> Unchanged(s, r.next, r.resolved)
    ensures w in s.waiting ==>
      && r.resolved == [Resolution(w, NotModified)]
      && r.next.talks == s.talks && r.next.version == s.version && r.next.nextWaiter == s.nextWaiter
      && forall x :: x in r.next.waiting <==> x in s.waiting && x != w
  {
    if w !in s.waiting then Change(s, [])
    else Change(s.(waiting := Remove(s.waiting, w)), [Resolution(w, NotModified)])
  }

  /** A stored talk is served back as it was put: title, presenter, summary, and no comments. */
  lemma PutThenGet(s: Server, title: string, body: RequestBody)
    requires Valid(s) && body.Parsed? && GoodTalkData(body.value)
    ensures var presenter := body.value.fields["presenter"].s;
      var summary := body.value.fields["summary"].s;
      Written(GetTalk(PutTalk(s, title, body).next, title))
        == Response(200, JsonHeaders, TalkJson(Store.Talk(title, presenter, summary, [])))
  {
  }
}
