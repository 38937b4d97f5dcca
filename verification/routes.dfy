/**
 * The route table: `GET`, `DELETE` and `PUT` on `/^\/talks\/([^\/]+)$/`, `POST` on
 * `/^\/talks\/([^\/]+)\/comments$/`, and `GET` on `/^\/talks$/`. Patterns are anchored,
 * so a route matches the whole path; the captured title is one non-empty path segment.
 */
module Routes {
  import opened Wrappers

  datatype Route =
    | GetTalk(title: string)
    | DeleteTalk(title: string)
    | PutTalk(title: string)
    | PostComment(title: string)
    | ListTalks

  const TalksPath := "/talks"
  const TalkPrefix := "/talks/"
  const CommentsSuffix := "/comments"

  /** `[^\/]+` */
  predicate IsSegment(s: string) {
    s != [] && '/' !in s
  }

  function MethodOf(r: Route): string {
    match r
    case GetTalk(_) => "GET"
    case DeleteTalk(_) => "DELETE"
    case PutTalk(_) => "PUT"
    case PostComment(_) => "POST"
    case ListTalks => "GET"
  }

  /** The one path each route's pattern accepts for its title. */
  function PathOf(r: Route): string {
    match r
    case GetTalk(t) => TalkPrefix + t
    case DeleteTalk(t) => TalkPrefix + t
    case PutTalk(t) => TalkPrefix + t
    case PostComment(t) => TalkPrefix + t + CommentsSuffix
    case ListTalks => TalksPath
  }

  predicate WellFormedRoute(r: Route) {
    !r.ListTalks? ==> IsSegment(r.title)
  }

  /** The capture of `/^\/talks\/([^\/]+)$/`. */
  function TalkPathTitle(path: string): (r: Option<string>)
    ensures r.Some? <==> exists t :: IsSegment(t) && path == TalkPrefix + t
    ensures r.Some? ==> IsSegment(r.value) && path == TalkPrefix + r.value
  {
    if |path| > |TalkPrefix| && path[..|TalkPrefix|] == TalkPrefix && '/' !in path[|TalkPrefix|..] then
      assert path == TalkPrefix + path[|TalkPrefix|..];
      Some(path[|TalkPrefix|..])
    else
      assert forall t :: path == TalkPrefix + t ==> t == path[|TalkPrefix|..];
      None
  }

  /** The capture of `/^\/talks\/([^\/]+)\/comments$/`. */
  function CommentsPathTitle(path: string): (r: Option<string>)
    ensures r.Some? <==> exists t :: IsSegment(t) && path == TalkPrefix + t + CommentsSuffix
    ensures r.Some? ==> IsSegment(r.value) && path == TalkPrefix + r.value + CommentsSuffix
  {
    var n := |TalkPrefix| + |CommentsSuffix|;
    if |path| > n && path[..|TalkPrefix|] == TalkPrefix && path[|path| - |CommentsSuffix|..] == CommentsSuffix
      && '/' !in path[|TalkPrefix|..|path| - |CommentsSuffix|]
    then
      var t := path[|TalkPrefix|..|path| - |CommentsSuffix|];
      assert path == TalkPrefix + t + CommentsSuffix;
      Some(t)
    else
      assert forall t :: path == TalkPrefix + t + CommentsSuffix ==> t == path[|TalkPrefix|..|path| - |CommentsSuffix|];
      None
  }

  /** The first registered route whose method and pattern match, if any. */
  function Resolve(verb: string, path: string): (r: Option<Route>)
    ensures r.Some? ==> WellFormedRoute(r.value) && MethodOf(r.value) == verb && PathOf(r.value) == path
  {
    match TalkPathTitle(path)
    case Some(t) =>
      if verb == "GET" then Some(GetTalk(t))
      else if verb == "DELETE" then Some(DeleteTalk(t))
      else if verb == "PUT" then Some(PutTalk(t))
      else None
    case None =>
      match CommentsPathTitle(path)
      case Some(t) => if verb == "POST" then Some(PostComment(t)) else None
      case None => if verb == "GET" && path == TalksPath then Some(ListTalks) else None
  }

  /** Every well-formed route is found again from its own method and path. */
  lemma ResolveRoundTrip(r: Route)
    requires WellFormedRoute(r)
    ensures Resolve(MethodOf(r), PathOf(r)) == Some(r)
  {
    var path := PathOf(r);
    match r
    case PostComment(t) =>
      assert path[|TalkPrefix| + |t|] == '/';
      assert TalkPathTitle(path).None?;
    case ListTalks =>
      assert TalkPathTitle(path).None?;
      assert CommentsPathTitle(path).None?;
    case _ =>
  }
}
