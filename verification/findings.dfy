/**
 * `PUT /talks/__proto__` as the handler is written. `talks` is an ordinary object, so the
 * assignment `talks["__proto__"] = {...}` runs the inherited `__proto__` setter: it replaces the
 * object's prototype and creates no own property. The request still answers 204 and bumps the
 * version, but `Object.hasOwn` and `Object.keys` never see the talk.
 */
module ProtoTitle {
  import opened Wrappers
  import opened Json
  import opened Http
  import Store
  import opened SkillShare

  const ProtoKey := "__proto__"

  /** `talks[title] = talk`, as JavaScript performs it on an object whose prototype is `Object.prototype`. */
  function AssignAsWritten(t: Store.Talks, title: string, presenter: string, summary: string): (r: Store.Talks)
    requires Store.Valid(t)
    ensures Store.Valid(r)
    ensures title == ProtoKey && title !in t.byTitle ==> r == t
    ensures title != ProtoKey ==> r == Store.Put(t, title, presenter, summary)
    ensures Store.CommentsWellFormed(t) ==> Store.CommentsWellFormed(r)
  {
    if title == ProtoKey && title !in t.byTitle then t else Store.Put(t, title, presenter, summary)
  }

  /** The `PUT` handler as written, with the assignment above. */
  function PutTalkAsWritten(s: Server, title: string, body: RequestBody): (r: Handled)
    requires Valid(s)
    ensures Valid(r.next)
    ensures title != ProtoKey ==> r == PutTalk(s, title, body)
  {
    match body
    case Unparsable(d) => Handled(s, Threw(ParseFailure(d)), [])
    case Parsed(talk) =>
      if !GoodTalkData(talk) then
        Handled(s, Returned(BadRequest("Bad talk data")), [])
      else
        var presenter := StringProperty(talk, "presenter").value;
        var summary := StringProperty(talk, "summary").value;
        var c := Updated(s.(talks := AssignAsWritten(s.talks, title, presenter, summary)));
        Handled(c.next, Returned(NoContent), c.resolved)
  }

  /** The lost talk: the `PUT` reports success and bumps the version, yet `GET` answers 404. */
  lemma ProtoTitleIsLost(s: Server, body: RequestBody)
    requires Valid(s) && ProtoKey !in s.talks.byTitle
    requires body.Parsed? && GoodTalkData(body.value)
    ensures var r := PutTalkAsWritten(s, ProtoKey, body);
      && Serve(Some(r.reply)) == Write(Response(204, DefaultHeaders, NoBody))
      && r.next.version == s.version + 1
      && Written(GetTalk(r.next, ProtoKey)).status == 404
      && r.next.talks == s.talks
  {
  }

  /** A concrete instance: the first talk ever put under the title `__proto__`. */
  lemma ProtoTitleExample()
    ensures var body := Parsed(JObject(map["presenter" := JString("A"), "summary" := JString("B")]));
      var s := Initial(Store.Empty);
      && PutTalkAsWritten(s, ProtoKey, body).reply == Returned(NoContent)
      && Written(GetTalk(PutTalkAsWritten(s, ProtoKey, body).next, ProtoKey)).status == 404
      && Written(GetTalk(PutTalk(s, ProtoKey, body).next, ProtoKey)).status == 200
  {
  }
}
