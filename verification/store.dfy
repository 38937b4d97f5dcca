/**
 * The server's `talks` object: talks keyed by title, with the order of its own keys,
 * which is the order `Object.keys` lists them in.
 */
module Store {
  import opened Wrappers
  import opened Seqs
  import opened Json

  /** A comment is kept exactly as it was posted: the parsed JSON object. */
  type Comment = map<string, JsonValue>

  /** A posted comment whose `author` and `message` are strings. */
  predicate WellFormedComment(c: Comment) {
    && "author" in c && c["author"].JString?
    && "message" in c && c["message"].JString?
  }

  datatype Talk = Talk(title: string, presenter: string, summary: string, comments: seq<Comment>)

  datatype Talks = Talks(byTitle: map<string, Talk>, keys: seq<string>)

  /** Each own key listed once, in `keys`, and each talk stored under its own title. */
  ghost predicate Valid(t: Talks) {
    && Distinct(t.keys)
    && (forall k :: k in t.byTitle <==> k in t.keys)
    && (forall k :: k in t.byTitle ==> t.byTitle[k].title == k)
  }

  /** Every stored comment has a string author and message. */
  ghost predicate CommentsWellFormed(t: Talks) {
    forall k, c :: k in t.byTitle && c in t.byTitle[k].comments ==> WellFormedComment(c)
  }

  /** `Object.hasOwn(talks, title) ? talks[title] : undefined` */
  function Lookup(t: Talks, title: string): Option<Talk> {
    if title in t.byTitle then Some(t.byTitle[title]) else None
  }

  /** Every title other than `title` looks up the same talk in `t` and `u`. */
  ghost predicate OthersUntouched(t: Talks, u: Talks, title: string) {
    forall k :: k != title ==> Lookup(u, k) == Lookup(t, k)
  }

  const Empty: Talks := Talks(map[], [])

  /** `talks[title] = {title, presenter, summary, comments: []}` */
  function Put(t: Talks, title: string, presenter: string, summary: string): (r: Talks)
    requires Valid(t)
    ensures Valid(r)
    ensures Lookup(r, title) == Some(Talk(title, presenter, summary, []))
    ensures OthersUntouched(t, r, title)
    ensures CommentsWellFormed(t) ==> CommentsWellFormed(r)
  {
    var talk := Talk(title, presenter, summary, []);
    if title in t.byTitle then Talks(t.byTitle[title := talk], t.keys)
    else Talks(t.byTitle[title := talk], t.keys + [title])
  }

  /** `delete talks[title]` */
  function Delete(t: Talks, title: string): (r: Talks)
    requires Valid(t)
    ensures Valid(r)
    ensures Lookup(r, title) == None
    ensures OthersUntouched(t, r, title)
    ensures title !in t.byTitle ==> r == t
    ensures CommentsWellFormed(t) ==> CommentsWellFormed(r)
  {
    if title in t.byTitle then Talks(t.byTitle - {title}, Remove(t.keys, title)) else t
  }

  /** `talks[title].comments.push(comment)` on a talk that exists. */
  function AddComment(t: Talks, title: string, comment: Comment): (r: Talks)
    requires Valid(t) && title in t.byTitle
    ensures Valid(r)
    ensures Lookup(r, title) == Some(t.byTitle[title].(comments := t.byTitle[title].comments + [comment]))
    ensures OthersUntouched(t, r, title)
    ensures CommentsWellFormed(t) && WellFormedComment(comment) ==> CommentsWellFormed(r)
  {
    var talk := t.byTitle[title];
    Talks(t.byTitle[title := talk.(comments := talk.comments + [comment])], t.keys)
  }

  /**
   * `Object.keys(talks).map(title => talks[title])`: every stored talk exactly once
   * (the order is that of `keys`).
   */
  function Listing(t: Talks): (r: seq<Talk>)
    requires Valid(t)
    ensures |r| == |t.byTitle|
    ensures forall k :: k in t.byTitle ==> t.byTitle[k] in r
    ensures forall i :: 0 <= i < |r| ==> Lookup(t, r[i].title) == Some(r[i])
    ensures forall i, j :: 0 <= i < j < |r| ==> r[i].title != r[j].title
  {
    var r := seq(|t.keys|, i requires 0 <= i < |t.keys| => t.byTitle[t.keys[i]]);
    ListingFacts(t, r);
    r
  }

  lemma ListingFacts(t: Talks, r: seq<Talk>)
    requires Valid(t)
    requires |r| == |t.keys| && forall i :: 0 <= i < |r| ==> r[i] == t.byTitle[t.keys[i]]
    ensures |r| == |t.byTitle|
    ensures forall k :: k in t.byTitle ==> t.byTitle[k] in r
  {
    DistinctCardinality(t.keys);
    assert t.byTitle.Keys == set k | k in t.keys;
    forall k | k in t.byTitle ensures t.byTitle[k] in r {
      var i :| 0 <= i < |t.keys| && t.keys[i] == k;
      assert r[i] == t.byTitle[k];
    }
  }
}
