# Skill-sharing server: talk store and long-poll notification, in Dafny

This project models the core of the skill-sharing website's server
(`03-project-skill-sharing-website/skillsharing_server.js`). It covers:

- the talk store, a JavaScript object mapping titles to talks;
- the `version` counter;
- the `waiting` list of suspended `GET /talks` requests;
- the route handlers that read and change the store;
- `updated()`, which bumps the version and answers every waiting request;
- the timeout that answers a still-waiting request with 304;
- `serveFromRouter`, which turns a handler's result or exception into a status, headers and body, or falls through.

The server is a sequential state machine. An event is either a request arriving or the timer
of a suspended request firing. Each transition is a pure function returning three things: the
next state, the reply, and the waiters it resolved. Waiters are named by unique ids, standing in
for the source's resolver closures. Bodies are kept as values, not as `JSON.stringify` bytes:
the talk, the listing, or a text.

Modules, one per component:

- `Wrappers`: `Option`, which stands for `undefined`.
- `Seqs`: duplicate-free sequences, and `Remove`, which is `Array.prototype.filter` dropping one value.
- `Json`: parsed request bodies, JavaScript truthiness, and the `typeof x === "string"` property test.
- `Decimal`: writing a version in decimal, and reading digits back.
- `Headers`: the `If-None-Match` regex `/"(.*)"/` with `Number`, the `Prefer` regex `/\bwait=(\d+)/`, and the `ETag` value.
- `Store`: the `talks` object, with put, delete, comment append and listing.
- `Http`: handler results, thrown errors, and the normalisation in `serveFromRouter`.
- `Routes`: the route table built from the handlers' path patterns.
- `SkillShare`: the server state, the handlers, `talkResponse`, `updated`, `waitForChanges` and the timeout.
- `Dispatch`: one event, meaning routing, handling and serving, or a timer firing.
- `Answers`: the method, path and status table, stated on whole steps: what each request is written.
- `Traces`: properties of whole runs of events.
- `ProtoTitle`: the `__proto__` title as the code handles it (see Findings).

Some behaviours of the code that the model keeps as they are:

- A body that is not JSON, including an empty body, makes `readJSON` throw. The error has no
  `status`, so the answer is 500 with `String(error)`. A 400 comes only from a parsed body that
  is falsy or whose fields are not strings.
- Empty strings pass the presenter, summary, author and message checks. Only `typeof` is tested.
- `updated()` does not cancel a waiter's timer. When the timer fires it checks that its waiter is
  still in `waiting`, so for a waiter that `updated()` already answered it does nothing.
- A posted comment is stored whole, as the parsed object, including any extra fields.
- Node joins repeated `If-None-Match` or `Prefer` headers into one string separated by `, `. Each
  header is therefore one optional string, and the regexes run over the joined text.

## Model

| member | source | states |
|---|---|---|
| `Store.Put` | 03-project-skill-sharing-website/skillsharing_server.js:84-89 | the title then looks up `{title, presenter, summary, comments: []}`, so a replaced talk loses its comments; every other title looks up what it did before; the store stays well formed |
| `Store.Delete` | 03-project-skill-sharing-website/skillsharing_server.js:66-67 | the title no longer looks up a talk; every other title is untouched; deleting an absent title changes nothing |
| `Store.AddComment` | 03-project-skill-sharing-website/skillsharing_server.js:107-108 | the talk's comments become the old comments followed by exactly the posted one; its other fields and all other talks are untouched; well-formed comments stay well formed |
| `Store.Listing` | 03-project-skill-sharing-website/skillsharing_server.js:119 | the listing has one entry per stored title; every stored talk appears; every entry is the talk stored under its title; no title appears twice |
| `Seqs.Remove` | 03-project-skill-sharing-website/skillsharing_server.js:149 | the filtered list holds every other element with its multiplicity and no occurrence of the removed one; it stays duplicate-free; it is unchanged when the value is absent |
| `Seqs.RemoveKeepsOrder` | 03-project-skill-sharing-website/skillsharing_server.js:149 | filtering a concatenation filters each part in place, and a single element is kept or dropped, so the kept elements stay in their original order |
| `Decimal.DecimalString` | 03-project-skill-sharing-website/skillsharing_server.js:125 | a version is written as a non-empty run of decimal digits with no leading zero (0 is the single digit `0`) |
| `Decimal.DecimalRoundTrip` | 03-project-skill-sharing-website/skillsharing_server.js:125 | reading back the digits written for a version gives that version |
| `Headers.QuotedText` | 03-project-skill-sharing-website/skillsharing_server.js:132 | a capture is the text between a first double quote, with none before it, and a last one, with none after it; there is no capture when no two double quotes exist |
| `Headers.EtagRoundTrip` | 03-project-skill-sharing-website/skillsharing_server.js:125-135 | the `ETag` written for a version, sent back as `If-None-Match`, is read as that same version |
| `Headers.LeadingDigits` | 03-project-skill-sharing-website/skillsharing_server.js:133 | the greedy `(\d+)` capture after `wait=`: the result is all digits, a prefix of the text, and is followed by no digit, so it is the longest run of digits at the start |
| `Headers.FirstWaitMatch` | 03-project-skill-sharing-website/skillsharing_server.js:133 | the position found is where `\bwait=\d` matches, and no earlier position matches; when nothing is found, no position matches |
| `Headers.WaitRoundTrip` | 03-project-skill-sharing-website/skillsharing_server.js:133 | `Prefer: wait=<n>` is read as a wait of exactly `n` seconds |
| `Http.Written` | 03-project-skill-sharing-website/skillsharing_server.js:46 | an absent status becomes 200 and absent headers become `Content-Type: text/plain`; a present status, headers and body are kept |
| `Http.Recover` | 03-project-skill-sharing-website/skillsharing_server.js:39-42 | an error carrying a status is used as the result; any other error is served as 500 with its description as body and default headers |
| `Http.Serve` | 03-project-skill-sharing-website/skillsharing_server.js:38-50 | falls through to `next` exactly when no route matched; stays pending exactly when the handler suspended; otherwise writes the normalised result or error |
| `Http.ThrownWithStatusServedAsResult` | 03-project-skill-sharing-website/skillsharing_server.js:39-46 | an error with a status is served exactly like a returned result with the same status, body and headers |
| `Routes.TalkPathTitle` | 03-project-skill-sharing-website/skillsharing_server.js:52 | the path matches exactly when it is `/talks/` followed by one non-empty segment without `/`, and the capture is that segment |
| `Routes.CommentsPathTitle` | 03-project-skill-sharing-website/skillsharing_server.js:95-97 | the path matches exactly when it is `/talks/<segment>/comments`, and the capture is the segment |
| `Routes.Resolve` | 03-project-skill-sharing-website/skillsharing_server.js:52-131 | a chosen route has the request's method, its pattern spans the whole path, and its title is one segment |
| `Routes.ResolveRoundTrip` | 03-project-skill-sharing-website/skillsharing_server.js:52-131 | every route with a one-segment title is chosen for its own method and path |
| `SkillShare.Initial` | 03-project-skill-sharing-website/skillsharing_server.js:13-16 | a new server starts at version 0 with nobody waiting, and is well formed when the loaded talks are |
| `SkillShare.TalkResponse` | 03-project-skill-sharing-website/skillsharing_server.js:118-129 | the listing is served with status 200 and holds each stored talk once; its `ETag` reads back as the current version; it is marked `no-store` and `application/json` |
| `SkillShare.Updated` | 03-project-skill-sharing-website/skillsharing_server.js:157-161 | the version goes up by exactly one; every waiter pending at that moment, and no other, gets the listing of the new state; `waiting` is left empty; the talks are untouched |
| `SkillShare.GetTalk` | 03-project-skill-sharing-website/skillsharing_server.js:54-63 | a present title is served as 200 with the stored talk as JSON; an absent title gets 404 |
| `SkillShare.DeleteTalk` | 03-project-skill-sharing-website/skillsharing_server.js:65-71 | the answer is always 204; an absent title changes nothing and resolves nobody; a present title is removed alone, and the waiters are notified at version + 1 |
| `SkillShare.PutTalk` | 03-project-skill-sharing-website/skillsharing_server.js:73-93 | an unparsable body is a thrown error without a status, and changes nothing; a falsy body or non-string presenter or summary gets 400 "Bad talk data" and changes nothing; otherwise the talk is stored with no comments, other talks are untouched, the waiters are notified at version + 1, and the answer is 204 |
| `SkillShare.PostComment` | 03-project-skill-sharing-website/skillsharing_server.js:95-116 | the body is checked before the title: a bad comment gets 400 even for an unknown title; a good comment on an absent talk gets 404 and changes nothing; otherwise exactly the posted comment is appended last, other talks are untouched, the waiters are notified, and the answer is 204 |
| `SkillShare.WaitForChanges` | 03-project-skill-sharing-website/skillsharing_server.js:144-146 | the new waiter gets an id nobody is waiting under and joins the end of `waiting`; the talks and version are untouched |
| `SkillShare.GetTalks` | 03-project-skill-sharing-website/skillsharing_server.js:131-142 | never changes the talks or the version, and resolves nobody; without a tag naming the current version, the listing is returned at once; with one and no `wait=`, 304; with both, the request suspends under a fresh waiter for the requested seconds |
| `SkillShare.Expire` | 03-project-skill-sharing-website/skillsharing_server.js:147-151 | a waiter still pending is answered with 304 and removed, and every other waiter stays; a waiter no longer pending makes the timeout do nothing |
| `SkillShare.PutThenGet` | 03-project-skill-sharing-website/skillsharing_server.js:54-93 | after a good PUT, a GET of the same title returns `{title, presenter, summary, comments: []}` with status 200 |
| `Dispatch.Route` | 03-project-skill-sharing-website/skillsharing_server.js:39 | the router answers nothing exactly when no route matches the method and path; the state stays well formed |
| `Dispatch.RouteEffect` | 03-project-skill-sharing-website/skillsharing_server.js:65-114 | a good PUT, a DELETE of a stored title, or a good comment on a stored talk notifies every waiter at version + 1; any other request leaves the talks and version alone, resolves nobody, and at most registers one new waiter |
| `Dispatch.Step` | 03-project-skill-sharing-website/skillsharing_server.js:38-50 | one event raises the version by one exactly when it mutates; a mutation delivers the new listing to every pending waiter; any other delivery is a 304; no waiter is resolved twice or lost (the response written for the arriving request is stated route by route by the `Answers` lemmas) |
| `Answers.UnroutedFallsThrough` | 03-project-skill-sharing-website/skillsharing_server.js:44 | a request no route matches is passed to `next`: nothing is written, the state is unchanged and no waiter is resolved |
| `Answers.OtherMethodFallsThrough` | 03-project-skill-sharing-website/skillsharing_server.js:44-54 | a method other than GET, PUT, DELETE and POST always falls through to `next`, whatever the path |
| `Answers.GetTalkAnswered` | 03-project-skill-sharing-website/skillsharing_server.js:54-62 | `GET /talks/<title>` is written 200 with JSON headers and the stored talk, or 404 with the default headers and `No talk "<title>" found`; nothing changes |
| `Answers.DeleteTalkAnswered` | 03-project-skill-sharing-website/skillsharing_server.js:65-71 | `DELETE /talks/<title>` is always written 204 with no body; a stored talk is gone afterwards, the version goes up by one and every pending waiter is delivered to; an absent title changes nothing |
| `Answers.PutTalkAnswered` | 03-project-skill-sharing-website/skillsharing_server.js:73-93 | `PUT /talks/<title>` is written 500 with the error text for a body that is not JSON, 400 `Bad talk data` for a bad body (state unchanged), else 204 with the talk stored without comments, the version up by one and every pending waiter delivered to |
| `Answers.PostCommentAnswered` | 03-project-skill-sharing-website/skillsharing_server.js:95-116 | `POST /talks/<title>/comments` is written 500, 400 `Bad comment data` or 404 `No talk "<title>" found` with the state unchanged, else 204 with the comment appended to that talk, the version up by one and every pending waiter delivered to |
| `Answers.ListTalksAnswered` | 03-project-skill-sharing-website/skillsharing_server.js:131-142 | `GET /talks` is written the listing with 200 unless `If-None-Match` names the current version; then 304 without `wait=`, or it waits under the next waiter id for the requested seconds, joining the end of `waiting` |
| `Traces.RunEvents` | 03-project-skill-sharing-website/skillsharing_server.js:38-50 | any run of requests and timer events from a well-formed server keeps it well formed |
| `Traces.VersionCountsMutations` | 03-project-skill-sharing-website/skillsharing_server.js:157-158 | after any run, the version equals the starting version plus the number of mutating requests |
| `Traces.QuietRunKeepsTalks` | 03-project-skill-sharing-website/skillsharing_server.js:131-153 | a run without mutating requests leaves the talks and the version as they were |
| `Traces.WaitersResolvedAtMostOnce` | 03-project-skill-sharing-website/skillsharing_server.js:144-161 | over any run, no waiter is resolved twice, no resolved waiter is still waiting, and every waiter pending at the start or registered during the run is resolved or still waiting |
| `Traces.WaiterSeesNextVersion` | 03-project-skill-sharing-website/skillsharing_server.js:135-161 | a request waiting at version v is answered either with 304 or with the listing tagged v + 1, so no change made while it waits is missed |
| `Traces.EchoedEtagNotModified` | 03-project-skill-sharing-website/skillsharing_server.js:125-138 | a `GET /talks` sending back the listing's `ETag`, without `wait=`, is written 304 with no body while nothing has changed |
| `Traces.MutationInvalidatesEtag` | 03-project-skill-sharing-website/skillsharing_server.js:125-136 | after any mutation, a `GET /talks` with the old `ETag` is written the new listing with 200 at once, with or without `wait=` |
| `Traces.PutThenGetServed` | 03-project-skill-sharing-website/skillsharing_server.js:54-93 | a good `PUT /talks/<title>` through the router, then `GET /talks/<title>`, is written 200 with `{title, presenter, summary, comments: []}` |
| `ProtoTitle.AssignAsWritten` | 03-project-skill-sharing-website/skillsharing_server.js:84-89 | assigning under `__proto__`, when no own key of that name exists, leaves the own keys unchanged; any other title is stored as `Store.Put` stores it |
| `ProtoTitle.PutTalkAsWritten` | 03-project-skill-sharing-website/skillsharing_server.js:73-93 | the handler as written agrees with `SkillShare.PutTalk` on every title except `__proto__` |
| `ProtoTitle.ProtoTitleIsLost` | 03-project-skill-sharing-website/skillsharing_server.js:84-91 | a good PUT of `__proto__` answers 204 and bumps the version, yet leaves the talks unchanged, so a GET of that title answers 404 |
| `ProtoTitle.ProtoTitleExample` | 03-project-skill-sharing-website/skillsharing_server.js:54-93 | on a fresh server, the code as written answers 404 to GET after a PUT of `__proto__`, while the corrected handler answers 200 |

## Left out

- Server start-up and HTTP plumbing are not modelled: `createServer`, `listen`, `close`, `serveStatic` and `notFound`. Falling through to them is the `Next` outcome.
- Reading the request stream is not modelled. `readJSON` is replaced by its outcome: a parsed JSON value, or the description of the error it throws.
- Saving to and loading from `talks.json`, and the console messages, are not modelled. They are fire-and-forget I/O that does not change any response. The loaded talks are assumed to have the shape this server writes.
- Real time is not modelled: `setTimeout` and the promise machinery. A timer is an explicit `TimerFires(waiter)` event. The requested seconds travel with the suspended reply, but nothing forces the timer to fire.
- `router.js` is not part of this model. The route table comes from the handlers' path patterns. URL parsing, query strings and percent-decoding of the captured title are not modelled.
- `JSON.stringify` output is not modelled. Bodies are the talk, the listing or the text they would render.
- Store.Listing: the model keeps own keys in insertion order, but `Object.keys` lists integer-like keys first. The contract therefore states only that each stored talk appears exactly once, not the order.
- Headers.NumberOf: `Number` is modelled only on runs of decimal digits, with the empty string giving 0. A captured tag in any other form `Number` accepts is treated as no integer. Such forms include surrounding whitespace (spaces, tabs, line breaks), a sign, a decimal point, an exponent, and a `0x`, `0o` or `0b` prefix; for example, `If-None-Match: "0b11"` at version 3 gets 304 from the code but the listing from the model. A digit run is read exactly, while `Number` rounds values above 2^53 to the nearest double.
- SkillShare.Updated: the version is an unbounded natural number. In the source, `this.version++` works on a double, which stops growing at 2^53; the model does not represent that limit.
- SkillShare.PutTalk: the main model stores a talk under every title, including `__proto__`. `Dispatch.Route`, `Dispatch.Step`, the `Answers` lemmas and every `Traces` theorem use this corrected assignment. The code as written creates no own key for `__proto__` (see Findings and `ProtoTitle.PutTalkAsWritten`), so for that one title those theorems describe the intended server, not the written one.
- Headers.QuotedText: line terminators inside the header are not modelled. They would stop `.` from matching.
- Concurrency is not modelled. A request is applied in one step, at the moment its handler resumes after reading the body, which matches the single-threaded event loop. Disconnected clients are not detected, as in the source.

## Findings

| source | as written | input that shows it | evidently intended | confidence | as-written member | corrected member |
|---|---|---|---|---|---|---|
| 03-project-skill-sharing-website/skillsharing_server.js:84-89 | `server.talks[title] = {...}` on an ordinary object: for the title `__proto__` this calls the inherited prototype setter, so no own property is created | `PUT /talks/__proto__` with `{"presenter":"A","summary":"B"}` answers 204 and bumps the version; then `GET /talks/__proto__` answers 404 and the listing does not contain it | the talk is stored and served back like under any other title | medium; not executed; assumes the router passes `__proto__` through as the title | `ProtoTitle.PutTalkAsWritten` | `SkillShare.PutTalk` |
