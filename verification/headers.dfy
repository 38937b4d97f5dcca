/**
 * The two request headers the long-poll listing reads, and the ETag it writes.
 * `If-None-Match` is matched with `/"(.*)"/` and its capture converted with `Number`;
 * `Prefer` is matched with `/\bwait=(\d+)/`.
 */
module Headers {
  import opened Wrappers
  import opened Decimal

  /** Position of the first occurrence of `c` in `s`. */
  function FirstIndexOf(s: string, c: char): (r: Option<nat>)
    ensures r.Some? ==> r.value < |s| && s[r.value] == c && c !in s[..r.value]
    ensures r.None? ==> c !in s
  {
    if s == [] then None
    else if s[0] == c then Some(0)
    else
      match FirstIndexOf(s[1..], c)
      case None => None
      case Some(i) =>
        assert s[..i + 1] == [s[0]] + s[1..][..i];
        Some(i + 1)
  }

  /** Position of the last occurrence of `c` in `s`. */
  function LastIndexOf(s: string, c: char): (r: Option<nat>)
    ensures r.Some? ==> r.value < |s| && s[r.value] == c && c !in s[r.value + 1..]
    ensures r.None? ==> c !in s
  {
    if s == [] then None
    else if s[|s| - 1] == c then Some(|s| - 1)
    else
      var front := s[..|s| - 1];
      assert s == front + [s[|s| - 1]];
      match LastIndexOf(front, c)
      case None => None
      case Some(i) =>
        assert s[i + 1..] == front[i + 1..] + [s[|s| - 1]];
        Some(i)
  }

  /** Two double quotes at positions `i < j`, with none before `i` and none after `j`. */
  predicate OuterQuotes(h: string, i: int, j: int) {
    && 0 <= i < j < |h|
    && h[i] == '"' && h[j] == '"'
    && '"' !in h[..i] && '"' !in h[j + 1..]
  }

  /**
   * The capture of `/"(.*)"/`: the greedy match runs from the first double quote to the
   * last one, and there is no match unless there are two of them.
   */
  function QuotedText(h: string): (r: Option<string>)
    ensures r.Some? ==> exists i, j :: OuterQuotes(h, i, j) && r.value == h[i + 1..j]
    ensures r.None? ==> forall i, j :: 0 <= i < j < |h| ==> h[i] != '"' || h[j] != '"'
  {
    match (FirstIndexOf(h, '"'), LastIndexOf(h, '"'))
    case (Some(i), Some(j)) =>
      if i < j then
        assert OuterQuotes(h, i, j);
        Some(h[i + 1..j])
      else
        assert forall a :: 0 <= a < i ==> h[a] != '"' by {
          forall a | 0 <= a < i ensures h[a] != '"' { assert h[a] in h[..i]; }
        }
        assert forall b :: j < b < |h| ==> h[b] != '"' by {
          forall b | j < b < |h| ensures h[b] != '"' { assert h[b] in h[j + 1..]; }
        }
        None
    case (_, _) =>
      None
  }

  /** `Number(text)` for a run of decimal digits (the empty run is 0); anything else is no integer. */
  function NumberOf(text: string): Option<int>
  {
    if AllDigits(text) then Some(DigitsValue(text)) else None
  }

  /** The version a client quoted in `If-None-Match`, when it quoted an integer. */
  function IfNoneMatchTag(header: Option<string>): Option<int>
  {
    match header
    case None => None
    case Some(h) =>
      match QuotedText(h)
      case None => None
      case Some(t) => NumberOf(t)
  }

  /** The `ETag` value naming `version`: the version's digits in double quotes. */
  function Etag(version: nat): string
  {
    "\"" + DecimalString(version) + "\""
  }

  /** A client that sends back the ETag it was given quotes exactly that version. */
  lemma EtagRoundTrip(version: nat)
    ensures IfNoneMatchTag(Some(Etag(version))) == Some(version)
  {
    var d := DecimalString(version);
    var e := Etag(version);
    assert '"' !in d;
    assert e[0] == '"' && e[|e| - 1] == '"';
    assert e[1..|e| - 1] == d;
    assert QuotedText(e) == Some(d);
    DecimalRoundTrip(version);
  }

  predicate IsWordChar(c: char) {
    'a' <= c <= 'z' || 'A' <= c <= 'Z' || IsDigit(c) || c == '_'
  }

  /** Whether `/\bwait=(\d+)/` matches at position `i`: a word boundary, `wait=`, then a digit. */
  predicate WaitMatchAt(h: string, i: nat) {
    && i + 6 <= |h|
    && h[i..i + 5] == "wait="
    && IsDigit(h[i + 5])
    && (i == 0 || !IsWordChar(h[i - 1]))
  }

  /** The leftmost position at or after `from` where the `wait=` pattern matches. */
  function FirstWaitMatch(h: string, from: nat): (r: Option<nat>)
    requires from <= |h|
    decreases |h| - from
    ensures r.Some? ==> from <= r.value && WaitMatchAt(h, r.value)
    ensures r.Some? ==> forall k :: from <= k < r.value ==> !WaitMatchAt(h, k)
    ensures r.None? ==> forall k :: from <= k ==> !WaitMatchAt(h, k)
  {
    if from + 6 > |h| then None
    else if WaitMatchAt(h, from) then Some(from)
    else FirstWaitMatch(h, from + 1)
  }

  /** The greedy `\d+`: the longest run of digits that starts `s`. */
  function LeadingDigits(s: string): (r: string)
    ensures AllDigits(r) && r <= s
    ensures |r| < |s| ==> !IsDigit(s[|r|])
  {
    if s != [] && IsDigit(s[0]) then [s[0]] + LeadingDigits(s[1..]) else []
  }

  /** The number of seconds a `Prefer` header asks to wait, if it asks at all. */
  function PreferWait(header: Option<string>): Option<nat>
  {
    match header
    case None => None
    case Some(h) =>
      match FirstWaitMatch(h, 0)
      case None => None
      case Some(i) => Some(DigitsValue(LeadingDigits(h[i + 5..])))
  }

  /** `Prefer: wait=<n>` asks to wait exactly `n` seconds. */
  lemma WaitRoundTrip(n: nat)
    ensures PreferWait(Some("wait=" + DecimalString(n))) == Some(n)
  {
    var d := DecimalString(n);
    var h := "wait=" + d;
    assert h[0..5] == "wait=";
    assert h[5..] == d;
    assert WaitMatchAt(h, 0);
    assert FirstWaitMatch(h, 0) == Some(0);
    AllDigitsRun(d);
    DecimalRoundTrip(n);
  }

  /** A string of digits is its own leading run. */
  lemma AllDigitsRun(d: string)
    requires AllDigits(d)
    ensures LeadingDigits(d) == d
  {
  }
}
