/**
  The state block inside a comment: a serialized payload between two delimiter lines, with
  human text around it. The JSON encoding is a pair of parameters.
*/
module StateBlock {
  import opened Wrappers
  import opened Text

  function Opening(marker: string): string {
    "<!-- " + marker + ":start -->" + ['\n']
  }

  function Closing(marker: string): string {
    ['\n'] + "<!-- " + marker + ":end -->"
  }

  /**
    What the marker lines provide: the only newline of the opening is its last character, the
    only newline of the closing its first, and the two lines differ.
  */
  ghost predicate Delimiters(o: string, c: string) {
    && |o| >= 2 && |c| >= 2
    && (forall n | 0 <= n < |o| :: o[n] == '\n' <==> n == |o| - 1)
    && (forall n | 0 <= n < |c| :: c[n] == '\n' <==> n == 0)
    && exists n: nat :: n < |o| && n + 1 < |c| && o[n] != c[n + 1]
  }

  lemma MarkerDelimiters(marker: string)
    requires '\n' !in marker
    ensures Delimiters(Opening(marker), Closing(marker))
  {
    var o, c := Opening(marker), Closing(marker);
    var start, end := "<!-- " + marker + ":start -->", "<!-- " + marker + ":end -->";
    assert forall n | 0 <= n < |start| :: start[n] != '\n' && o[n] == start[n];
    assert forall n | 0 <= n < |end| :: end[n] != '\n' && c[n + 1] == end[n];
    var n := |"<!-- " + marker + ":"|;
    assert o[n] == 's' && c[n + 1] == 'e';
  }

  function Embed(o: string, c: string, payload: string): string {
    o + payload + c
  }

  // ----- Occurrences -------------------------------------------------------

  predicate At(body: string, i: nat, p: string) {
    i + |p| <= |body| && body[i..i + |p|] == p
  }

  /** The first occurrence of `p` at or after `from`. */
  function FindFrom(body: string, p: string, from: nat): (r: Option<nat>)
    ensures r.Some? ==> from <= r.value && At(body, r.value, p) && forall k | from <= k < r.value :: !At(body, k, p)
    ensures r.None? ==> forall k | from <= k :: !At(body, k, p)
    decreases |body| - from
  {
    if from + |p| > |body| then None
    else if At(body, from, p) then Some(from)
    else if from == |body| then None
    else FindFrom(body, p, from + 1)
  }

  datatype Span = Span(open: nat, close: nat)

  /** A block opens at `i` and closes at `j`. */
  predicate BlockAt(o: string, c: string, body: string, i: nat, j: nat) {
    At(body, i, o) && i + |o| <= j && At(body, j, c)
  }

  function FindBlock(o: string, c: string, body: string): Option<Span> {
    var i := FindFrom(body, o, 0);
    if i.None? then None
    else
      var j := FindFrom(body, c, i.value + |o|);
      if j.None? then None else Some(Span(i.value, j.value))
  }

  /** The leftmost opening, and from it the nearest closing: what a non-greedy search returns. */
  lemma FindBlockIsLeftmostShortest(o: string, c: string, body: string)
    ensures FindBlock(o, c, body).None? <==> forall i, j :: !BlockAt(o, c, body, i, j)
    ensures FindBlock(o, c, body).Some? ==>
              var s := FindBlock(o, c, body).value;
              && BlockAt(o, c, body, s.open, s.close)
              && forall i, j | BlockAt(o, c, body, i, j) :: s.open < i || (s.open == i && s.close <= j)
  {
    var i := FindFrom(body, o, 0);
    if i.Some? {
      var j := FindFrom(body, c, i.value + |o|);
      if j.Some? {
        assert BlockAt(o, c, body, i.value, j.value);
      }
    }
  }

  function PayloadOf(o: string, c: string, body: string): Option<string> {
    var s := FindBlock(o, c, body);
    if s.None? then None
    else
      FindBlockIsLeftmostShortest(o, c, body);
      Some(body[s.value.open + |o|..s.value.close])
  }

  function Replaced(o: string, c: string, body: string, payload: string): string {
    var s := FindBlock(o, c, body);
    if s.Some? then
      FindBlockIsLeftmostShortest(o, c, body);
      body[..s.value.open] + Embed(o, c, payload) + body[s.value.close + |c|..]
    else StripRight(body) + ['\n', '\n'] + Embed(o, c, payload) + ['\n']
  }

  // ----- Round trips -------------------------------------------------------

  lemma AtChar(body: string, i: nat, p: string, n: nat)
    requires At(body, i, p) && n < |p|
    ensures body[i + n] == p[n]
  {
    assert body[i..i + |p|][n] == body[i + n];
  }

  lemma AtConcat(prefix: string, p: string, rest: string)
    ensures At(prefix + p + rest, |prefix|, p)
  {
    assert (prefix + p + rest)[|prefix|..|prefix| + |p|] == p;
  }

  lemma AtInPrefix(prefix: string, rest: string, p: string, k: nat)
    requires k + |p| <= |prefix|
    ensures At(prefix + rest, k, p) <==> At(prefix, k, p)
  {
    assert (prefix + rest)[k..k + |p|] == prefix[k..k + |p|];
  }

  /** No opening line starts inside the prefix and reaches into the block behind it. */
  lemma NoStraddle(o: string, c: string, prefix: string, rest: string, k: nat)
    requires Delimiters(o, c) && k < |prefix| < k + |o|
    ensures !At(prefix + o + rest, k, o)
  {
    var body := prefix + o + rest;
    var last := k + |o| - 1;
    assert body[last] == o[last - |prefix|];
    if At(body, k, o) {
      AtChar(body, k, o, |o| - 1);
      assert false;
    }
  }

  /** A payload on one line cannot contain, or run into, the closing line. */
  lemma NoEarlyClosing(o: string, c: string, before: string, payload: string, rest: string, k: nat)
    requires Delimiters(o, c) && '\n' !in payload && |before| <= k < |before| + |payload|
    ensures !At(before + payload + rest, k, c)
  {
    var body := before + payload + rest;
    assert body[k] == payload[k - |before|];
    if At(body, k, c) {
      AtChar(body, k, c, 0);
      assert false;
    }
  }

  /** The opening line occurs nowhere in `prefix`. */
  ghost predicate NoOpening(o: string, prefix: string) {
    forall k: nat :: !At(prefix, k, o)
  }

  lemma FirstOpening(o: string, c: string, body: string, prefix: string, rest: string)
    requires Delimiters(o, c) && NoOpening(o, prefix) && body == prefix + o + rest
    ensures FindFrom(body, o, 0) == Some(|prefix|)
  {
    AtConcat(prefix, o, rest);
    forall k | 0 <= k < |prefix|
      ensures !At(body, k, o)
    {
      if k + |o| <= |prefix| {
        assert body == prefix + (o + rest);
        AtInPrefix(prefix, o + rest, o, k);
      } else {
        NoStraddle(o, c, prefix, rest, k);
      }
    }
  }

  lemma FirstClosing(o: string, c: string, body: string, before: string, payload: string, rest: string)
    requires Delimiters(o, c) && '\n' !in payload && body == before + payload + c + rest
    ensures FindFrom(body, c, |before|) == Some(|before| + |payload|)
  {
    AtConcat(before + payload, c, rest);
    assert body == before + payload + (c + rest);
    forall k | |before| <= k < |before| + |payload|
      ensures !At(body, k, c)
    {
      NoEarlyClosing(o, c, before, payload, c + rest, k);
    }
  }

  /** The first opening of the comment is at `i`, and the next closing ends `payload`. */
  ghost predicate Located(o: string, c: string, body: string, i: nat, payload: string) {
    && FindFrom(body, o, 0) == Some(i)
    && FindFrom(body, c, i + |o|) == Some(i + |o| + |payload|)
    && i + |o| + |payload| <= |body| && body[i + |o|..i + |o| + |payload|] == payload
  }

  lemma FoundBy(o: string, c: string, body: string, i: nat, payload: string)
    requires Located(o, c, body, i, payload)
    ensures FindBlock(o, c, body) == Some(Span(i, i + |o| + |payload|)) && PayloadOf(o, c, body) == Some(payload)
  {
  }

  lemma PayloadBetween(o: string, c: string, body: string, i: nat, j: nat)
    requires FindFrom(body, o, 0) == Some(i) && FindFrom(body, c, i + |o|) == Some(j)
    ensures PayloadOf(o, c, body) == Some(body[i + |o|..j])
  {
  }

  lemma OpeningPart(prefix: string, o: string, payload: string, c: string, suffix: string)
    ensures prefix + (o + payload + c) + suffix == prefix + o + (payload + c + suffix)
  {
  }

  lemma ClosingPart(prefix: string, o: string, payload: string, c: string, suffix: string)
    ensures prefix + (o + payload + c) + suffix == (prefix + o) + payload + c + suffix
  {
  }

  lemma PayloadPart(prefix: string, o: string, payload: string, c: string, suffix: string)
    ensures (prefix + (o + payload + c) + suffix)[|prefix| + |o|..|prefix| + |o| + |payload|] == payload
  {
  }

  lemma OpeningFound(o: string, c: string, prefix: string, payload: string, suffix: string)
    requires Delimiters(o, c) && NoOpening(o, prefix)
    ensures FindFrom(prefix + (o + payload + c) + suffix, o, 0) == Some(|prefix|)
  {
    OpeningPart(prefix, o, payload, c, suffix);
    FirstOpening(o, c, prefix + (o + payload + c) + suffix, prefix, payload + c + suffix);
  }

  lemma ClosingFound(o: string, c: string, prefix: string, payload: string, suffix: string)
    requires Delimiters(o, c) && '\n' !in payload
    ensures FindFrom(prefix + (o + payload + c) + suffix, c, |prefix| + |o|) == Some(|prefix| + |o| + |payload|)
  {
    ClosingPart(prefix, o, payload, c, suffix);
    FirstClosing(o, c, prefix + (o + payload + c) + suffix, prefix + o, payload, suffix);
  }

  /** The comment is `prefix`, the block with `payload`, and `suffix`. */
  ghost predicate Holds(o: string, c: string, body: string, prefix: string, payload: string, suffix: string) {
    body == prefix + Embed(o, c, payload) + suffix
  }

  lemma EmbeddedParts(o: string, c: string, body: string, prefix: string, payload: string, suffix: string)
    requires Delimiters(o, c) && '\n' !in payload && NoOpening(o, prefix) && Holds(o, c, body, prefix, payload, suffix)
    ensures Located(o, c, body, |prefix|, payload)
  {
    OpeningFound(o, c, prefix, payload, suffix);
    ClosingFound(o, c, prefix, payload, suffix);
    PayloadPart(prefix, o, payload, c, suffix);
  }

  /** An embedded one-line payload is found again behind any text without the opening line. */
  lemma EmbeddedIsFound(o: string, c: string, body: string, prefix: string, payload: string, suffix: string)
    requires Delimiters(o, c) && '\n' !in payload && NoOpening(o, prefix) && Holds(o, c, body, prefix, payload, suffix)
    ensures FindBlock(o, c, body) == Some(Span(|prefix|, |prefix| + |o| + |payload|))
    ensures PayloadOf(o, c, body) == Some(payload)
  {
    EmbeddedParts(o, c, body, prefix, payload, suffix);
    FoundBy(o, c, body, |prefix|, payload);
  }

  /** In front of the block that is found there is no opening line. */
  lemma NothingOpensBefore(o: string, c: string, body: string)
    requires Delimiters(o, c) && FindBlock(o, c, body).Some?
    ensures FindBlock(o, c, body).value.open <= |body|
    ensures NoOpening(o, body[..FindBlock(o, c, body).value.open])
  {
    FindBlockIsLeftmostShortest(o, c, body);
    var i := FindBlock(o, c, body).value.open;
    forall k: nat
      ensures !At(body[..i], k, o)
    {
      if k + |o| <= i {
        assert body == body[..i] + body[i..];
        AtInPrefix(body[..i], body[i..], o, k);
      }
    }
  }

  lemma FiveParts(body: string, i: nat, n: nat, j: nat, m: nat)
    requires i <= n <= j <= m <= |body|
    ensures body == body[..i] + (body[i..n] + body[n..j] + body[j..m]) + body[m..]
  {
  }

  lemma SplitAtBlock(o: string, c: string, body: string, i: nat, j: nat)
    requires BlockAt(o, c, body, i, j)
    ensures Holds(o, c, body, body[..i], body[i + |o|..j], body[j + |c|..])
  {
    FiveParts(body, i, i + |o|, j, j + |c|);
  }

  /** The text in front of the block, and behind it. */
  function TextBefore(o: string, c: string, body: string): string
    requires FindBlock(o, c, body).Some?
  {
    FindBlockIsLeftmostShortest(o, c, body);
    body[..FindBlock(o, c, body).value.open]
  }

  function TextAfter(o: string, c: string, body: string): string
    requires FindBlock(o, c, body).Some?
  {
    FindBlockIsLeftmostShortest(o, c, body);
    body[FindBlock(o, c, body).value.close + |c|..]
  }

  lemma BlockHolds(o: string, c: string, body: string)
    requires FindBlock(o, c, body).Some?
    ensures Holds(o, c, body, TextBefore(o, c, body), PayloadOf(o, c, body).value, TextAfter(o, c, body))
  {
    FindBlockIsLeftmostShortest(o, c, body);
    var s := FindBlock(o, c, body).value;
    SplitAtBlock(o, c, body, s.open, s.close);
  }

  lemma ReplacedHolds(o: string, c: string, body: string, payload: string)
    requires FindBlock(o, c, body).Some?
    ensures Holds(o, c, Replaced(o, c, body, payload), TextBefore(o, c, body), payload, TextAfter(o, c, body))
  {
  }

  /** Replacing the block of any comment: the new payload is read back and the text around it stays. */
  lemma ReplaceRoundTrip(o: string, c: string, body: string, payload: string)
    requires Delimiters(o, c) && '\n' !in payload && FindBlock(o, c, body).Some?
    ensures PayloadOf(o, c, Replaced(o, c, body, payload)) == Some(payload)
    ensures exists prefix, suffix ::
              && Holds(o, c, body, prefix, PayloadOf(o, c, body).value, suffix)
              && Holds(o, c, Replaced(o, c, body, payload), prefix, payload, suffix)
  {
    NothingOpensBefore(o, c, body);
    BlockHolds(o, c, body);
    ReplacedHolds(o, c, body, payload);
    EmbeddedIsFound(o, c, Replaced(o, c, body, payload), TextBefore(o, c, body), payload, TextAfter(o, c, body));
  }

  /** A freshly posted block is read back. */
  lemma CreateRoundTrip(o: string, c: string, payload: string)
    requires Delimiters(o, c) && '\n' !in payload
    ensures PayloadOf(o, c, Embed(o, c, payload)) == Some(payload)
  {
    assert "" + Embed(o, c, payload) + "" == Embed(o, c, payload);
    EmbeddedIsFound(o, c, Embed(o, c, payload), "", payload, "");
  }

  /** What the appended form puts in front of the block. */
  function AppendPrefix(body: string): string {
    StripRight(body) + ['\n', '\n']
  }

  lemma {:induction false} StripRightIsPrefix(s: string)
    ensures StripRight(s) <= s
  {
    if s != [] && IsSpace(s[|s| - 1]) {
      StripRightIsPrefix(s[..|s| - 1]);
    }
  }

  /** A block that lies in the prefix of the appended form lies in the text itself. */
  lemma BlockInPrefix(o: string, c: string, body: string, i: nat, j: nat)
    requires Delimiters(o, c) && BlockAt(o, c, AppendPrefix(body), i, j)
    ensures BlockAt(o, c, body, i, j)
  {
    var t := StripRight(body);
    StripRightIsPrefix(body);
    AtChar(AppendPrefix(body), j, c, |c| - 1);
    assert j + |c| <= |t|;
    AtInPrefix(t, ['\n', '\n'], o, i);
    AtInPrefix(t, ['\n', '\n'], c, j);
    assert body == t + body[|t|..];
    AtInPrefix(t, body[|t|..], o, i);
    AtInPrefix(t, body[|t|..], c, j);
  }

  /** The closing line does not start in the prefix and end in the block behind it. */
  lemma NoClosingStraddle(o: string, c: string, prefix: string, rest: string, j: nat)
    requires Delimiters(o, c) && prefix != [] && prefix[|prefix| - 1] == '\n'
    requires j < |prefix| < j + |c|
    ensures !At(prefix + o + rest, j, c)
  {
    var body := prefix + o + rest;
    assert body[|prefix| - 1] == '\n';
    var n: nat :| n < |o| && n + 1 < |c| && o[n] != c[n + 1];
    assert body[|prefix| + n] == o[n];
    if At(body, j, c) {
      if j == |prefix| - 1 {
        AtChar(body, j, c, n + 1);
        assert false;
      } else {
        AtChar(body, j, c, |prefix| - 1 - j);
        assert false;
      }
    }
  }

  /** An opening line in the prefix of the appended form ends before its last character. */
  lemma OpeningEndsEarly(o: string, c: string, body: string, k: nat)
    requires Delimiters(o, c) && At(AppendPrefix(body), k, o)
    ensures k + |o| < |AppendPrefix(body)|
  {
    var prefix := AppendPrefix(body);
    AtChar(prefix, k, o, |o| - 2);
    assert prefix[|prefix| - 2] == '\n';
  }

  /** After a lone opening line, the first closing is not in the prefix. */
  lemma ClosesLater(o: string, c: string, body: string, rest: string, i: nat, j: nat)
    requires Delimiters(o, c) && FindBlock(o, c, body).None?
    requires At(AppendPrefix(body), i, o) && i + |o| <= j
    requires At(AppendPrefix(body) + o + rest, j, c)
    ensures |AppendPrefix(body)| <= j
  {
    var prefix := AppendPrefix(body);
    if j + |c| <= |prefix| {
      assert prefix + o + rest == prefix + (o + rest);
      AtInPrefix(prefix, o + rest, c, j);
      BlockInPrefix(o, c, body, i, j);
      FindBlockIsLeftmostShortest(o, c, body);
      assert false;
    } else if j < |prefix| {
      NoClosingStraddle(o, c, prefix, rest, j);
      assert false;
    }
  }

  /** A lone opening line in front captures the text up to the next closing line. */
  lemma LoneOpeningCaptures(o: string, c: string, body: string, payload: string, suffix: string)
    requires Delimiters(o, c) && '\n' !in payload && FindBlock(o, c, body).None?
    requires !NoOpening(o, AppendPrefix(body))
    ensures PayloadOf(o, c, AppendPrefix(body) + Embed(o, c, payload) + suffix) != Some(payload)
  {
    var prefix := AppendPrefix(body);
    var text := prefix + Embed(o, c, payload) + suffix;
    OpeningPart(prefix, o, payload, c, suffix);
    ClosingPart(prefix, o, payload, c, suffix);
    var k: nat :| At(prefix, k, o);
    assert text == prefix + (Embed(o, c, payload) + suffix);
    AtInPrefix(prefix, Embed(o, c, payload) + suffix, o, k);
    var i := FindFrom(text, o, 0).value;
    AtInPrefix(prefix, Embed(o, c, payload) + suffix, o, i);
    OpeningEndsEarly(o, c, body, i);
    AtConcat(prefix + o + payload, c, suffix);
    var j := FindFrom(text, c, i + |o|).value;
    ClosesLater(o, c, body, payload + c + suffix, i, j);
    PayloadBetween(o, c, text, i, j);
    NewlineCaptured(prefix, text, i + |o|, j);
  }

  lemma NewlineCaptured(prefix: string, text: string, from: nat, j: nat)
    requires prefix <= text && from < |prefix| <= j <= |text| && prefix[|prefix| - 1] == '\n'
    ensures '\n' in text[from..j]
  {
    assert text[from..j][|prefix| - 1 - from] == text[|prefix| - 1] == prefix[|prefix| - 1];
  }

  /** A block appended to text without one is read back exactly when no opening line precedes it. */
  lemma AppendRoundTrip(o: string, c: string, body: string, payload: string)
    requires Delimiters(o, c) && '\n' !in payload && FindBlock(o, c, body).None?
    ensures PayloadOf(o, c, Replaced(o, c, body, payload)) == Some(payload) <==> NoOpening(o, AppendPrefix(body))
  {
    var prefix := AppendPrefix(body);
    assert Replaced(o, c, body, payload) == prefix + Embed(o, c, payload) + ['\n'];
    if NoOpening(o, prefix) {
      EmbeddedIsFound(o, c, Replaced(o, c, body, payload), prefix, payload, ['\n']);
    } else {
      LoneOpeningCaptures(o, c, body, payload, ['\n']);
    }
  }
}
