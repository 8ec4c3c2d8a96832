/** Splitting chat text into reasoning and answer, and streaming the two as deltas. */
module Reasoning {
  import opened Options

  const OPEN := "<think>"
  const CLOSE := "</think>"

  datatype Split = Split(reasoning: Option<string>, content: string)

  predicate At(text: string, pat: string, i: nat) {
    i + |pat| <= |text| && text[i..i + |pat|] == pat
  }

  /** The first occurrence of `pat` at or after `from`. */
  function Find(text: string, pat: string, from: nat): (r: Option<nat>)
    ensures r.Some? ==> from <= r.value && At(text, pat, r.value) && forall i :: from <= i < r.value ==> !At(text, pat, i)
    ensures r.None? ==> forall i :: from <= i ==> !At(text, pat, i)
    decreases |text| - from
  {
    if from + |pat| > |text| then None
    else if text[from..from + |pat|] == pat then Some(from)
    else if from == |text| then None
    else Find(text, pat, from + 1)
  }

  /** Drop the longest suffix of at most `n` characters that could be the start of a closing
      marker. */
  function DropPartial(text: string, n: nat): (r: string)
    requires n < |CLOSE| && n <= |text|
    ensures r <= text && |text| - |r| <= n && text[|r|..] <= CLOSE
    ensures forall i :: 0 <= i < |r| && |text| - i <= n ==> !(text[i..] <= CLOSE)
  {
    if n == 0 then text
    else if text[|text| - n..] <= CLOSE then text[..|text| - n]
    else DropPartial(text, n - 1)
  }

  function WithoutPartialClose(text: string): (r: string)
    ensures r <= text && text[|r|..] <= CLOSE && |text| - |r| < |CLOSE|
    ensures forall i :: 0 <= i < |r| && |text| - i < |CLOSE| ==> !(text[i..] <= CLOSE)
  {
    DropPartial(text, if |text| < |CLOSE| - 1 then |text| else |CLOSE| - 1)
  }

  /** Split decoded text. While streaming, partial markers are withheld. */
  function SplitText(text: string, prefilled: bool, final: bool): Split {
    var explicit := OPEN <= text;
    if !prefilled && !explicit && !final && text <= OPEN then Split(None, "")
    else
      var start := if explicit then |OPEN| else 0;
      match Find(text, CLOSE, start)
      case Some(close) => Split(Some(text[start..close]), text[close + |CLOSE|..])
      case None =>
        if !prefilled && !explicit then Split(None, text)
        else Split(Some(if final then text[start..] else WithoutPartialClose(text[start..])), "")
  }

  // ---- what a split is -----------------------------------------------------------

  ghost predicate HasClose(text: string, from: nat) {
    exists i :: from <= i && At(text, CLOSE, i)
  }

  /** The text is `head`, `body`, the first closing marker after `head`, and `rest`. */
  ghost predicate Parts(text: string, head: string, body: string, rest: string) {
    text == head + body + CLOSE + rest && forall i :: 0 <= i < |body| ==> !At(body + CLOSE, CLOSE, i)
  }

  /** However the text goes on, no closing marker will begin among the `n` characters at `start`. */
  ghost predicate Safe(text: string, start: nat, n: nat) {
    forall q: string, i :: text <= q && start <= i < start + n ==> !At(q, CLOSE, i)
  }

  /** `body` is as much of the text behind `head` as is safe. */
  ghost predicate ShownSafely(text: string, head: string, body: string) {
    head + body <= text && forall n :: 0 <= n <= |text| - |head| ==> (n <= |body| <==> Safe(text, |head|, n))
  }

  /** What a split says of the text. Closed: the opening marker if it is there, the reasoning, the
      first closing marker, the content. Open: all of it is reasoning, of which a stream shows
      what cannot turn out to be a marker. Never opened: all of it is content. A stream waits
      while it may still be opened. */
  ghost predicate Says(text: string, prefilled: bool, final: bool, s: Split) {
    var explicit := OPEN <= text;
    var head := if explicit then OPEN else "";
    if !prefilled && !explicit && !final && text <= OPEN then s == Split(None, "")
    else if HasClose(text, |head|) then s.reasoning.Some? && Parts(text, head, s.reasoning.value, s.content)
    else if !prefilled && !explicit then s == Split(None, text)
    else
      && s.reasoning.Some? && s.content == ""
      && if final then text == head + s.reasoning.value else ShownSafely(text, head, s.reasoning.value)
  }

  /** The split of a text is exactly what the text says, while it streams and at the end. */
  lemma SplitSays(text: string, prefilled: bool, final: bool, s: Split)
    ensures Says(text, prefilled, final, s) <==> s == SplitText(text, prefilled, final)
  {
    hide WithoutPartialClose, Find, Parts, ShownSafely;
    var explicit := OPEN <= text;
    var head := if explicit then OPEN else "";
    assert head <= text;
    CloseFits(text, |head|);
    match Find(text, CLOSE, |head|)
    case Some(close) =>
      FindIs(text, |head|);
      if s.reasoning.Some? { PartsAtFirst(text, head, close, s.reasoning.value, s.content); }
      PartsAtFirst(text, head, close, text[|head|..close], text[close + |CLOSE|..]);
    case None =>
      FindIs(text, |head|);
      if (prefilled || explicit) && s.reasoning.Some? {
        if final {
          assert text == head + text[|head|..];
          assert text == head + s.reasoning.value ==> text[|head|..] == s.reasoning.value;
        } else {
          SafelyOne(text, head, s.reasoning.value);
        }
      }
  }

  lemma FindIs(text: string, start: nat)
    ensures Find(text, CLOSE, start).Some? <==> HasClose(text, start)
    ensures Find(text, CLOSE, start).Some? ==>
      var c := Find(text, CLOSE, start).value;
      start <= c && At(text, CLOSE, c) && forall i :: start <= i < c ==> !At(text, CLOSE, i)
  {
    hide At;
  }

  /** Only the first marker cuts the text into its parts. */
  lemma PartsAtFirst(text: string, head: string, c: nat, body: string, rest: string)
    requires head <= text && |head| <= c && At(text, CLOSE, c) && forall i :: |head| <= i < c ==> !At(text, CLOSE, i)
    ensures Parts(text, head, body, rest) <==> body == text[|head|..c] && rest == text[c + |CLOSE|..]
  {
    hide At;
    AtFits(text, c);
    if body == text[|head|..c] && rest == text[c + |CLOSE|..] {
      AtIs(text, c);
      assert text == head + body + CLOSE + rest;
      forall i | 0 <= i < |body| ensures !At(body + CLOSE, CLOSE, i) { InsideAt(text, head, body, rest, i); }
    }
    if Parts(text, head, body, rest) {
      var k := |head| + |body|;
      assert text[k..k + |CLOSE|] == CLOSE;
      AtIs(text, k);
      if c < k { InsideAt(text, head, body, rest, c - |head|); }
      assert c == k;
      assert body == text[|head|..c] && rest == text[c + |CLOSE|..];
    }
  }

  lemma AtIs(text: string, i: nat)
    ensures At(text, CLOSE, i) <==> i + |CLOSE| <= |text| && text[i..i + |CLOSE|] == CLOSE
  {
  }

  lemma InsideAt(text: string, head: string, body: string, rest: string, i: nat)
    requires text == head + body + CLOSE + rest && i < |body|
    ensures At(text, CLOSE, |head| + i) <==> At(body + CLOSE, CLOSE, i)
  {
    assert (body + CLOSE)[i..i + |CLOSE|] == text[|head| + i..|head| + i + |CLOSE|];
  }

  /** What is shown of an unclosed text is the most that is safe. */
  lemma MostThatIsSafe(text: string, start: nat, n: nat)
    requires start + n <= |text| && !HasClose(text, start)
    ensures n <= |WithoutPartialClose(text[start..])| <==> Safe(text, start, n)
  {
    hide WithoutPartialClose, At;
    var body := text[start..];
    var r := WithoutPartialClose(body);
    if n <= |r| {
      forall q: string, i | text <= q && start <= i < start + n ensures !At(q, CLOSE, i) {
        if At(q, CLOSE, i) { NotYet(text, q, start, i, r); }
      }
    } else {
      var q := text + CLOSE[|body| - |r|..];
      CompletedAt(text, start, |r|, q);
      assert text <= q && start <= start + |r| < start + n;
    }
  }

  /** A marker in a continuation is in the text already, or the text ends with its beginning. */
  lemma NotYet(text: string, q: string, start: nat, i: nat, r: string)
    requires text <= q && start <= i < start + |r| <= |text| && At(q, CLOSE, i)
    requires forall j :: 0 <= j < |r| && |text[start..]| - j < |CLOSE| ==> !(text[start..][j..] <= CLOSE)
    ensures HasClose(text, start)
  {
    AtKeeps(text, q, i);
    if i + |CLOSE| > |text| {
      MarkerBegun(text, q, start, i);
    }
    assert At(text, CLOSE, i);
  }

  lemma CompletedAt(text: string, start: nat, k: nat, q: string)
    requires start + k <= |text| && text[start..][k..] <= CLOSE && q == text + CLOSE[|text| - start - k..]
    ensures At(q, CLOSE, start + k)
  {
    var held := text[start..][k..];
    assert held == text[start + k..];
    assert CLOSE == held + CLOSE[|held|..];
    assert q[start + k..start + k + |CLOSE|] == held + CLOSE[|held|..];
  }

  lemma SafelyOne(text: string, head: string, body: string)
    requires head <= text && !HasClose(text, |head|)
    ensures ShownSafely(text, head, body) <==> body == WithoutPartialClose(text[|head|..])
  {
    hide WithoutPartialClose, Safe, HasClose;
    var r := WithoutPartialClose(text[|head|..]);
    forall n | 0 <= n <= |text| - |head| ensures n <= |r| <==> Safe(text, |head|, n) {
      MostThatIsSafe(text, |head|, n);
    }
    assert head + r <= text by { assert text == head + text[|head|..]; }
    if ShownSafely(text, head, body) {
      assert |head + body| <= |text| && Safe(text, |head|, |body|) && Safe(text, |head|, |r|);
      assert body == text[|head|..|head| + |body|] && r == text[|head|..|head| + |r|];
    }
  }

  lemma InsidePrefix(text: string, start: nat, r: string, i: nat)
    requires start <= |text| && r <= text[start..] && At(r, CLOSE, i)
    ensures At(text, CLOSE, start + i) && i + |CLOSE| <= |r|
  {
    assert r == text[start..start + |r|];
    forall j | 0 <= j < |CLOSE| ensures text[start + i..start + i + |CLOSE|][j] == CLOSE[j] {
      assert r[i..i + |CLOSE|][j] == r[i + j] == text[start + i + j];
    }
  }

  /** No reasoning that is ever shown contains a closing marker. */
  lemma ReasoningHasNoMarker(text: string, prefilled: bool, final: bool, i: nat)
    requires SplitText(text, prefilled, final).reasoning.Some?
    ensures !At(SplitText(text, prefilled, final).reasoning.value, CLOSE, i)
  {
    hide WithoutPartialClose, Find, At;
    var start := if OPEN <= text then |OPEN| else 0;
    var r := SplitText(text, prefilled, final).reasoning.value;
    FindIs(text, start);
    CloseFits(text, start);
    assert r <= text[start..];
    if At(r, CLOSE, i) { InsidePrefix(text, start, r, i); }
  }

  /** `q` goes on from an open text such that the marker that closes it begins at `c`, among what the
      split of the open text shows. */
  ghost predicate ShownTooEarly(text: string, prefilled: bool, q: string, c: nat) {
    var s, start := SplitText(text, prefilled, false), if OPEN <= text then |OPEN| else 0;
    && text <= q && Find(text, CLOSE, start).None? && Find(q, CLOSE, start) == Some(c)
    && (start + |Shown(s)| > c || |s.content| > c)
  }

  lemma ShownBeforeClose(text: string, q: string, start: nat, c: nat)
    requires start <= |text| && text <= q && Find(text, CLOSE, start).None? && Find(q, CLOSE, start) == Some(c)
    ensures c >= start + |WithoutPartialClose(text[start..])|
  {
    hide WithoutPartialClose, Find, At;
    FindIs(q, start);
    FindIs(text, start);
    if c < start + |WithoutPartialClose(text[start..])| { NotYet(text, q, start, c, WithoutPartialClose(text[start..])); }
  }

  /** An open text that ends like a marker begins may go on with the rest of the marker. */
  lemma MayClose(text: string) returns (q: string, c: nat)
    requires WithoutPartialClose(text) != text
    ensures text <= q && Find(q, CLOSE, 0) == Some(c) && c < |text|
  {
    hide WithoutPartialClose, Find, At;
    var r := WithoutPartialClose(text);
    assert text[0..] == text;
    q := text + CLOSE[|text| - |r|..];
    CompletedAt(text, 0, |r|, q);
    FindIs(q, 0);
    assert HasClose(q, 0);
    c := Find(q, CLOSE, 0).value;
  }

  /** A stream shows the beginning of the marker that closes the text exactly where thinking was
      opened neither by the prompt nor by the text, and the text ends like a marker begins. */
  lemma LeaksExactly(text: string, prefilled: bool)
    ensures (exists q, c :: ShownTooEarly(text, prefilled, q, c)) <==>
      && !prefilled && !(OPEN <= text) && !(text <= OPEN) && Find(text, CLOSE, 0).None?
      && WithoutPartialClose(text) != text
  {
    hide WithoutPartialClose, Find, At;
    var start := if OPEN <= text then |OPEN| else 0;
    assert text[0..] == text;
    forall q, c | ShownTooEarly(text, prefilled, q, c)
      ensures !prefilled && !(OPEN <= text) && !(text <= OPEN) && WithoutPartialClose(text) != text
    {
      ShownBeforeClose(text, q, start, c);
    }
    if !prefilled && start == 0 && !(text <= OPEN) && Find(text, CLOSE, 0).None? && WithoutPartialClose(text) != text {
      var q, c := MayClose(text);
      assert ShownTooEarly(text, prefilled, q, c);
    }
  }

  /** So a beginning of the marker is sent as content, and what came before it is reasoning a moment
      later. */
  lemma PartialCloseLeaks()
    ensures SplitText("x</thi", false, false) == Split(None, "x</thi")
    ensures SplitText("x</think>", false, false) == Split(Some("x"), "")
  {
    var a, b := "x</thi", "x</think>";
    assert a[0] != OPEN[0] && b[0] != OPEN[0];
    assert Find(a, CLOSE, 0).None?;
    assert !At(b, CLOSE, 0) by { assert b[0..8][0] == 'x'; }
    assert b[1..9] == CLOSE;
    assert Find(b, CLOSE, 0) == Find(b, CLOSE, 1) == Some(1);
    assert b[0..1] == "x" && b[9..] == "";
  }

  function Shown(s: Split): string {
    if s.reasoning.Some? then s.reasoning.value else ""
  }

  // ---- deltas --------------------------------------------------------------------

  /** `s` without its first `n` characters; nothing if it is shorter. */
  function Beyond(s: string, n: nat): string {
    if n <= |s| then s[n..] else ""
  }

  /** What the stream has shown: the last split, and everything sent. */
  datatype Shows = Shows(prevReasoning: string, prevContent: string, reasoning: string, content: string)

  function Next(sh: Shows, s: Split): Shows {
    Shows(Shown(s), s.content, sh.reasoning + Beyond(Shown(s), |sh.prevReasoning|),
          sh.content + Beyond(s.content, |sh.prevContent|))
  }

  /** The stream after the decoded prefixes `chain`. */
  function Streamed(prefilled: bool, chain: seq<string>): Shows {
    if chain == [] then Shows("", "", "", "")
    else Next(Streamed(prefilled, chain[..|chain| - 1]), SplitText(chain[|chain| - 1], prefilled, false))
  }

  /** A growing chain of decoded prefixes of `text`. */
  predicate Growing(chain: seq<string>, text: string) {
    && (forall i, j :: 0 <= i <= j < |chain| ==> chain[i] <= chain[j])
    && (forall i :: 0 <= i < |chain| ==> chain[i] <= text)
  }

  /** Everything sent, up to and including the final call, is the final split. */
  predicate Reassembles(prefilled: bool, chain: seq<string>, text: string) {
    var last := SplitText(text, prefilled, true);
    var sh := Next(Streamed(prefilled, chain), last);
    sh.reasoning == Shown(last) && sh.content == last.content
  }

  /** The opening marker is in the prompt or in the text, not in both; and if it is in neither,
      no closing marker turns earlier content into reasoning. */
  predicate Clean(prefilled: bool, text: string) {
    if prefilled then !(OPEN <= text) else OPEN <= text || Find(text, CLOSE, 0).None?
  }

  lemma AtKeeps(p: string, q: string, i: nat)
    requires p <= q
    ensures At(p, CLOSE, i) ==> At(q, CLOSE, i)
    ensures At(q, CLOSE, i) && i + |CLOSE| <= |p| ==> At(p, CLOSE, i)
  {
    if i + |CLOSE| <= |p| { assert p[i..i + |CLOSE|] == q[i..i + |CLOSE|]; }
  }

  lemma FindKeeps(p: string, q: string, from: nat)
    requires p <= q
    ensures Find(p, CLOSE, from).Some? ==> Find(q, CLOSE, from) == Find(p, CLOSE, from)
    ensures Find(p, CLOSE, from).None? && Find(q, CLOSE, from).Some? ==> Find(q, CLOSE, from).value + |CLOSE| > |p|
  {
    hide At, Find;
    forall i: nat ensures At(p, CLOSE, i) ==> At(q, CLOSE, i) { AtKeeps(p, q, i); }
    forall i: nat ensures At(q, CLOSE, i) && i + |CLOSE| <= |p| ==> At(p, CLOSE, i) { AtKeeps(p, q, i); }
    if Find(p, CLOSE, from).Some? { AtFits(p, Find(p, CLOSE, from).value); }
  }

  lemma AtFits(p: string, i: nat)
    requires At(p, CLOSE, i)
    ensures i + |CLOSE| <= |p|
  {
  }

  /** A suffix that could start a marker also could when the text was shorter. */
  lemma SuffixStart(p: string, q: string, i: nat)
    requires p <= q && i <= |p| && q[i..] <= CLOSE
    ensures p[i..] <= CLOSE
  {
    assert p[i..] <= q[i..];
  }

  /** Text withheld as a possible marker is never less for a longer prefix. */
  lemma PartialGrows(p: string, q: string)
    requires p <= q
    ensures WithoutPartialClose(p) <= WithoutPartialClose(q)
  {
    hide WithoutPartialClose;
    var a, b := WithoutPartialClose(p), WithoutPartialClose(q);
    if |b| <= |p| { SuffixStart(p, q, |b|); }
    assert |a| <= |b|;
    assert a <= q && b <= q;
  }

  /** What is shown of an unclosed prefix stays before a marker that is completed later. */
  lemma PartialBeforeClose(p: string, q: string, start: nat)
    requires p <= q && start <= |p| && Find(p, CLOSE, start).None? && Find(q, CLOSE, start).Some?
    ensures WithoutPartialClose(p[start..]) <= q[start..Find(q, CLOSE, start).value]
  {
    hide WithoutPartialClose, Find;
    FindKeeps(p, q, start);
    var c, body := Find(q, CLOSE, start).value, p[start..];
    var r := WithoutPartialClose(body);
    if c <= |p| { MarkerBegun(p, q, start, c); }
    assert |r| <= c - start;
    assert r <= body && body <= q[start..];
    assert r == q[start..][..|r|];
    assert q[start..c] == q[start..][..c - start];
  }

  /** A marker completed later had begun where it will stand. */
  lemma MarkerBegun(p: string, q: string, start: nat, c: nat)
    requires p <= q && start <= c <= |p| < c + |CLOSE| && At(q, CLOSE, c)
    ensures p[start..][c - start..] <= CLOSE
  {
    assert p[start..][c - start..] == p[c..];
    assert p[c..] == q[c..c + |CLOSE|][..|p| - c];
  }

  lemma CloseFits(p: string, start: nat)
    ensures Find(p, CLOSE, start).Some? ==> start <= Find(p, CLOSE, start).value <= |p| - |CLOSE|
  {
  }

  /** Both fields only grow along prefixes that open the same way. */
  lemma FieldsGrow(p: string, q: string, prefilled: bool, final: bool)
    requires p <= q && (prefilled || OPEN <= p) && (OPEN <= p <==> OPEN <= q)
    ensures Shown(SplitText(p, prefilled, false)) <= Shown(SplitText(q, prefilled, final))
    ensures SplitText(p, prefilled, false).content <= SplitText(q, prefilled, final).content
  {
    hide WithoutPartialClose, Find, At;
    var start := if OPEN <= p then |OPEN| else 0;
    FindKeeps(p, q, start);
    CloseFits(p, start);
    CloseFits(q, start);
    if Find(p, CLOSE, start).Some? {
      var c := Find(p, CLOSE, start).value;
      assert p[start..c] == q[start..c];
    } else if Find(q, CLOSE, start).Some? {
      PartialBeforeClose(p, q, start);
    } else {
      PartialGrows(p[start..], q[start..]);
      assert p[start..] <= q[start..];
    }
  }

  /** On clean text both fields grow from any decoded prefix to any later one. */
  lemma CleanGrows(p: string, q: string, text: string, prefilled: bool, final: bool)
    requires p <= q && q <= text && Clean(prefilled, text) && (final ==> q == text)
    ensures Shown(SplitText(p, prefilled, false)) <= Shown(SplitText(q, prefilled, final))
    ensures SplitText(p, prefilled, false).content <= SplitText(q, prefilled, final).content
  {
    assert OPEN <= q ==> OPEN <= text;
    if prefilled || OPEN <= p {
      FieldsGrow(p, q, prefilled, final);
    } else if OPEN <= text {
      assert |p| < |OPEN| && p <= OPEN;
    } else {
      FindKeeps(p, text, 0);
      FindKeeps(q, text, 0);
    }
  }

  /** While fields grow, what was sent is exactly the last split. */
  lemma {:induction false} CleanStream(prefilled: bool, chain: seq<string>, text: string)
    requires Growing(chain, text) && Clean(prefilled, text)
    ensures
      var sh := Streamed(prefilled, chain);
      && sh.reasoning == sh.prevReasoning && sh.content == sh.prevContent
      && (chain == [] ==> sh.reasoning == "" && sh.content == "")
      && (chain != [] ==>
            var s := SplitText(chain[|chain| - 1], prefilled, false);
            sh.prevReasoning == Shown(s) && sh.prevContent == s.content)
  {
    hide SplitText, Clean, Shown, Streamed;
    if chain == [] {
      NothingStreamed(prefilled);
    } else {
      var init, last := chain[..|chain| - 1], chain[|chain| - 1];
      assert chain == init + [last];
      StreamedNext(prefilled, init, last);
      CleanStream(prefilled, init, text);
      if init != [] { CleanGrows(init[|init| - 1], last, text, prefilled, false); }
      SentSoFar(Streamed(prefilled, init), SplitText(last, prefilled, false));
      NothingStreamed(prefilled);
    }
  }

  lemma NothingStreamed(prefilled: bool)
    ensures Streamed(prefilled, []) == Shows("", "", "", "")
  {
  }

  /** While the fields grow, the deltas make up the fields. */
  lemma SentSoFar(sh: Shows, s: Split)
    requires sh.reasoning == sh.prevReasoning && sh.content == sh.prevContent
    requires sh.prevReasoning <= Shown(s) && sh.prevContent <= s.content
    ensures Next(sh, s) == Shows(Shown(s), s.content, Shown(s), s.content)
  {
    hide Shown;
  }

  lemma CleanReassembles(prefilled: bool, chain: seq<string>, text: string)
    requires Growing(chain, text) && Clean(prefilled, text)
    ensures Reassembles(prefilled, chain, text)
  {
    hide SplitText, Clean, Shown;
    CleanStream(prefilled, chain, text);
    if chain != [] { CleanGrows(chain[|chain| - 1], text, text, prefilled, true); }
  }

  /** A chain that shows something and then takes it back sends it all again. */
  lemma TakenBack(prefilled: bool, a: string, b: string, text: string)
    requires a <= b && b <= text
    requires
      var sa, sb := SplitText(a, prefilled, false), SplitText(b, prefilled, false);
      || (Shown(sa) != "" && Shown(sb) == "")
      || (sa.content != "" && sb.content == "")
    ensures Growing([a, b], text) && !Reassembles(prefilled, [a, b], text)
  {
    hide SplitText, Shown;
    var sa, sb := SplitText(a, prefilled, false), SplitText(b, prefilled, false);
    var none := Shows("", "", "", "");
    assert [a, b][..1] == [a] && [a][..0] == [];
    assert Streamed(prefilled, []) == none;
    assert Streamed(prefilled, [a]) == Next(none, sa);
    assert Streamed(prefilled, [a, b]) == Next(Next(none, sa), sb);
    var last := SplitText(text, prefilled, true);
    var sh := Next(Streamed(prefilled, [a, b]), last);
    assert Shown(sb) == "" ==> |sh.reasoning| >= |Shown(sa)| + |Shown(last)|;
    assert sb.content == "" ==> |sh.content| >= |sa.content| + |last.content|;
  }

  /** Text that is not clean has a chain that goes wrong. */
  lemma UncleanChain(prefilled: bool, text: string) returns (chain: seq<string>)
    requires !Clean(prefilled, text)
    ensures Growing(chain, text) && !Reassembles(prefilled, chain, text)
  {
    if prefilled {
      var a, b := text[..2], text[..|OPEN|];
      assert a == "<t" && b == OPEN;
      OpeningTakenBack();
      TakenBack(prefilled, a, b, text);
      chain := [a, b];
    } else {
      var c := Find(text, CLOSE, 0).value;
      var a, b := text[..c + |CLOSE| - 1], text[..c + |CLOSE|];
      FirstClose(text, c, a, b);
      TakenBack(prefilled, a, b, text);
      chain := [a, b];
    }
  }

  lemma OpeningTakenBack()
    ensures Shown(SplitText("<t", true, false)) == "<t" && Shown(SplitText(OPEN, true, false)) == ""
  {
    hide WithoutPartialClose;
    var r := WithoutPartialClose("<t");
    assert "<t"[0..][1] == 't' && "<t"[1..][0] == 't';
    assert |r| == 2;
    assert OPEN[|OPEN|..] == "";
    assert WithoutPartialClose("") == "";
  }

  lemma FirstClose(text: string, c: nat, a: string, b: string)
    requires Find(text, CLOSE, 0) == Some(c) && !(OPEN <= text)
    requires a == text[..c + |CLOSE| - 1] && b == text[..c + |CLOSE|]
    ensures SplitText(a, false, false).content == a != "" && SplitText(b, false, false).content == ""
  {
    FindKeeps(a, text, 0);
    FindKeeps(b, text, 0);
    AtKeeps(b, text, c);
    assert text[c..c + |CLOSE|][1] == CLOSE[1] && a[c + 1] == text[c + 1];
    assert !(OPEN <= a) && !(OPEN <= b);
  }

  /** Streaming is lossless for every way the text can arrive if and only if the text is clean. */
  lemma LosslessExactly(prefilled: bool, text: string)
    ensures Clean(prefilled, text) <==> forall chain :: Growing(chain, text) ==> Reassembles(prefilled, chain, text)
  {
    if Clean(prefilled, text) {
      forall chain | Growing(chain, text) ensures Reassembles(prefilled, chain, text) {
        CleanReassembles(prefilled, chain, text);
      }
    } else {
      var chain := UncleanChain(prefilled, text);
    }
  }

  // ---- the stream ----------------------------------------------------------------

  datatype Field = ReasoningContent | Content
  datatype Chunk = Chunk(field: Field, delta: string, assistant: bool)

  /** The text of all chunks of one field, in order. */
  function Joined(chunks: seq<Chunk>, field: Field): string {
    if chunks == [] then ""
    else Joined(chunks[..|chunks| - 1], field)
         + if chunks[|chunks| - 1].field == field then chunks[|chunks| - 1].delta else ""
  }

  class ChatStream {
    const prefilled: bool
    var first: bool
    var prevReasoning: string
    var prevContent: string
    ghost var sent: seq<Chunk>
    ghost var chain: seq<string>

    /** Before the final call: the fields follow the decoded prefixes, and only the very first
        chunk names the role. */
    ghost predicate Valid()
      reads this
    {
      && Streamed(prefilled, chain) == Shows(prevReasoning, prevContent, Joined(sent, ReasoningContent), Joined(sent, Content))
      && Tidy()
    }

    ghost predicate Tidy()
      reads this
    {
      first == (sent == []) && forall i :: 0 <= i < |sent| ==> sent[i].delta != "" && sent[i].assistant == (i == 0)
    }

    constructor (prefilled: bool)
      ensures Valid() && this.prefilled == prefilled && sent == [] && chain == []
    {
      this.prefilled := prefilled;
      first, prevReasoning, prevContent, sent, chain := true, "", "", [], [];
    }

    /** One field's delta as a chunk, unless it is empty. */
    method Send(field: Field, delta: string) returns (chunks: seq<Chunk>)
      requires Tidy()
      modifies this`first, this`sent
      ensures Tidy() && sent == old(sent) + chunks
      ensures Joined(sent, field) == Joined(old(sent), field) + delta
      ensures forall other :: other != field ==> Joined(sent, other) == Joined(old(sent), other)
      ensures chunks == if delta == "" then [] else [Chunk(field, delta, old(first))]
    {
      if delta == "" {
        assert sent + [] == sent;
        return [];
      }
      var chunk := Chunk(field, delta, first);
      first := false;
      JoinedOne(sent, chunk);
      sent := sent + [chunk];
      chunks := [chunk];
    }

    /** The chunks for one decoded prefix, or for the whole text: at most one of each field,
        reasoning first. */
    method ChunksFor(text: string, final: bool) returns (chunks: seq<Chunk>)
      requires Valid()
      modifies this
      ensures sent == old(sent) + chunks && Tidy()
      ensures |chunks| <= 2 && (|chunks| == 2 ==> chunks[0].field == ReasoningContent && chunks[1].field == Content)
      ensures !final ==> Valid() && chain == old(chain) + [text]
      ensures final ==>
        var sh := Next(Streamed(prefilled, old(chain)), SplitText(text, prefilled, true));
        Joined(sent, ReasoningContent) == sh.reasoning && Joined(sent, Content) == sh.content
    {
      hide SplitText, Streamed, Joined, Shown;
      var split := SplitText(text, prefilled, final);
      var reasoning := Shown(split);
      var reasoningDelta := Beyond(reasoning, |prevReasoning|);
      var contentDelta := Beyond(split.content, |prevContent|);
      prevReasoning, prevContent := reasoning, split.content;
      var one := Send(ReasoningContent, reasoningDelta);
      var two := Send(Content, contentDelta);
      chunks := one + two;
      if !final {
        StreamedNext(prefilled, chain, text);
        chain := chain + [text];
      }
    }
  }

  lemma StreamedNext(prefilled: bool, chain: seq<string>, text: string)
    ensures Streamed(prefilled, chain + [text]) == Next(Streamed(prefilled, chain), SplitText(text, prefilled, false))
  {
    assert (chain + [text])[..|chain|] == chain;
  }

  lemma JoinedOne(chunks: seq<Chunk>, c: Chunk)
    ensures Joined(chunks + [c], c.field) == Joined(chunks, c.field) + c.delta
    ensures forall field :: field != c.field ==> Joined(chunks + [c], field) == Joined(chunks, field)
  {
    assert (chunks + [c])[..|chunks|] == chunks;
    assert forall field :: Joined(chunks, field) + "" == Joined(chunks, field);
  }

  /** A whole stream: the prefixes as they are decoded, then the full text. On clean text the
      client can put together from the chunks what the text says. */
  method Stream(prefilled: bool, decoded: seq<string>, text: string) returns (chunks: seq<Chunk>)
    requires Growing(decoded, text)
    ensures Clean(prefilled, text) ==> exists last ::
      && Says(text, prefilled, true, last)
      && Joined(chunks, ReasoningContent) == Shown(last) && Joined(chunks, Content) == last.content
    ensures forall i :: 0 <= i < |chunks| ==> chunks[i].delta != "" && chunks[i].assistant == (i == 0)
  {
    hide SplitText, Clean, Joined, Streamed, Shown, Says, ChatStream.Valid;
    var stream := new ChatStream(prefilled);
    chunks := [];
    for i := 0 to |decoded|
      invariant stream.Valid() && stream.prefilled == prefilled && stream.sent == chunks
      invariant stream.chain == decoded[..i] && fresh(stream)
    {
      var more := stream.ChunksFor(decoded[i], false);
      chunks := chunks + more;
      assert decoded[..i + 1] == decoded[..i] + [decoded[i]];
    }
    assert decoded[..|decoded|] == decoded;
    var rest := stream.ChunksFor(text, true);
    chunks := chunks + rest;
    LosslessExactly(prefilled, text);
    assert Clean(prefilled, text) ==> Reassembles(prefilled, decoded, text);
    SplitSays(text, prefilled, true, SplitText(text, prefilled, true));
  }
}
