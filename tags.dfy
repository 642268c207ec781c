/**
 * The textual rewrite `VTWhiteAPI::parse_response` applies before handing the
 * response to the XML parser: the service names result elements `1`, `2`, ...,
 * which are not XML names, so every `<N>` becomes `<result_N>` and every `</N>`
 * becomes `</result_N>`, N being any run of decimal digits.
 *
 * Each `preg_replace` scans left to right, replaces the leftmost match, and
 * resumes after it. A match is the lead (`<` or `</`), one or more digits, and
 * `>`; since `[0-9]+` cannot stop before a digit, the digits are the whole run
 * that follows the lead.
 */
module Tags {
  import opened Text

  datatype TagKind = Opening | Closing

  /** The fixed text the pattern starts with. */
  function Lead(k: TagKind): string {
    match k
    case Opening => "<"
    case Closing => "</"
  }

  /** Length of the run of digits `s` starts with. */
  function DigitRun(s: string): (n: nat)
    ensures n <= |s|
  {
    if s != [] && IsDigit(s[0]) then 1 + DigitRun(s[1..]) else 0
  }

  /** The run is all digits and stops at a non-digit or at the end. */
  lemma {:induction false} DigitRunSpec(s: string)
    ensures AllDigits(s[..DigitRun(s)])
    ensures DigitRun(s) < |s| ==> !IsDigit(s[DigitRun(s)])
  {
    if s != [] && IsDigit(s[0]) {
      DigitRunSpec(s[1..]);
      assert s[..DigitRun(s)] == [s[0]] + s[1..][..DigitRun(s[1..])];
    }
  }

  /** `s` starts with one or more digits followed by `>`. */
  predicate DigitsThenClose(t: string) {
    var n := DigitRun(t);
    0 < n < |t| && t[n] == '>'
  }

  /** `s` starts with a bare numeric tag of kind `k`: the pattern matches at 0. */
  predicate TagAt(s: string, k: TagKind) {
    match k
    case Opening => |s| > 1 && s[0] == '<' && DigitsThenClose(s[1..])
    case Closing => |s| > 2 && s[0] == '<' && s[1] == '/' && DigitsThenClose(s[2..])
  }

  /** No position of `s` starts a bare numeric tag of kind `k`. */
  predicate NoTag(s: string, k: TagKind) {
    forall i :: 0 <= i < |s| ==> !TagAt(s[i..], k)
  }

  /** What a matched tag with digits `d` is replaced with. */
  function Replacement(k: TagKind, d: string): string {
    Lead(k) + "result_" + d + ">"
  }

  /** One `preg_replace` pass for tags of kind `k`. */
  function Rewrite(s: string, k: TagKind): (r: string)
    ensures |r| >= |s|
    ensures s != [] ==> r != [] && r[0] == s[0]
    decreases |s|
  {
    if s == [] then []
    else if TagAt(s, k) then
      var l := |Lead(k)|;
      var n := DigitRun(s[l..]);
      Replacement(k, s[l..l + n]) + Rewrite(s[l + n + 1..], k)
    else [s[0]] + Rewrite(s[1..], k)
  }

  /** Both passes, in the order `parse_response` runs them. */
  function Normalize(s: string): (r: string)
    ensures NoTag(r, Opening) && NoTag(r, Closing)
  {
    var o := Rewrite(s, Opening);
    RewriteLeavesNoTag(s, Opening, Opening);
    RewriteLeavesNoTag(o, Closing, Opening);
    RewriteLeavesNoTag(o, Closing, Closing);
    Rewrite(o, Closing)
  }

  /* --------------------------------------------------------------------- */

  lemma TagStartsWithLt(s: string, k: TagKind)
    requires TagAt(s, k)
    ensures s[0] == '<'
  {
  }

  /** Text with no `<` passes through and the rewrite carries on after it. */
  lemma {:induction false} PlainPrefix(w: string, u: string, k: TagKind)
    requires NoLt(w)
    ensures Rewrite(w + u, k) == w + Rewrite(u, k)
  {
    if w != [] {
      var s := w + u;
      if TagAt(s, k) {
        TagStartsWithLt(s, k);
      }
      assert s[1..] == w[1..] + u;
      PlainPrefix(w[1..], u, k);
      assert [w[0]] + w[1..] == w;
    } else {
      assert w + u == u;
    }
  }

  /** The digit run of `d + u`, when `d` is digits and `u` does not start with one. */
  lemma {:induction false} DigitRunAppend(d: string, u: string)
    requires AllDigits(d)
    requires u == [] || !IsDigit(u[0])
    ensures DigitRun(d + u) == |d|
  {
    if d != [] {
      assert (d + u)[1..] == d[1..] + u;
      DigitRunAppend(d[1..], u);
    } else {
      assert d + u == u;
    }
  }

  /** The rewrite does not change whether the text starts with digits then `>`. */
  lemma DigitsThenCloseKept(t: string, k: TagKind)
    ensures DigitsThenClose(Rewrite(t, k)) == DigitsThenClose(t)
  {
    DigitRunSpec(t);
    var n := DigitRun(t);
    var d, u := t[..n], t[n..];
    assert t == d + u;
    PlainPrefix(d, u, k);
    var ru := Rewrite(u, k);
    DigitRunAppend(d, ru);
    assert Rewrite(t, k) == d + ru;
    if n < |t| {
      assert t[n] == u[0];
      if ru != [] {
        assert (d + ru)[n] == ru[0];
      }
    }
  }

  /** Where a pass does not fire at the head, whether the head opens a tag is unchanged. */
  lemma HeadKeptOpening(s: string, k: TagKind)
    requires s != [] && !TagAt(s, k)
    ensures TagAt(Rewrite(s, k), Opening) == TagAt(s, Opening)
  {
    var x := Rewrite(s, k);
    assert x == [s[0]] + Rewrite(s[1..], k);
    assert x[1..] == Rewrite(s[1..], k);
    DigitsThenCloseKept(s[1..], k);
    if |s| <= 1 {
      assert s[1..] == [];
    }
  }

  /** Where a pass does not fire at the head, the first two characters are kept. */
  lemma SecondKept(s: string, k: TagKind)
    requires |s| > 1 && !TagAt(s, k)
    ensures |Rewrite(s, k)| > 1 && Rewrite(s, k)[1] == s[1]
  {
  }

  /** The pass where no tag starts at the head: the head, then the pass over the rest. */
  lemma RewriteAtPlain(s: string, k: TagKind)
    requires s != [] && !TagAt(s, k)
    ensures Rewrite(s, k) == [s[0]] + Rewrite(s[1..], k)
  {
  }

  /** Where a pass does not fire at a `</`, it carries on after the two characters. */
  lemma SlashKept(s: string, k: TagKind)
    requires |s| > 1 && s[1] == '/' && !TagAt(s, k)
    ensures |Rewrite(s, k)| >= 2 && Rewrite(s, k)[2..] == Rewrite(s[2..], k)
  {
    var t := s[1..];
    assert !TagAt(t, k);
    assert t[1..] == s[2..];
    RewriteAtPlain(s, k);
    RewriteAtPlain(t, k);
    var x := Rewrite(s[2..], k);
    assert Rewrite(s, k) == [s[0]] + ([t[0]] + x);
  }
  /** Where a pass does not fire at the head, whether the head closes a tag is unchanged. */
  lemma HeadKeptClosing(s: string, k: TagKind)
    requires s != [] && !TagAt(s, k)
    ensures TagAt(Rewrite(s, k), Closing) == TagAt(s, Closing)
  {
    var x := Rewrite(s, k);
    if |s| > 1 {
      SecondKept(s, k);
      if s[1] == '/' {
        SlashKept(s, k);
        DigitsThenCloseKept(s[2..], k);
      }
    } else {
      assert x == [s[0]] + Rewrite([], k);
    }
  }

  /** Where a pass does not fire at the head, the head's tag status, for either
      kind, is unchanged. */
  lemma HeadKept(s: string, k: TagKind, k2: TagKind)
    requires s != [] && !TagAt(s, k)
    ensures TagAt(Rewrite(s, k), k2) == TagAt(s, k2)
  {
    match k2
    case Opening => HeadKeptOpening(s, k);
    case Closing => HeadKeptClosing(s, k);
  }

  /** The replacement text: a `<`, then no other `<`, and a letter where digits would have to start. */
  lemma ReplacementShape(k: TagKind, d: string)
    requires AllDigits(d)
    ensures var r := Replacement(k, d);
      && |r| >= 3 && r[0] == '<'
      && (forall i :: 1 <= i < |r| ==> r[i] != '<')
      && (r[1] == 'r' || (r[1] == '/' && r[2] == 'r'))
  {
    var tail := "result_" + d + ">";
    assert Replacement(k, d) == Lead(k) + tail;
    assert forall i :: 0 <= i < |tail| ==> tail[i] != '<';
  }

  /** No position inside the replacement text starts a tag of either kind. */
  lemma ReplacementNoTag(k: TagKind, d: string, rest: string, k2: TagKind, i: nat)
    requires i < |Replacement(k, d)|
    requires AllDigits(d)
    ensures !TagAt((Replacement(k, d) + rest)[i..], k2)
  {
    var r := Replacement(k, d);
    ReplacementShape(k, d);
    var y := (r + rest)[i..];
    assert y[0] == r[i];
    if i == 0 {
      assert y[1] == r[1] && y[2] == r[2];
      assert y[1..][0] == y[1] && y[2..][0] == y[2];
    }
  }

  /** After a pass, no tag of its own kind is left, and no tag of another kind
      has been created where there was none. */
  lemma {:induction false} RewriteLeavesNoTag(s: string, k: TagKind, k2: TagKind)
    requires k2 == k || NoTag(s, k2)
    ensures NoTag(Rewrite(s, k), k2)
    decreases |s|
  {
    if s == [] {
      return;
    }
    if TagAt(s, k) {
      var l := |Lead(k)|;
      var n := DigitRun(s[l..]);
      DigitRunSpec(s[l..]);
      var d := s[l..l + n];
      assert d == s[l..][..n];
      var rest := s[l + n + 1..];
      RewriteAtTag(s, k, l, n, d, rest);
      if k2 != k {
        SuffixNoTag(s, l + n + 1, k2);
      }
      RewriteLeavesNoTag(rest, k, k2);
      NoTagAfterReplacement(k, d, Rewrite(rest, k), k2);
    } else {
      if k2 != k {
        assert s[0..] == s;
        SuffixNoTag(s, 1, k2);
      }
      RewriteLeavesNoTag(s[1..], k, k2);
      NoTagAfterKept(s, k, k2);
    }
  }

  /** A suffix of text with no tag has no tag. */
  lemma SuffixNoTag(s: string, m: nat, k: TagKind)
    requires m <= |s| && NoTag(s, k)
    ensures NoTag(s[m..], k)
  {
    forall j | 0 <= j < |s[m..]| ensures !TagAt(s[m..][j..], k) {
      assert s[m..][j..] == s[m + j..];
    }
  }

  /** A replacement followed by tag-free text holds no tag. */
  lemma NoTagAfterReplacement(k: TagKind, d: string, y: string, k2: TagKind)
    requires AllDigits(d) && NoTag(y, k2)
    ensures NoTag(Replacement(k, d) + y, k2)
  {
    var piece := Replacement(k, d);
    var x := piece + y;
    forall i | 0 <= i < |x| ensures !TagAt(x[i..], k2) {
      if i < |piece| {
        ReplacementNoTag(k, d, y, k2, i);
      } else {
        assert x[i..] == y[i - |piece|..];
      }
    }
  }

  /** Where the pass keeps the head, the head opens no tag it did not open before. */
  lemma NoTagAfterKept(s: string, k: TagKind, k2: TagKind)
    requires s != [] && !TagAt(s, k) && !TagAt(s, k2)
    requires NoTag(Rewrite(s[1..], k), k2)
    ensures NoTag(Rewrite(s, k), k2)
  {
    var x := Rewrite(s, k);
    var y := Rewrite(s[1..], k);
    RewriteAtPlain(s, k);
    forall i | 0 <= i < |x| ensures !TagAt(x[i..], k2) {
      if i == 0 {
        HeadKept(s, k, k2);
        assert x[0..] == x;
      } else {
        assert x[i..] == y[i - 1..];
      }
    }
  }

  /** Text with no tag of the pass's kind is returned unchanged. */
  lemma {:induction false} NoTagUnchanged(s: string, k: TagKind)
    requires NoTag(s, k)
    ensures Rewrite(s, k) == s
    decreases |s|
  {
    if s != [] {
      assert s[0..] == s;
      assert forall j :: 0 <= j < |s[1..]| ==> s[1..][j..] == s[1 + j..];
      NoTagUnchanged(s[1..], k);
    }
  }

  /** A pass changes the text exactly when the text holds a tag of its kind. */
  lemma RewriteFixedIff(s: string, k: TagKind)
    ensures Rewrite(s, k) == s <==> NoTag(s, k)
  {
    if NoTag(s, k) {
      NoTagUnchanged(s, k);
    } else {
      RewriteLeavesNoTag(s, k, k);
    }
  }

  /** A bare opening or closing tag is rewritten to its `result_` form and the
      pass resumes right after it. */
  lemma RewriteTag(k: TagKind, d: string, rest: string)
    requires d != [] && AllDigits(d)
    ensures Rewrite(Lead(k) + d + ">" + rest, k) == Replacement(k, d) + Rewrite(rest, k)
  {
    var t := d + (">" + rest);
    DigitRunAppend(d, ">" + rest);
    assert t[|d|] == '>';
    assert t[..|d|] == d;
    assert t[|d| + 1..] == rest;
    RewriteTagAfterLead(k, t, |d|);
    Regroup4(Lead(k), d, ">", rest);
  }

  lemma RewriteTagAfterLead(k: TagKind, t: string, n: nat)
    requires DigitRun(t) == n && 0 < n < |t| && t[n] == '>'
    ensures Rewrite(Lead(k) + t, k) == Replacement(k, t[..n]) + Rewrite(t[n + 1..], k)
  {
    var s := Lead(k) + t;
    var l := |Lead(k)|;
    assert s[l..] == t;
    assert TagAt(s, k) by {
      match k
      case Opening =>
        assert s[0] == '<';
      case Closing =>
        assert s[0] == '<' && s[1] == '/';
    }
    assert s[l..l + n] == t[..n];
    assert s[l + n + 1..] == t[n + 1..];
    RewriteAtTag(s, k, l, n, t[..n], t[n + 1..]);
  }

  /** Text with no bare numeric tag comes back unchanged, and only such text does. */
  lemma NormalizeFixedIff(s: string)
    ensures Normalize(s) == s <==> NoTag(s, Opening) && NoTag(s, Closing)
  {
    if NoTag(s, Opening) && NoTag(s, Closing) {
      NoTagUnchanged(s, Opening);
      NoTagUnchanged(s, Closing);
    } else {
    }
  }

  /** Normalising twice is the same as normalising once. */
  lemma NormalizeIdempotent(s: string)
    ensures Normalize(Normalize(s)) == Normalize(s)
  {
    NormalizeFixedIff(Normalize(s));
  }

  /** An end tag is left alone by the opening pass. */
  lemma EndTagSurvivesOpening(d: string, rest: string)
    requires AllDigits(d)
    ensures Rewrite("</" + d + ">" + rest, Opening) == "</" + d + ">" + Rewrite(rest, Opening)
  {
    var w := "/" + d + ">";
    NoLtAppend("/", d);
    NoLtAppend("/" + d, ">");
    var s := "</" + d + ">" + rest;
    assert s == "<" + (w + rest);
    assert !TagAt(s, Opening);
    assert s[1..] == w + rest;
    PlainPrefix(w, rest, Opening);
    assert "<" + (w + Rewrite(rest, Opening)) == "</" + d + ">" + Rewrite(rest, Opening);
  }

  /** The start and end tags of the element `name`. */
  function StartTag(name: string): string {
    "<" + name + ">"
  }

  function EndTag(name: string): string {
    "</" + name + ">"
  }

  /** A numeric element becomes a `result_` element around its normalised content,
      so nested numeric elements are renamed at every depth. */
  lemma NormalizeElement(d: string, inner: string)
    requires d != [] && AllDigits(d)
    ensures Normalize(StartTag(d) + inner + EndTag(d))
         == StartTag("result_" + d) + Normalize(inner) + EndTag("result_" + d)
  {
    OpeningPassOnElement(d, inner);
    ClosingPassOnElement(d, Rewrite(inner, Opening));
    Regroup3(StartTag("result_" + d), Normalize(inner), EndTag("result_" + d));
  }

  /** The opening pass renames the start tag, passes over the content and keeps the end tag. */
  lemma OpeningPassOnElement(d: string, inner: string)
    requires d != [] && AllDigits(d)
    ensures Rewrite(StartTag(d) + inner + EndTag(d), Opening)
         == Replacement(Opening, d) + (Rewrite(inner, Opening) + EndTag(d))
  {
    var close := EndTag(d);
    Regroup3(StartTag(d), inner, close);
    assert StartTag(d) == Lead(Opening) + d + ">";
    RewriteTag(Opening, d, inner + close);
    RewriteConcat(inner, close, Opening);
    EndTagSurvivesOpening(d, []);
    assert close + [] == close;
  }

  /** The closing pass keeps the renamed start tag, passes over the content and
      renames the end tag. */
  lemma ClosingPassOnElement(d: string, x: string)
    requires d != [] && AllDigits(d)
    ensures Rewrite(Replacement(Opening, d) + (x + EndTag(d)), Closing)
         == StartTag("result_" + d) + (Rewrite(x, Closing) + EndTag("result_" + d))
  {
    var close := EndTag(d);
    var w := "result_" + d + ">";
    assert NoLt(w) by {
      NoLtAppend("result_", d);
      NoLtAppend("result_" + d, ">");
    }
    ReplacementText(d);
    assert Replacement(Opening, d) == "<" + w;
    LtKeptByClosing(w, x + close);
    assert Rewrite(x + close, Closing) == Rewrite(x, Closing) + EndTag("result_" + d) by {
      RewriteConcat(x, close, Closing);
      RewriteTag(Closing, d, []);
      assert close == Lead(Closing) + d + ">" + [];
    }
  }

  lemma ReplacementText(d: string)
    ensures Replacement(Opening, d) == StartTag("result_" + d)
    ensures Replacement(Closing, d) == EndTag("result_" + d)
  {
  }

  /** A `<` not followed by `/` is kept by the closing pass, with the plain text after it. */
  lemma LtKeptByClosing(w: string, rest: string)
    requires w != [] && w[0] != '/' && NoLt(w)
    ensures Rewrite("<" + w + rest, Closing) == "<" + w + Rewrite(rest, Closing)
  {
    var s := "<" + w + rest;
    assert s[1] == w[0];
    assert !TagAt(s, Closing);
    assert s[1..] == w + rest;
    PlainPrefix(w, rest, Closing);
  }

  /* ---------------------------------------------------------------------
     A match holds `<` only as its first character, so no match straddles a
     point just before a `<`: the passes work markup piece by markup piece.
     --------------------------------------------------------------------- */

  /** A digit run is not extended by text that starts with a non-digit. */
  lemma {:induction false} DigitRunStops(t: string, q: string)
    requires q == [] || !IsDigit(q[0])
    ensures DigitRun(t + q) == DigitRun(t)
  {
    if t == [] {
      assert t + q == q;
    } else {
      assert (t + q)[1..] == t[1..] + q;
      DigitRunStops(t[1..], q);
    }
  }

  /** Whether digits then `>` start the text is decided before a following `<`. */
  lemma DigitsThenCloseBeforeLt(t: string, q: string)
    requires q == [] || q[0] == '<'
    ensures DigitsThenClose(t + q) == DigitsThenClose(t)
  {
    DigitRunStops(t, q);
    var n := DigitRun(t);
    if n < |t| {
      assert (t + q)[n] == t[n];
    } else if q != [] {
      assert (t + q)[n] == q[0];
    }
  }

  /** A tag starting in `p` lies wholly inside `p` when what follows starts with `<`. */
  lemma TagBeforeLt(p: string, q: string, k: TagKind)
    requires p != [] && (q == [] || q[0] == '<')
    ensures TagAt(p + q, k) == TagAt(p, k)
    ensures TagAt(p, k) ==> |Lead(k)| + DigitRun(p[|Lead(k)|..]) < |p|
  {
    var s := p + q;
    match k
    case Opening =>
      assert s[1..] == p[1..] + q;
      DigitsThenCloseBeforeLt(p[1..], q);
    case Closing =>
      if |p| == 1 {
        if q != [] {
          assert s[1] == q[0];
        }
      } else {
        assert s[2..] == p[2..] + q;
        DigitsThenCloseBeforeLt(p[2..], q);
      }
  }

  /** A pass distributes over a split made just before a `<`. */
  lemma {:induction false} RewriteConcat(p: string, q: string, k: TagKind)
    requires q == [] || q[0] == '<'
    ensures Rewrite(p + q, k) == Rewrite(p, k) + Rewrite(q, k)
    decreases |p|
  {
    if p == [] {
      assert p + q == q;
    } else if TagAt(p, k) {
      var l := |Lead(k)|;
      var n := DigitRun(p[l..]);
      TagBeforeLt(p, q, k);
      RewriteConcat(p[l + n + 1..], q, k);
      ConcatAtTag(p, q, k, l, n);
    } else {
      RewriteConcat(p[1..], q, k);
      ConcatAtPlain(p, q, k);
    }
  }

  /** The step of `RewriteConcat` where `p` starts with a tag of `n` digits. */
  lemma ConcatAtTag(p: string, q: string, k: TagKind, l: nat, n: nat)
    requires q == [] || q[0] == '<'
    requires TagAt(p, k) && l == |Lead(k)| && n == DigitRun(p[l..]) && l + n + 1 <= |p|
    requires Rewrite(p[l + n + 1..] + q, k) == Rewrite(p[l + n + 1..], k) + Rewrite(q, k)
    ensures Rewrite(p + q, k) == Rewrite(p, k) + Rewrite(q, k)
  {
    var d, rest := p[l..l + n], p[l + n + 1..];
    TagHeadBeforeLt(p, q, k, l, n);
    RewriteAtTag(p, k, l, n, d, rest);
    RewriteAtTag(p + q, k, l, n, d, rest + q);
    Regroup3(Replacement(k, d), Rewrite(rest, k), Rewrite(q, k));
  }

  /** Where `p` starts with a tag, `p + q` starts with the same tag. */
  lemma TagHeadBeforeLt(p: string, q: string, k: TagKind, l: nat, n: nat)
    requires q == [] || q[0] == '<'
    requires TagAt(p, k) && l == |Lead(k)| && n == DigitRun(p[l..]) && l + n + 1 <= |p|
    ensures TagAt(p + q, k)
    ensures DigitRun((p + q)[l..]) == n
    ensures (p + q)[l..l + n] == p[l..l + n]
    ensures (p + q)[l + n + 1..] == p[l + n + 1..] + q
  {
    TagBeforeLt(p, q, k);
    SliceOfAppend(p, q, l, l + n);
    SliceOfAppend(p, q, l + n + 1, l + n + 1);
    DigitRunStops(p[l..], q);
  }

  lemma SliceOfAppend(p: string, q: string, i: nat, j: nat)
    requires i <= j <= |p|
    ensures (p + q)[i..j] == p[i..j]
    ensures (p + q)[i..] == p[i..] + q
  {
  }

  /** The pass at a tag of `n` digits `d`, after which `rest` follows. */
  lemma RewriteAtTag(s: string, k: TagKind, l: nat, n: nat, d: string, rest: string)
    requires TagAt(s, k) && l == |Lead(k)| && n == DigitRun(s[l..]) && l + n + 1 <= |s|
    requires d == s[l..l + n] && rest == s[l + n + 1..]
    ensures Rewrite(s, k) == Replacement(k, d) + Rewrite(rest, k)
  {
  }

  /** The step of `RewriteConcat` where `p` starts with a character the pass keeps. */
  lemma ConcatAtPlain(p: string, q: string, k: TagKind)
    requires q == [] || q[0] == '<'
    requires p != [] && !TagAt(p, k)
    requires Rewrite(p[1..] + q, k) == Rewrite(p[1..], k) + Rewrite(q, k)
    ensures Rewrite(p + q, k) == Rewrite(p, k) + Rewrite(q, k)
  {
    PlainHeadBeforeLt(p, q, k);
    Regroup3([p[0]], Rewrite(p[1..], k), Rewrite(q, k));
  }

  /** Where the pass keeps the head of `p`, it keeps it in `p + q` too. */
  lemma PlainHeadBeforeLt(p: string, q: string, k: TagKind)
    requires q == [] || q[0] == '<'
    requires p != [] && !TagAt(p, k)
    ensures Rewrite(p + q, k) == [p[0]] + Rewrite(p[1..] + q, k)
    ensures Rewrite(p, k) == [p[0]] + Rewrite(p[1..], k)
  {
    TagBeforeLt(p, q, k);
    assert (p + q)[1..] == p[1..] + q;
  }

  /** Normalisation distributes over a split made just before a `<`: each piece
      of markup is normalised on its own, whatever surrounds it. */
  lemma NormalizeConcat(p: string, q: string)
    requires q == [] || q[0] == '<'
    ensures Normalize(p + q) == Normalize(p) + Normalize(q)
  {
    RewriteConcat(p, q, Opening);
    RewriteConcat(Rewrite(p, Opening), Rewrite(q, Opening), Closing);
  }

  /** Text without markup is left as it is. */
  lemma NormalizePlain(w: string)
    requires NoLt(w)
    ensures Normalize(w) == w
  {
    PlainPrefix(w, [], Opening);
    PlainPrefix(w, [], Closing);
    assert w + [] == w;
  }

  /** Text that does not start with a digit does not start with digits then `>`. */
  lemma NoDigitHead(t: string)
    requires t != [] && !IsDigit(t[0])
    ensures !DigitsThenClose(t)
  {
  }

  /** Where no tag starts at the head and the rest of `s` holds no `<`, a pass keeps `s`
      and carries on after it. */
  lemma KeptThenRest(s: string, u: string, k: TagKind)
    requires s != [] && !TagAt(s + u, k) && NoLt(s[1..])
    ensures Rewrite(s + u, k) == s + Rewrite(u, k)
  {
    assert (s + u)[1..] == s[1..] + u;
    PlainPrefix(s[1..], u, k);
    Regroup3([s[0]], s[1..], Rewrite(u, k));
    assert [s[0]] + s[1..] == s;
  }

  /** A start tag whose name does not start with a digit, as no XML name does, is
      kept by either pass, which carries on after it. */
  lemma StartTagKept(name: string, u: string, k: TagKind)
    requires name != [] && !IsDigit(name[0]) && name[0] != '/' && NoLt(name)
    ensures Rewrite(StartTag(name) + u, k) == StartTag(name) + Rewrite(u, k)
  {
    var t := name + ">";
    var st := StartTag(name);
    assert st == "<" + t;
    NoLtAppend(name, ">");
    assert (st + u)[1..] == t + u && (t + u)[0] == name[0];
    NoDigitHead(t + u);
    assert st[1..] == t;
    KeptThenRest(st, u, k);
  }

  /** An end tag whose name does not start with a digit is kept by either pass. */
  lemma EndTagKept(name: string, k: TagKind)
    requires name != [] && !IsDigit(name[0]) && NoLt(name)
    ensures Rewrite(EndTag(name), k) == EndTag(name)
  {
    var t := name + ">";
    var et := EndTag(name);
    assert et == "<" + ("/" + t);
    NoLtAppend(name, ">");
    NoLtAppend("/", t);
    assert et[1..] == "/" + t && et[2..] == t && t[0] == name[0];
    NoDigitHead("/" + t);
    NoDigitHead(t);
    assert et + [] == et;
    KeptThenRest(et, [], k);
  }

  /** An element whose name does not start with a digit keeps its tags, and its
      content is normalised in place. */
  lemma NormalizeNamedElement(name: string, inner: string)
    requires name != [] && !IsDigit(name[0]) && name[0] != '/' && NoLt(name)
    ensures Normalize(StartTag(name) + inner + EndTag(name))
         == StartTag(name) + Normalize(inner) + EndTag(name)
  {
    var st, et := StartTag(name), EndTag(name);
    NormalizeConcat(st + inner, et);
    StartTagKept(name, inner, Opening);
    StartTagKept(name, Rewrite(inner, Opening), Closing);
    EndTagKept(name, Opening);
    EndTagKept(name, Closing);
  }

  /** Numeric elements nested inside `<data>`, as the service sends them, are
      renamed at both depths while `<data>` and the text are kept. */
  lemma NormalizeNestedInData(d1: string, d2: string, x: string)
    requires d1 != [] && AllDigits(d1) && d2 != [] && AllDigits(d2) && NoLt(x)
    ensures var inner := StartTag(d2) + x + EndTag(d2);
      Normalize(StartTag("data") + (StartTag(d1) + inner + EndTag(d1)) + EndTag("data"))
      == StartTag("data")
         + (StartTag("result_" + d1)
            + (StartTag("result_" + d2) + x + EndTag("result_" + d2))
            + EndTag("result_" + d1))
         + EndTag("data")
  {
    var inner := StartTag(d2) + x + EndTag(d2);
    var outer := StartTag(d1) + inner + EndTag(d1);
    NormalizeNamedElement("data", outer);
    NormalizeElement(d1, inner);
    NormalizeElement(d2, x);
    NormalizePlain(x);
  }
}
