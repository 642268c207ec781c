/** Character and string helpers standing in for the PHP built-ins the client uses. */
module Text {

  predicate IsDigit(c: char) {
    '0' <= c <= '9'
  }

  predicate AllDigits(s: string) {
    forall i :: 0 <= i < |s| ==> IsDigit(s[i])
  }

  /** `strtoupper` on one character: ASCII a-z become A-Z, everything else is kept. */
  function UpperChar(c: char): char {
    if 'a' <= c <= 'z' then (c as int - 32) as char else c
  }

  /** `strtoupper`, byte by byte and locale-independent. */
  function Upper(s: string): (r: string)
    ensures |r| == |s|
    ensures forall i :: 0 <= i < |s| ==> r[i] == UpperChar(s[i])
  {
    if s == [] then [] else [UpperChar(s[0])] + Upper(s[1..])
  }

  /** `w` holds no `<`: no tag or element can start or end inside it. */
  predicate NoLt(w: string) {
    forall i :: 0 <= i < |w| ==> w[i] != '<'
  }

  lemma NoLtAppend(a: string, b: string)
    requires NoLt(a) && NoLt(b)
    ensures NoLt(a + b)
  {
    forall i | 0 <= i < |a + b| ensures (a + b)[i] != '<' {
      if i >= |a| { assert (a + b)[i] == b[i - |a|]; }
    }
  }

  /** The characters PHP's `trim` strips by default: space, tab, newline, carriage return, NUL and vertical tab. */
  predicate IsTrimmable(c: char) {
    c == ' ' || c == '\t' || c == '\n' || c == '\r' || c == '\0' || c == '\U{B}'
  }

  function TrimLeft(s: string): (r: string)
    ensures |r| <= |s| && r == s[|s| - |r|..]
    ensures r == [] || !IsTrimmable(r[0])
    ensures forall i :: 0 <= i < |s| - |r| ==> IsTrimmable(s[i])
  {
    if s != [] && IsTrimmable(s[0]) then TrimLeft(s[1..]) else s
  }

  function TrimRight(s: string): (r: string)
    ensures |r| <= |s| && r == s[..|r|]
    ensures r == [] || !IsTrimmable(r[|r| - 1])
    ensures forall i :: |r| <= i < |s| ==> IsTrimmable(s[i])
  {
    if s != [] && IsTrimmable(s[|s| - 1]) then TrimRight(s[..|s| - 1]) else s
  }

  /** PHP `trim($s)` with the default character list. */
  function Trim(s: string): string {
    TrimRight(TrimLeft(s))
  }

  /** `trim($s) == ''` holds exactly when every character of `s` is one that trim strips. */
  lemma TrimEmptyIff(s: string)
    ensures Trim(s) == "" <==> forall i :: 0 <= i < |s| ==> IsTrimmable(s[i])
  {
    var l := TrimLeft(s);
    if Trim(s) == "" {
      forall i | 0 <= i < |s| ensures IsTrimmable(s[i]) {
        if i >= |s| - |l| {
          assert s[i] == l[i - (|s| - |l|)];
        }
      }
    } else {
      var r := Trim(s);
      assert !IsTrimmable(r[0]);
      assert r[0] == l[0] == s[|s| - |l|];
    }
  }


  /* Regrouping of concatenations, which the solver does not do on its own at
     reasonable cost once literals are involved. */

  lemma Regroup3(a: string, b: string, c: string)
    ensures a + (b + c) == (a + b) + c
  {
  }

  lemma Regroup4(a: string, b: string, c: string, e: string)
    ensures a + b + c + e == a + (b + (c + e))
  {
  }

  lemma Regroup5(open: string, x: string, close: string, mid: string, y: string)
    ensures open + (x + close + mid + open + y) + close
         == (open + x + close) + (mid + ((open + y + close) + []))
  {
  }

  lemma Regroup9(a: string, b: string, c: string, d: string, e: string, f: string, g: string, h: string, i: string)
    ensures a + b + c + d + e + f + g + h + i == a + (b + (c + (d + (e + (f + (g + (h + i)))))))
  {
  }
}
