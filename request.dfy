/**
 * The request envelope that `VTWhiteAPI::_create_xml_request` writes: a fixed
 * `<packet>` header holding the credentials and the remote function name, one
 * line per argument inside `<data>`, and a fixed footer. Keys and values are
 * interpolated verbatim; nothing is escaped.
 */
module Request {
  import opened Wrappers
  import opened Text

  /** One entry of the PHP argument array, in iteration order. */
  datatype Arg = Arg(key: string, value: string)

  /** The fixed text around the credentials and the function name, in order. */
  const OpenUser: string := "<packet>\n  <auth>\n    <user>"
  const UserToPass: string := "</user>\n    <pass>"
  const PassToFunction: string := "</pass>\n  </auth>\n  <function>"
  const FunctionToData: string := "</function>\n  <data>\n"

  function Header(user: string, pass: string, name: string): string {
    OpenUser + user + UserToPass + pass + PassToFunction + name + FunctionToData
  }

  const Footer: string := "  </data>\n</packet>"

  /** The line the loop body appends for one argument. */
  function Line(a: Arg): string {
    "    <" + a.key + ">" + a.value + "</" + a.key + ">\n"
  }

  /** The lines for all arguments, first argument first. */
  function Lines(args: seq<Arg>): string {
    if args == [] then "" else Line(args[0]) + Lines(args[1..])
  }

  /** The whole request text for the given credentials, function and arguments:
      it opens with the header, closes with the footer, and is exactly the two
      when there are no arguments. */
  function Packet(user: string, pass: string, name: string, args: seq<Arg>): (r: string)
    ensures |r| >= |Header(user, pass, name)| + |Footer|
    ensures r[..|Header(user, pass, name)|] == Header(user, pass, name)
    ensures r[|r| - |Footer|..] == Footer
    ensures args == [] ==> r == Header(user, pass, name) + Footer
  {
    var h := Header(user, pass, name);
    var r := h + Lines(args) + Footer;
    assert r == h + (Lines(args) + Footer);
    assert r[..|h|] == h;
    r
  }

  /** Appending one argument appends its line: the shape the serialising loop relies on. */
  lemma {:induction false} LinesSnoc(args: seq<Arg>, a: Arg)
    ensures Lines(args + [a]) == Lines(args) + Line(a)
  {
    if args == [] {
      assert args + [a] == [a];
    } else {
      assert (args + [a])[1..] == args[1..] + [a];
      LinesSnoc(args[1..], a);
    }
  }

  /* ---------------------------------------------------------------------
     A reader for the envelope, used to show that the text determines the
     credentials, the function name and the argument list, in order, as long
     as none of them contains the markup characters that would confuse it.
     --------------------------------------------------------------------- */

  /** A key that cannot end its start tag early: it holds no `<` or `>`. */
  predicate PlainKey(s: string) {
    forall i :: 0 <= i < |s| ==> s[i] != '<' && s[i] != '>'
  }

  predicate PlainArgs(args: seq<Arg>) {
    forall i :: 0 <= i < |args| ==> PlainKey(args[i].key) && NoLt(args[i].value)
  }

  /** The rest of `s` after the literal `lit`, if `s` starts with it. */
  function Expect(lit: string, s: string): (r: Option<string>)
    ensures r.Some? <==> |lit| <= |s| && s[..|lit|] == lit
    ensures r.Some? ==> r.value == s[|lit|..]
  {
    if |lit| <= |s| && s[..|lit|] == lit then Some(s[|lit|..]) else None
  }

  /** Splits `s` at its first `c`: the text before it, and the rest starting at `c`. */
  function TakeUntil(c: char, s: string): (r: Option<(string, string)>)
    ensures r.Some? ==> r.value.0 + r.value.1 == s && |r.value.1| > 0 && r.value.1[0] == c
    ensures r.Some? ==> forall i :: 0 <= i < |r.value.0| ==> r.value.0[i] != c
    ensures r.None? ==> forall i :: 0 <= i < |s| ==> s[i] != c
  {
    if s == [] then None
    else if s[0] == c then Some(([], s))
    else
      var rest := TakeUntil(c, s[1..]);
      if rest.None? then
        assert forall i :: 1 <= i < |s| ==> s[i] == s[1..][i - 1];
        None
      else
        var x, y := rest.value.0, rest.value.1;
        var p := [s[0]] + x;
        assert p + y == s by { assert s == [s[0]] + s[1..]; }
        assert forall i :: 1 <= i < |p| ==> p[i] == x[i - 1];
        Some((p, y))
  }

  lemma {:induction false} ExpectPrefix(lit: string, rest: string)
    ensures Expect(lit, lit + rest) == Some(rest)
  {
    assert (lit + rest)[..|lit|] == lit;
    assert (lit + rest)[|lit|..] == rest;
  }

  /** Reading up to the first `c` recovers the part before it when that part has no `c`. */
  lemma {:induction false} TakeUntilSplit(c: char, x: string, y: string)
    requires forall i :: 0 <= i < |x| ==> x[i] != c
    requires |y| > 0 && y[0] == c
    ensures TakeUntil(c, x + y) == Some((x, y))
  {
    if x == [] {
      assert x + y == y;
    } else {
      assert (x + y)[1..] == x[1..] + y;
      TakeUntilSplit(c, x[1..], y);
      assert [x[0]] + x[1..] == x;
    }
  }

  /** Reads the argument lines up to and including the footer. */
  function DecodeLines(s: string): (r: Option<seq<Arg>>)
    decreases |s|
  {
    if s == Footer then Some([])
    else match Expect("    <", s)
      case None => None
      case Some(s1) =>
        match TakeUntil('>', s1)
        case None => None
        case Some((key, s2)) =>
          match TakeUntil('<', s2[1..])
          case None => None
          case Some((value, s3)) =>
            match Expect("</" + key + ">\n", s3)
            case None => None
            case Some(s4) =>
              match DecodeLines(s4)
              case None => None
              case Some(rest) => Some([Arg(key, value)] + rest)
  }

  /** The request read back: credentials, function name and argument list. */
  datatype Envelope = Envelope(user: string, pass: string, name: string, args: seq<Arg>)

  /** Reads the literal `lit` and then a field up to the next `<`. */
  function ReadField(lit: string, s: string): Option<(string, string)> {
    match Expect(lit, s)
    case None => None
    case Some(s1) => TakeUntil('<', s1)
  }

  function DecodePacket(s: string): Option<Envelope> {
    match ReadField(OpenUser, s)
    case None => None
    case Some((user, s2)) =>
      match ReadField(UserToPass, s2)
      case None => None
      case Some((pass, s4)) =>
        match ReadField(PassToFunction, s4)
        case None => None
        case Some((name, s6)) =>
          match Expect(FunctionToData, s6)
          case None => None
          case Some(s7) =>
            match DecodeLines(s7)
            case None => None
            case Some(args) => Some(Envelope(user, pass, name, args))
  }

  lemma ReadFieldSplit(lit: string, x: string, y: string)
    requires NoLt(x)
    requires |y| > 0 && y[0] == '<'
    ensures ReadField(lit, lit + (x + y)) == Some((x, y))
  {
    ExpectPrefix(lit, x + y);
    TakeUntilSplit('<', x, y);
  }

  /** One argument line followed by anything is read back as that argument. */
  lemma DecodeOneLine(a: Arg, rest: string)
    requires PlainKey(a.key) && NoLt(a.value)
    ensures Line(a) + rest != Footer
    ensures DecodeLines(Line(a) + rest) ==
      match DecodeLines(rest)
      case None => None
      case Some(tail) => Some([a] + tail)
  {
    var s := Line(a) + rest;
    assert s[2] == ' ' && Footer[2] == '<';
    var closing := "</" + a.key + ">\n";
    assert s == "    <" + (a.key + (">" + (a.value + (closing + rest))));
    ExpectPrefix("    <", a.key + (">" + (a.value + (closing + rest))));
    TakeUntilSplit('>', a.key, ">" + (a.value + (closing + rest)));
    assert (">" + (a.value + (closing + rest)))[1..] == a.value + (closing + rest);
    TakeUntilSplit('<', a.value, closing + rest);
    ExpectPrefix(closing, rest);
  }

  /** The argument lines followed by the footer are read back as the same list. */
  lemma {:induction false} DecodeLinesRoundTrip(args: seq<Arg>)
    requires PlainArgs(args)
    ensures DecodeLines(Lines(args) + Footer) == Some(args)
  {
    if args == [] {
      assert Lines(args) + Footer == Footer;
    } else {
      DecodeLinesRoundTrip(args[1..]);
      assert Lines(args) + Footer == Line(args[0]) + (Lines(args[1..]) + Footer);
      DecodeOneLine(args[0], Lines(args[1..]) + Footer);
      assert [args[0]] + args[1..] == args;
    }
  }

  /** Round trip: when the credentials, the function name and the values hold no `<`
      and the keys no `<` or `>`, the request text determines all of them, so each
      argument has exactly one line, in order, with its value verbatim. */
  lemma PacketRoundTrip(user: string, pass: string, name: string, args: seq<Arg>)
    requires NoLt(user) && NoLt(pass) && NoLt(name) && PlainArgs(args)
    ensures DecodePacket(Packet(user, pass, name, args)) == Some(Envelope(user, pass, name, args))
  {
    var t7 := Lines(args) + Footer;
    var t5 := name + (FunctionToData + t7);
    var t3 := pass + (PassToFunction + t5);
    var t1 := user + (UserToPass + t3);
    PacketShape(user, pass, name, args);
    ReadFieldSplit(OpenUser, user, UserToPass + t3);
    ReadFieldSplit(UserToPass, pass, PassToFunction + t5);
    ReadFieldSplit(PassToFunction, name, FunctionToData + t7);
    ExpectPrefix(FunctionToData, t7);
    DecodeLinesRoundTrip(args);
  }

  /** The packet regrouped from the right, the order in which it is read. */
  lemma PacketShape(user: string, pass: string, name: string, args: seq<Arg>)
    ensures Packet(user, pass, name, args)
         == OpenUser + (user + (UserToPass + (pass + (PassToFunction + (name + (FunctionToData + (Lines(args) + Footer)))))))
  {
    Regroup9(OpenUser, user, UserToPass, pass, PassToFunction, name, FunctionToData, Lines(args), Footer);
  }

  /** Without escaping the serialiser is not injective: a value that closes its own
      element, holds another argument's line and reopens its element produces the
      same text as three separate arguments. */
  lemma UnescapedValueInjects(key: string, x: string, other: Arg, y: string)
    ensures Line(Arg(key, x + "</" + key + ">\n" + Line(other) + "    <" + key + ">" + y))
         == Lines([Arg(key, x), other, Arg(key, y)])
  {
    var open, close := "    <" + key + ">", "</" + key + ">\n";
    var mid := Line(other);
    var v := x + "</" + key + ">\n" + mid + "    <" + key + ">" + y;
    assert v == x + close + mid + open + y;
    assert Line(Arg(key, v)) == open + v + close;
    assert Line(Arg(key, x)) == open + x + close;
    assert Line(Arg(key, y)) == open + y + close;
    var args := [Arg(key, x), other, Arg(key, y)];
    assert Lines(args) == Line(args[0]) + (Line(args[1]) + (Line(args[2]) + Lines([]))) by {
      var t1, t2 := args[1..], args[1..][1..];
      assert t2 == [args[2]] && t2[0] == args[2] && t2[1..] == [];
      assert Lines(t2) == Line(args[2]) + Lines([]);
      assert t1[0] == args[1];
      assert Lines(t1) == Line(args[1]) + Lines(t2);
    }
    Regroup5(open, x, close, mid, y);
  }
}
