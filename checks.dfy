/**
 * The input checks `VTWhiteProvisioningAPI` runs before it sends anything.
 * Where the PHP code calls `die`, these return a `ValidationError`; where it
 * goes on, they return the call it makes: the remote function name, the
 * argument list in order, and the return mode.
 */
module Checks {
  import opened Wrappers
  import opened Text
  import opened Request
  import opened Response

  /** One bracketed class `[lo-hi]` of a PCRE pattern. */
  datatype CharRange = CharRange(lo: char, hi: char)

  /** `preg_match('/^P$/', s)` for a pattern P made of single-character classes.
      Without the `D` modifier PHP's `$` also matches just before one final
      newline, so one trailing "\n" is accepted. */
  predicate MatchesAnchored(s: string, pattern: seq<CharRange>) {
    && (|s| == |pattern| || (|s| == |pattern| + 1 && s[|pattern|] == '\n'))
    && forall i :: 0 <= i < |pattern| ==> pattern[i].lo <= s[i] <= pattern[i].hi
  }

  const Digit := CharRange('0', '9')

  /** `[2-9][0-8][0-9]`: area code. */
  const NpaPattern := [CharRange('2', '9'), CharRange('0', '8'), Digit]

  /** `[2-9][0-9]{2}`: exchange code. */
  const NxxPattern := [CharRange('2', '9'), Digit, Digit]

  /** `[2-9][0-8][0-9][2-9][0-9]{2}[0-9]{4}`: a whole 10-digit number. */
  const NumberPattern := NpaPattern + NxxPattern + [Digit, Digit, Digit, Digit]

  predicate ValidNpa(s: string) {
    MatchesAnchored(s, NpaPattern)
  }

  predicate ValidNxx(s: string) {
    MatchesAnchored(s, NxxPattern)
  }

  predicate ValidNumber(s: string) {
    MatchesAnchored(s, NumberPattern)
  }

  /** The remote call a checked operation goes on to make. */
  datatype Call = Call(name: string, args: seq<Arg>, mode: ReturnMode)

  /** One error per `die` message. */
  datatype ValidationError = MissingSearchKey | InvalidNpaNxx | InvalidRoute | InvalidNumber

  /** The text each `die` prints. */
  function Message(e: ValidationError): string {
    match e
    case MissingSearchKey =>
      "Invalid input:  GetNumbers argument requires an associative array containing one of the following keys: npa, nxx, or state\n"
    case InvalidNpaNxx =>
      "Invalid input: AddNumber function requires a valid NPA ([2-9][0-8][0-9]) and NXX ([2-9][0-9][0-9])\n"
    case InvalidRoute =>
      "Invalid input: AddNumber function requires a valid route\n"
    case InvalidNumber =>
      "Invalid input: RemoveNumber function requires a valid 10-digit US phone number\n"
  }

  /** `array_key_exists(key, $args)`. */
  predicate HasKey(args: seq<Arg>, key: string) {
    exists i :: 0 <= i < |args| && args[i].key == key
  }

  /** `GetNumbers`: at least one of npa, nxx and state must be given; the
      arguments are then forwarded as they are, in 'output' mode. */
  function GetNumbersCall(args: seq<Arg>): (r: Result<Call, ValidationError>)
    ensures r.Failure? <==> !HasKey(args, "npa") && !HasKey(args, "nxx") && !HasKey(args, "state")
    ensures r.Failure? ==> r.error == MissingSearchKey
    ensures r.Success? ==> r.value == Call("GetNumbers", args, Output)
  {
    if !HasKey(args, "npa") && !HasKey(args, "nxx") && !HasKey(args, "state") then
      Failure(MissingSearchKey)
    else
      Success(Call("GetNumbers", args, Output))
  }

  /** A route that `trim` reduces to the empty string. */
  predicate Blank(s: string) {
    forall i :: 0 <= i < |s| ==> IsTrimmable(s[i])
  }

  /** `AddNumber`: NPA and NXX are checked first, then the route must be set and
      not blank; the call carries npa, nxx and route, in that order and unchanged. */
  function AddNumberCall(npa: string, nxx: string, route: Option<string>): (r: Result<Call, ValidationError>)
    ensures r == Failure(InvalidNpaNxx) <==> !ValidNpa(npa) || !ValidNxx(nxx)
    ensures r == Failure(InvalidRoute) <==> ValidNpa(npa) && ValidNxx(nxx) && (route.None? || Blank(route.value))
    ensures r.Success? <==> ValidNpa(npa) && ValidNxx(nxx) && route.Some? && !Blank(route.value)
    ensures r.Success? ==> r.value == Call("AddNumber", [Arg("npa", npa), Arg("nxx", nxx), Arg("route", route.value)], Output)
  {
    if !ValidNpa(npa) || !ValidNxx(nxx) then
      Failure(InvalidNpaNxx)
    else if route.None? then
      Failure(InvalidRoute)
    else
      TrimEmptyIff(route.value);
      if Trim(route.value) == "" then
        Failure(InvalidRoute)
      else
        Success(Call("AddNumber", [Arg("npa", npa), Arg("nxx", nxx), Arg("route", route.value)], Output))
  }

  /** `RemoveNumber`: only a valid 10-digit number is sent, in 'status' mode. */
  function RemoveNumberCall(number: string): (r: Result<Call, ValidationError>)
    ensures r.Failure? <==> !ValidNumber(number)
    ensures r.Failure? ==> r.error == InvalidNumber
    ensures r.Success? ==> r.value == Call("RemoveNumber", [Arg("number", number)], Status)
  {
    if !ValidNumber(number) then
      Failure(InvalidNumber)
    else
      Success(Call("RemoveNumber", [Arg("number", number)], Status))
  }

  /* --------------------------------------------------------------------- */

  /** The NANP shape of a number, digit by digit: ten digits (and possibly the
      newline `$` lets through), the first 2-9, the second 0-8, the fourth 2-9. */
  lemma ValidNumberShape(s: string)
    ensures ValidNumber(s) <==>
      && (|s| == 10 || (|s| == 11 && s[10] == '\n'))
      && (forall i :: 0 <= i < 10 ==> IsDigit(s[i]))
      && s[0] != '0' && s[0] != '1' && s[1] != '9' && s[3] != '0' && s[3] != '1'
  {
    var p := NumberPattern;
    assert |p| == 10;
    assert forall i :: 0 <= i < 10 ==> p[i].lo >= '0' && p[i].hi <= '9';
    assert p[0] == CharRange('2', '9') && p[1] == CharRange('0', '8') && p[3] == CharRange('2', '9');
    assert forall i :: 0 <= i < 10 && i != 0 && i != 1 && i != 3 ==> p[i] == Digit;
  }

  /** A valid number is a valid NPA followed by a valid NXX and four digits. */
  lemma ValidNumberSplits(s: string)
    requires |s| == 10
    ensures ValidNumber(s) <==> ValidNpa(s[..3]) && ValidNxx(s[3..6]) && AllDigits(s[6..])
  {
    var p := NumberPattern;
    assert p[..3] == NpaPattern && p[3..6] == NxxPattern;
    if ValidNumber(s) {
      assert forall i :: 0 <= i < 3 ==> s[..3][i] == s[i] && s[3..6][i] == s[3 + i];
      assert forall i :: 0 <= i < 4 ==> s[6..][i] == s[6 + i] && p[6 + i] == Digit;
    }
    if ValidNpa(s[..3]) && ValidNxx(s[3..6]) && AllDigits(s[6..]) {
      forall i | 0 <= i < 10 ensures p[i].lo <= s[i] <= p[i].hi {
        if i < 3 {
          assert s[..3][i] == s[i];
        } else if i < 6 {
          assert s[3..6][i - 3] == s[i];
        } else {
          assert s[6..][i - 6] == s[i];
        }
      }
    }
  }

  /** `$` without the `D` modifier: a number with one trailing newline passes the
      check, and the newline goes into the request inside `<number>`. */
  lemma TrailingNewlineAccepted(s: string)
    requires |s| == 10 && ValidNumber(s)
    ensures ValidNumber(s + "\n")
    ensures RemoveNumberCall(s + "\n").Success?
    ensures !ValidNumber(s + "\n\n") && !ValidNumber(s + " ")
  {
  }

  /** Sample calls: "2025551234" is removable, "1025551234" (NPA starting with 1)
      is not; ("205", "555") is a valid NPA/NXX pair, "105" is not. */
  lemma SampleCalls()
    ensures RemoveNumberCall("2025551234").Success?
    ensures RemoveNumberCall("1025551234") == Failure(InvalidNumber)
    ensures AddNumberCall("205", "555", Some("sip:foo@bar")).Success?
    ensures AddNumberCall("105", "555", Some("sip:foo@bar")) == Failure(InvalidNpaNxx)
    ensures GetNumbersCall([]) == Failure(MissingSearchKey)
    ensures GetNumbersCall([Arg("npa", "205")]).Success?
  {
    assert !IsTrimmable("sip:foo@bar"[0]);
    assert NumberPattern[0].lo == '2' && "1025551234"[0] == '1';
    var args := [Arg("npa", "205")];
    assert args[0].key == "npa";
  }
}
