/**
 * The client objects: `VTWhiteAPI` and its two subclasses, which differ only
 * in the endpoint their constructors choose and in the operations they offer.
 * They are modelled as one class whose `kind` records which PHP class was
 * constructed. The HTTP transport and the XML parser are parameters.
 */
module Client {
  import opened Wrappers
  import opened Request
  import opened Response
  import opened Checks

  /** Which PHP class the object is. */
  datatype Kind = Base | Provisioning | E911

  const ProvisioningTestUri := "https://api.vtwhite.com/provisioning/testprovisioning.api.php"
  const ProvisioningUri := "https://api.vtwhite.com/provisioning/provisioning.api.php"
  const E911TestUri := "https://api.vtwhite.com/provisioning/test-911.api.php"
  const E911Uri := "https://api.vtwhite.com/provisioning/911.api.php"

  /** The `api_uri` a constructor sets; the base class sets none. */
  function Endpoint(kind: Kind, test: bool): Option<string> {
    match kind
    case Base => None
    case Provisioning => Some(if test then ProvisioningTestUri else ProvisioningUri)
    case E911 => Some(if test then E911TestUri else E911Uri)
  }

  /** Each subclass has its own pair of endpoints and the test flag picks one of
      them: kind and flag can be read back from the endpoint. */
  lemma EndpointDetermines(kind: Kind, test: bool, kind2: Kind, test2: bool)
    requires kind != Base
    ensures Endpoint(kind, test).Some?
    ensures Endpoint(kind, test) == Endpoint(kind2, test2) <==> kind == kind2 && test == test2
  {
    assert |ProvisioningTestUri| == 61 && |ProvisioningUri| == 57;
    assert |E911TestUri| == 53 && |E911Uri| == 48;
  }

  /** An unset property interpolates as the empty string. */
  function Interpolated(field: Option<string>): string {
    match field
    case None => ""
    case Some(s) => s
  }

  /** `HTTP POST packet=<body>` to the endpoint; the reply text, or "" when
      `curl_exec` fails and returns false. */
  type Transport = (Option<string>, string) -> string

  /** `simplexml_load_string` followed by `->data`. */
  type Parser = string -> Option<DataNode>

  class ApiClient {
    const kind: Kind
    var apiUsername: Option<string>
    var apiPassword: Option<string>
    var apiUri: Option<string>

    /** The constructors: credentials are stored only when both are given;
        the endpoint follows the class and the test flag. */
    constructor (kind: Kind, username: Option<string>, password: Option<string>, test: bool)
      ensures this.kind == kind
      ensures username.Some? && password.Some? ==> apiUsername == username && apiPassword == password
      ensures username.None? || password.None? ==> apiUsername.None? && apiPassword.None?
      ensures apiUri == Endpoint(kind, test)
    {
      this.kind := kind;
      if username.Some? && password.Some? {
        apiUsername := username;
        apiPassword := password;
      } else {
        apiUsername := None;
        apiPassword := None;
      }
      apiUri := Endpoint(kind, test);
    }

    /** What `send` returns for the given call, given the transport and the parser. */
    ghost function Sent(name: string, args: seq<Arg>, mode: ReturnMode, transport: Transport, parse: Parser): Outcome
      reads this
    {
      var request := Packet(Interpolated(apiUsername), Interpolated(apiPassword), name, args);
      Deliver(mode, ParseResponse(transport(apiUri, request), parse))
    }

    /** `_create_xml_request`: the header, then one line per argument appended
        in order, then the footer. */
    method CreateXmlRequest(name: string, args: seq<Arg>) returns (out: string)
      ensures out == Packet(Interpolated(apiUsername), Interpolated(apiPassword), name, args)
    {
      out := Header(Interpolated(apiUsername), Interpolated(apiPassword), name);
      ghost var header := out;
      var i := 0;
      while i < |args|
        invariant 0 <= i <= |args|
        invariant out == header + Lines(args[..i])
      {
        var line := "    <" + args[i].key + ">" + args[i].value + "</" + args[i].key + ">\n";
        assert line == Line(args[i]);
        LinesSnoc(args[..i], args[i]);
        assert args[..i + 1] == args[..i] + [args[i]];
        out := out + line;
        i := i + 1;
      }
      assert args[..i] == args;
      assert out == header + Lines(args);
      var footer := "  </data>\n</packet>";
      assert footer == Footer;
      out := out + footer;
    }

    /** `send`: serialise, post, normalise and parse the reply, then answer by mode. */
    method Send(name: string, args: seq<Arg>, mode: ReturnMode, transport: Transport, parse: Parser)
      returns (r: Outcome)
      ensures r == Sent(name, args, mode, transport, parse)
    {
      var xml := CreateXmlRequest(name, args);
      var res := transport(apiUri, xml);
      var parsed := ParseResponse(res, parse);
      r := Deliver(mode, parsed);
    }

    /** Carries out a checked call, or reports why it was refused. */
    method Perform(call: Result<Call, ValidationError>, transport: Transport, parse: Parser)
      returns (r: Result<Outcome, ValidationError>)
      ensures call.Failure? ==> r == Failure(call.error)
      ensures call.Success? ==> r == Success(Sent(call.value.name, call.value.args, call.value.mode, transport, parse))
    {
      match call
      case Failure(e) =>
        r := Failure(e);
      case Success(c) =>
        var out := Send(c.name, c.args, c.mode, transport, parse);
        r := Success(out);
    }

    /** `GetNumbers`: refused unless npa, nxx or state is given; otherwise the
        arguments go out unchanged and the data node comes back. */
    method GetNumbers(args: seq<Arg>, transport: Transport, parse: Parser)
      returns (r: Result<Outcome, ValidationError>)
      requires kind == Provisioning
      ensures r.Failure? <==> !HasKey(args, "npa") && !HasKey(args, "nxx") && !HasKey(args, "state")
      ensures r.Failure? ==> r.error == MissingSearchKey
      ensures r.Success? ==> r.value == Sent("GetNumbers", args, Output, transport, parse)
    {
      r := Perform(GetNumbersCall(args), transport, parse);
    }

    /** `AddNumber`: refused on a bad NPA or NXX, then on a missing or blank route;
        otherwise npa, nxx and route go out in that order. */
    method AddNumber(npa: string, nxx: string, route: Option<string>, transport: Transport, parse: Parser)
      returns (r: Result<Outcome, ValidationError>)
      requires kind == Provisioning
      ensures r == Failure(InvalidNpaNxx) <==> !ValidNpa(npa) || !ValidNxx(nxx)
      ensures r == Failure(InvalidRoute) <==> ValidNpa(npa) && ValidNxx(nxx) && (route.None? || Blank(route.value))
      ensures r.Success? <==> ValidNpa(npa) && ValidNxx(nxx) && route.Some? && !Blank(route.value)
      ensures r.Success? ==> r.value == Sent("AddNumber", [Arg("npa", npa), Arg("nxx", nxx), Arg("route", route.value)], Output, transport, parse)
    {
      r := Perform(AddNumberCall(npa, nxx, route), transport, parse);
    }

    /** `RemoveNumber`: refused unless the number is a valid 10-digit number;
        otherwise sent in 'status' mode. */
    method RemoveNumber(number: string, transport: Transport, parse: Parser)
      returns (r: Result<Outcome, ValidationError>)
      requires kind == Provisioning
      ensures r.Failure? <==> !ValidNumber(number)
      ensures r.Failure? ==> r.error == InvalidNumber
      ensures r.Success? ==> r.value == Sent("RemoveNumber", [Arg("number", number)], Status, transport, parse)
      ensures r.Success? ==> r.value.Summary?
    {
      r := Perform(RemoveNumberCall(number), transport, parse);
    }
  }
}
