/**
 * What `VTWhiteAPI::send` makes of the service's answer: the raw text is
 * normalised (see module Tags), handed to the XML parser, and its `data` node
 * is either returned as it is ('output' mode) or boiled down to true, the
 * error text, or nothing ('status' mode).
 */
module Response {
  import opened Wrappers
  import opened Text
  import Tags

  /** The parsed `data` node, seen through the two children `send` reads.
      Its other children are passed through untouched and are not modelled. */
  datatype DataNode = DataNode(success: string, error: string)

  /** The `$return` argument of `send`. */
  datatype ReturnMode = Output | Status

  /** What 'status' mode returns: PHP `TRUE`, the error string, or null. */
  datatype StatusValue = True | ErrorText(text: string) | Nothing

  /** What `send` returns, by mode. */
  datatype Outcome = Parsed(node: Option<DataNode>) | Summary(status: StatusValue)

  /** `success` is "true" in any mix of upper and lower case. */
  predicate IsTrueWord(s: string) {
    && |s| == 4
    && (s[0] == 't' || s[0] == 'T')
    && (s[1] == 'r' || s[1] == 'R')
    && (s[2] == 'u' || s[2] == 'U')
    && (s[3] == 'e' || s[3] == 'E')
  }

  /** `strtoupper($s) == 'TRUE'` is a case-insensitive comparison with "true". */
  lemma UpperIsTrue(s: string)
    ensures Upper(s) == "TRUE" <==> IsTrueWord(s)
  {
    if IsTrueWord(s) {
      assert Upper(s) == [UpperChar(s[0]), UpperChar(s[1]), UpperChar(s[2]), UpperChar(s[3])];
    } else if Upper(s) == "TRUE" {
      assert UpperChar(s[0]) == 'T' && UpperChar(s[1]) == 'R';
    }
  }

  /** The 'status' decision. A node the parser could not produce (`simplexml_load_string`
      returned false) reads as empty `success` and `error`, and so gives null. */
  function Interpret(node: Option<DataNode>): (r: StatusValue)
    ensures r == True <==> node.Some? && IsTrueWord(node.value.success)
    ensures r.ErrorText? <==> node.Some? && !IsTrueWord(node.value.success) && node.value.error != ""
    ensures r.ErrorText? ==> r.text == node.value.error
    ensures r == Nothing <==> node.None? || (!IsTrueWord(node.value.success) && node.value.error == "")
  {
    match node
    case None => Nothing
    case Some(n) =>
      UpperIsTrue(n.success);
      if Upper(n.success) == "TRUE" then True
      else if n.error != "" then ErrorText(n.error)
      else Nothing
  }

  /** The tail of `send`: the data node itself, or its status summary. */
  function Deliver(mode: ReturnMode, node: Option<DataNode>): (r: Outcome)
    ensures r.Parsed? <==> mode == Output
    ensures r.Parsed? ==> r.node == node
    ensures r.Summary? ==> (r.status == True <==> node.Some? && IsTrueWord(node.value.success))
    ensures r.Summary? ==> (r.status == Nothing <==> node.None? || (!IsTrueWord(node.value.success) && node.value.error == ""))
    ensures r.Summary? ==> r.status == Interpret(node)
  {
    match mode
    case Output => Parsed(node)
    case Status => Summary(Interpret(node))
  }

  /** `parse_response`: normalise the numeric tags, then parse. `parse` stands for
      `simplexml_load_string` followed by `->data`. A reply without numeric tags
      reaches the parser unchanged. */
  function ParseResponse(raw: string, parse: string -> Option<DataNode>): (r: Option<DataNode>)
    ensures Tags.NoTag(raw, Tags.Opening) && Tags.NoTag(raw, Tags.Closing) ==> r == parse(raw)
  {
    Tags.NormalizeFixedIff(raw);
    parse(Tags.Normalize(raw))
  }
}
