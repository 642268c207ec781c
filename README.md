# VTWhite API client: a Dafny model

This project models the string logic inside the PHP client for VTWhite's XML-over-HTTP provisioning API (`vtwhiteapi.php`). The client's transport and XML parsing are left abstract. The model covers:

- **Request serialiser** (`VTWhiteAPI::_create_xml_request`). The `<packet>` envelope holds the credentials, the remote function name and one `<key>value</key>` line per argument, appended in a loop. Nothing is escaped. It is modelled by the specification function `Request.Packet` and the method `Client.ApiClient.CreateXmlRequest`, whose loop carries the prefix written so far as its invariant. A reader, `Request.DecodePacket`, shows that the text gives back the credentials, the function name and the ordered argument list when they contain no markup characters. A second lemma shows that with markup in a value, two different argument lists can serialise to the same text.
- **Numeric-tag normaliser** (the two `preg_replace` calls in `parse_response`). Each call is modelled by `Tags.Rewrite`, a left-to-right scan with one pass for `<N>` and one for `</N>`. `Tags.Normalize` runs both passes in the source's order. Element names cannot start with a digit (XML 1.0, section 2.3, the Name production), so the service's `<1>…</1>` children are renamed `<result_1>…</result_1>`. A match holds `<` only as its first character, so normalisation works piece by piece on markup (`Tags.NormalizeConcat`). A numeric element is renamed around its normalised content (`Tags.NormalizeElement`), a named element keeps its tags (`Tags.NormalizeNamedElement`), and text without markup is unchanged (`Tags.NormalizePlain`). Together these describe normalisation of any element tree, at any depth.
- **Input checks** of `VTWhiteProvisioningAPI::GetNumbers`, `AddNumber` and `RemoveNumber`. The anchored PCRE patterns are modelled as sequences of character ranges. Each check is a function that returns either the call the PHP code goes on to make or a `ValidationError` where the PHP code calls `die`. `Checks.Message` holds each `die` text.
- **Status interpretation** in `send`. `'status'` mode returns true, the error text, or null. `'output'` mode returns the parsed `data` node unchanged.
- **Constructors.** Credentials are stored only when both are given. The test flag picks one of two fixed URIs per subclass. The three PHP classes become one class, `Client.ApiClient`, whose `kind` field records which PHP class was constructed.

Files: `wrappers.dfy` (Option, Result), `text.dfy` (digits, `strtoupper`, `trim`), `request.dfy`, `tags.dfy`, `response.dfy`, `checks.dfy`, `client.dfy`.

The anchors follow the code as written. The PHP `$` without the `D` modifier also matches just before one final newline, so `"2025551234\n"` passes `RemoveNumber`'s check and the newline goes into the request (`Checks.TrailingNewlineAccepted`).

## Model

| member | source | states |
|---|---|---|
| Request.Packet | vtwhiteapi.php:107-124 | The request opens with the header (`<packet>\n  <auth>\n    <user>` + user + `</user>\n    <pass>` + pass + `</pass>\n  </auth>\n  <function>` + function + `</function>\n  <data>\n`, lines 109-115) and closes with `  </data>\n</packet>` (lines 122-123); with no arguments it is exactly the header followed by the footer |
| Request.LinesSnoc | vtwhiteapi.php:117-120 | Appending one argument to the list appends exactly its line `    <k>v</k>\n` to the argument lines |
| Request.DecodeLinesRoundTrip | vtwhiteapi.php:117-120 | For keys without `<`/`>` and values without `<`, the argument lines followed by the footer read back as the same argument list: one line per argument, in order, values verbatim |
| Request.PacketRoundTrip | vtwhiteapi.php:107-124 | For markup-free credentials, function name, keys and values, the whole request reads back as exactly those credentials, that function name and that ordered argument list |
| Request.UnescapedValueInjects | vtwhiteapi.php:119 | Values are interpolated unescaped: a value that closes its element and opens others yields the same text as a list of three arguments |
| Client.ApiClient.CreateXmlRequest | vtwhiteapi.php:107-125 | The loop's result is the header (unset credentials as empty text), one line per argument in iteration order, then the footer |
| Tags.Rewrite | vtwhiteapi.php:98-99 | One `preg_replace` pass (line 98 for `<N>`, line 99 for `</N>`): the result is never shorter than the input and starts with the same character |
| Tags.RewriteTag | vtwhiteapi.php:98-99 | A bare `<D>` (opening pass) or `</D>` (closing pass), D a non-empty digit run, becomes `<result_D>` / `</result_D>` and the scan resumes right after it |
| Tags.RewriteLeavesNoTag | vtwhiteapi.php:98-99 | After a pass no tag of its kind is left anywhere; on text with no tag of the other kind, a pass creates none |
| Tags.RewriteConcat | vtwhiteapi.php:98-99 | A pass over `p + q`, where `q` is empty or starts with `<`, is the pass over `p` followed by the pass over `q`: no match straddles a point just before a `<` |
| Tags.RewriteFixedIff | vtwhiteapi.php:98-99 | A pass returns its input unchanged if and only if the input contains no bare numeric tag of its kind |
| Tags.Normalize | vtwhiteapi.php:98-99 | The opening pass, then the closing pass; the result contains no `<N>` and no `</N>` with N all digits |
| Tags.NormalizeConcat | vtwhiteapi.php:98-99 | Normalising `p + q`, where `q` is empty or starts with `<`, normalises `p` and `q` separately |
| Tags.NormalizeFixedIff | vtwhiteapi.php:98-99 | Text is left unchanged by normalisation if and only if it holds no bare numeric opening or closing tag |
| Tags.NormalizeIdempotent | vtwhiteapi.php:98-99 | Normalising twice equals normalising once |
| Tags.NormalizeElement | vtwhiteapi.php:90-99 | `<D>inner</D>` with D digits becomes `<result_D>` + normalised inner + `</result_D>`, whatever `inner` holds, including nested numeric elements |
| Tags.NormalizeNamedElement | vtwhiteapi.php:90-99 | An element whose name does not start with a digit (such as `data`) keeps both tags, and its content is normalised in place |
| Tags.NormalizePlain | vtwhiteapi.php:98-99 | Text without `<` is unchanged by normalisation |
| Tags.NormalizeNestedInData | vtwhiteapi.php:90-99 | `<data><D1><D2>x</D2></D1></data>` becomes `<data><result_D1><result_D2>x</result_D2></result_D1></data>`: `data` and the text are kept, both numeric levels are renamed |
| Response.UpperIsTrue | vtwhiteapi.php:69 | `strtoupper(s) == 'TRUE'` holds exactly when s is "true" in any mix of cases |
| Response.Interpret | vtwhiteapi.php:67-78 | Status mode gives true iff `success` is "true" case-insensitively; else the error text iff `error` is non-empty; else null; a reply the parser rejects gives null |
| Response.Deliver | vtwhiteapi.php:63-78 | 'output' mode returns the data node unchanged; 'status' mode returns a summary that is true exactly when `success` is "true" in any case, null exactly when it is not and `error` is empty or there is no node, and otherwise the `error` text itself (the summary is exactly `Interpret`'s) |
| Response.ParseResponse | vtwhiteapi.php:83-103 | The reply is normalised and then parsed; a reply with no bare numeric tag reaches the parser unchanged |
| Client.ApiClient.Send | vtwhiteapi.php:42-79 | The result is what the transport returns for the serialised request, after normalisation and parsing, returned as the data node in output mode or as the status decision in status mode |
| Checks.GetNumbersCall | vtwhiteapi.php:176-183 | Refused iff none of the keys npa, nxx, state is present; otherwise the call is `GetNumbers` with the arguments unchanged, in output mode |
| Checks.AddNumberCall | vtwhiteapi.php:187-198 | Refused with the NPA/NXX error iff the NPA is not `[2-9][0-8][0-9]` or the NXX is not `[2-9][0-9]{2}`; otherwise refused with the route error iff the route is unset or blank after trimming; otherwise the call is `AddNumber` with npa, nxx, route in that order, unchanged |
| Checks.RemoveNumberCall | vtwhiteapi.php:202-209 | Refused iff the number fails the 10-digit pattern; otherwise the call is `RemoveNumber` with the single argument number, in status mode |
| Checks.ValidNumberShape | vtwhiteapi.php:204 | The number pattern accepts exactly ten digits (optionally one trailing newline) whose first is 2-9, second 0-8, fourth 2-9 |
| Checks.ValidNumberSplits | vtwhiteapi.php:204 | A 10-character number is valid iff it is a valid NPA, then a valid NXX, then four digits |
| Checks.TrailingNewlineAccepted | vtwhiteapi.php:204 | A valid number followed by one newline also passes and is sent; two newlines or a trailing space do not pass |
| Checks.SampleCalls | vtwhiteapi.php:176-209 | "2025551234" passes and "1025551234" is refused; ("205", "555", route) passes and "105" is refused; an empty GetNumbers argument list is refused and one with npa passes |
| Text.TrimEmptyIff | vtwhiteapi.php:193 | `trim(route) == ''` holds exactly when every character is one `trim` strips (space, tab, newline, carriage return, NUL, vertical tab) |
| Client.ApiClient.GetNumbers | vtwhiteapi.php:176-183 | Refused exactly when no search key is present; otherwise the result of sending `GetNumbers` with the arguments unchanged in output mode |
| Client.ApiClient.AddNumber | vtwhiteapi.php:187-198 | The two refusals in the source's order; the call is sent exactly when the NPA and NXX are valid and the route is set and not blank, and then the result is that of sending npa, nxx, route in output mode |
| Client.ApiClient.RemoveNumber | vtwhiteapi.php:202-209 | Refused exactly when the number is invalid; otherwise the status decision for `RemoveNumber` with the number |
| Client.ApiClient.constructor | vtwhiteapi.php:31-38 | Credentials are stored only when both are given (otherwise left unset); the endpoint is the subclass's test URI iff the test flag is set (lines 169-170, 222-223), none for the base class |
| Client.EndpointDetermines | vtwhiteapi.php:169-170 | The four endpoint URIs are distinct: the subclass and the test flag are determined by the endpoint chosen |

## Left out

- `_curl_php`, `_curl_unix` and the `curl_method` dispatch with its `die` (lines 47-58, 129-155) are network and process I/O. The transport is a function parameter from (endpoint, request text) to reply text. A failing `curl_exec` returns false, which PHP turns into the empty reply.
- `simplexml_load_string` and `->data` (lines 101-102) are a foreign XML parser. The parser is a function parameter. The `data` node is seen only through its `success` and `error` children; its other children pass through untouched and are not modelled. A missing child reads as the empty string.
- The `function_exists` guards (lines 85-88, 139-142) check the runtime environment and have no domain logic.
- `die` is modelled as a `ValidationError` result, not as process termination.
- `VTWhite911API::Query`, `Update`, `Validate` and `Remove` have empty bodies, so there is no behaviour to model.
- `send` called with a `$return` other than `'output'` or `'status'` returns null. The source never does this, and `Response.ReturnMode` has only the two values.
- Arguments are modelled as strings in iteration order. PHP arrays can also hold integer keys and non-string values, and keys in a PHP array are unique. The sequence model allows duplicate keys.
- PCRE is modelled only for patterns built from single-character classes, which is all the source uses.
- `strtoupper` is modelled as ASCII-only (`Text.Upper`), as in PHP 8.2 and later. Locale-dependent case mapping is not modelled.
- PHP emits a notice when it interpolates an unset property. The model covers only the empty text that results (`Client.Interpolated`).
