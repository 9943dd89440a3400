/** What the resource services share: the request handed to the API manager, the bearer
    header, the user id read from the stored token, the oracle's reply and the
    `response.data || response` envelope fallback. */
module Gateway {
  import opened Wrappers
  import opened Strings
  import opened Json

  datatype HttpMethod = GET | POST | PUT | DELETE

  /** One `{Authorization, 'Content-Type'}` entry of the header list. */
  datatype Header = Header(authorization: string, contentType: string)

  /** One call of the API manager: target, method, body and header list. */
  datatype Request = Request(url: string, verb: HttpMethod, body: Json, headers: seq<Header>)

  /** What the network gives back for one request: the parsed response or a thrown error. */
  datatype Reply = Resolved(response: Json) | Rejected(error: Json)

  /** What a service method does for its caller: return a value or throw. */
  datatype Completion = Returned(value: Json) | Threw(error: Json)

  datatype ToastKind = SuccessToast | ErrorToast

  datatype Toast = Toast(text: Json, kind: ToastKind)

  /** `JSON.parse(atob(segment))`: None when either step throws. */
  type Decoder = string -> Option<Json>

  const NoTokenMessage := "No authentication token found"
  const InvalidTokenMessage := "Invalid authentication token"

  /** `if (token)` for a stored token: present and not the empty string. */
  predicate TokenTruthy(token: Option<string>) {
    token.Some? && token.value != ""
  }

  function BearerHeader(token: string): Header {
    Header("Bearer " + token, "application/json")
  }

  /** The header list the referral service builds: one bearer entry iff `token != null`. */
  function NonNullAuthHeaders(token: Option<string>): (h: seq<Header>)
    ensures |h| <= 1
    ensures h != [] <==> token.Some?
    ensures h != [] ==> h[0] == BearerHeader(token.value)
  {
    if token.Some? then [BearerHeader(token.value)] else []
  }

  /** The header list the one-to-one service builds: one bearer entry iff the token is truthy. */
  function TruthyAuthHeaders(token: Option<string>): (h: seq<Header>)
    ensures |h| <= 1
    ensures h != [] <==> TokenTruthy(token)
    ensures h != [] ==> h[0] == BearerHeader(token.value)
  {
    if TokenTruthy(token) then [BearerHeader(token.value)] else []
  }

  /** The two header policies agree except on the empty token, which the referral service
      still sends as `Bearer ` and for which both services then fail to find a user id. */
  lemma HeaderPoliciesDiffer(token: Option<string>, decode: Decoder)
    ensures NonNullAuthHeaders(token) == TruthyAuthHeaders(token) <==> token != Some("")
    ensures token == Some("") ==>
              NonNullAuthHeaders(token) == [Header("Bearer ", "application/json")]
              && TruthyAuthHeaders(token) == []
              && UserIdFromToken(token, decode) == Failure(JsError(NoTokenMessage))
  {
    assert "Bearer " + "" == "Bearer ";
  }

  /** `token.split('.')[1]` as `atob` receives it: a missing segment is `undefined`, which
      `atob` turns into the text "undefined". */
  function PayloadSegment(token: string): string {
    var parts := Split(token, '.');
    if |parts| > 1 then parts[1] else "undefined"
  }

  /** A token shaped header.payload.signature hands its middle part to the decoder. */
  lemma PayloadOfThreeParts(header: string, payload: string, signature: string)
    requires '.' !in header && '.' !in payload && '.' !in signature
    ensures PayloadSegment(header + "." + payload + "." + signature) == payload
  {
    SplitPiece(header, payload + "." + signature, '.');
    assert header + "." + payload + "." + signature == header + ['.'] + (payload + "." + signature);
    SplitPiece(payload, signature, '.');
    assert payload + "." + signature == payload + ['.'] + signature;
  }

  /** `getUserIdFromToken` (the same in both resource services): a missing or empty token
      and an undecodable one fail with two different errors; otherwise the payload's
      `userId`, which may be undefined. */
  function UserIdFromToken(token: Option<string>, decode: Decoder): (r: Result<Json, Json>)
    ensures !TokenTruthy(token) <==> r == Failure(JsError(NoTokenMessage))
    ensures TokenTruthy(token) && r.Failure? ==> r.error == JsError(InvalidTokenMessage)
    ensures r.Success? <==>
              TokenTruthy(token) && decode(PayloadSegment(token.value)).Some?
              && !Nullish(decode(PayloadSegment(token.value)).value)
    ensures r.Success? ==>
              Member(decode(PayloadSegment(token.value)).value, "userId") == Some(r.value)
  {
    assert NoTokenMessage[0] != InvalidTokenMessage[0];
    if !TokenTruthy(token) then Failure(JsError(NoTokenMessage))
    else
      match decode(PayloadSegment(token.value))
      case None => Failure(JsError(InvalidTokenMessage))
      case Some(payload) =>
        match Member(payload, "userId")
        case None => Failure(JsError(InvalidTokenMessage))
        case Some(id) => Success(id)
  }

  /** `response.data || response`: the payload of an envelope whose `data` is truthy, else
      the whole response; reading `data` of a null or undefined response throws. */
  function Unwrap(response: Json): (c: Completion)
    ensures c.Threw? <==> Nullish(response)
    ensures c.Threw? ==> c.error == TypeErrorReading(response, "data")
    ensures c.Returned? ==>
              (Truthy(OptMember(response, "data")) && c.value == OptMember(response, "data"))
              || (!Truthy(OptMember(response, "data")) && c.value == response)
  {
    match Member(response, "data")
    case None => Threw(TypeErrorReading(response, "data"))
    case Some(data) => Returned(Or(data, response))
  }

  /** The `?page=P&limit=L` query both services append to their paged user lists. */
  function PageLimitQuery(page: int, limit: int): string {
    "?page=" + IntText(page) + "&limit=" + IntText(limit)
  }

  /** The query names the page and the limit: different pairs give different queries. */
  lemma PageLimitQueryInjective(page1: int, limit1: int, page2: int, limit2: int)
    requires PageLimitQuery(page1, limit1) == PageLimitQuery(page2, limit2)
    ensures page1 == page2 && limit1 == limit2
  {
    var tail1, tail2 := "limit=" + IntText(limit1), "limit=" + IntText(limit2);
    var rest1, rest2 := IntText(page1) + ['&'] + tail1, IntText(page2) + ['&'] + tail2;
    assert PageLimitQuery(page1, limit1) == "?page=" + rest1;
    assert PageLimitQuery(page2, limit2) == "?page=" + rest2;
    CancelPrefix("?page=", rest1, rest2);
    CancelAtSeparator(IntText(page1), tail1, IntText(page2), tail2, '&');
    IntTextInjective(page1, page2);
    CancelPrefix("limit=", IntText(limit1), IntText(limit2));
    IntTextInjective(limit1, limit2);
  }

  /** `param = fallback` default for an optional numeric argument. */
  function Default(arg: Option<int>, fallback: int): int {
    if arg.Some? then arg.value else fallback
  }
}
