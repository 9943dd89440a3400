/** The one-to-one meeting service: like the referral service it rebuilds its header list
    before every call (but only for a truthy token), and it announces every outcome with a
    toast: the server's message or a fixed text on success, the error's message or a fixed
    text on failure. */
module OneToOneApi {
  import opened Wrappers
  import opened Strings
  import opened Json
  import opened Gateway

  /** The four URL prefixes of the `oneToOne` endpoint group. */
  datatype Endpoints = Endpoints(create: string, byId: string, initiated: string, notInitiated: string)

  const CreatedText := "One-to-one meeting created successfully"
  const CreateFailedText := "Failed to create one-to-one meeting"
  const FetchedText := "One-to-one meeting fetched successfully"
  const FetchFailedText := "Failed to fetch one-to-one meeting"
  const InitiatedText := "Initiated one-to-one meetings fetched successfully"
  const InitiatedFailedText := "Failed to fetch initiated one-to-one meetings"
  const NotInitiatedText := "Not initiated one-to-one meetings fetched successfully"
  const NotInitiatedFailedText := "Failed to fetch not initiated one-to-one meetings"

  /** What a call ends with and the toasts it showed on the way. */
  datatype Outcome = Outcome(completion: Completion, toasts: seq<Toast>)

  /** The catch block: toast `error.message || fallback`, then rethrow the same error. Reading
      `message` of a null or undefined error throws a TypeError instead, before any toast. */
  function Caught(error: Json, fallback: string): (o: Outcome)
    ensures Nullish(error) ==> o == Outcome(Threw(TypeErrorReading(error, "message")), [])
    ensures !Nullish(error) ==>
              o.completion == Threw(error) && |o.toasts| == 1 && o.toasts[0].kind == ErrorToast
              && (fallback != "" ==> Truthy(o.toasts[0].text))
    ensures !Nullish(error) ==>
              o.toasts == [Toast(Or(OptMember(error, "message"), Str(fallback)), ErrorToast)]
  {
    match Member(error, "message")
    case None => Outcome(Threw(TypeErrorReading(error, "message")), [])
    case Some(message) => Outcome(Threw(error), [Toast(Or(message, Str(fallback)), ErrorToast)])
  }

  /** One settled request: success shows one toast with `response.message || okText` and
      returns `response.data || response`; a failure goes to the catch block. */
  function Announced(reply: Reply, okText: string, failText: string): (o: Outcome)
    requires okText != "" && failText != ""
    ensures o.completion.Returned? ==>
              reply.Resolved? && |o.toasts| == 1 && o.toasts[0].kind == SuccessToast
              && Truthy(o.toasts[0].text)
    ensures reply.Rejected? && !Nullish(reply.error) ==>
              o.completion == Threw(reply.error) && |o.toasts| == 1 && o.toasts[0].kind == ErrorToast
    ensures |o.toasts| <= 1
    ensures reply.Rejected? ==> o == Caught(reply.error, failText)
    ensures reply.Resolved? && Nullish(reply.response) ==>
              o == Caught(TypeErrorReading(reply.response, "message"), failText)
    ensures reply.Resolved? && !Nullish(reply.response) ==>
              && o.completion == Unwrap(reply.response) && o.completion.Returned?
              && o.toasts == [Toast(Or(OptMember(reply.response, "message"), Str(okText)), SuccessToast)]
  {
    match reply
    case Rejected(error) => Caught(error, failText)
    case Resolved(response) =>
      match Member(response, "message")
      case None => Caught(TypeErrorReading(response, "message"), failText)
      case Some(message) =>
        Outcome(Unwrap(response), [Toast(Or(message, Str(okText)), SuccessToast)])
  }

  /** `${prefix}/${userId}?page=${page}&limit=${limit}` */
  function MeetingsUrl(prefix: string, userId: string, page: int, limit: int): string {
    prefix + "/" + userId + PageLimitQuery(page, limit)
  }

  /** The URL names the page and the limit asked for. */
  lemma MeetingsUrlDeterminesPageAndLimit(prefix: string, userId: string, page1: int, limit1: int,
                                          page2: int, limit2: int)
    requires MeetingsUrl(prefix, userId, page1, limit1) == MeetingsUrl(prefix, userId, page2, limit2)
    ensures page1 == page2 && limit1 == limit2
  {
    CancelPrefix(prefix + "/" + userId, PageLimitQuery(page1, limit1), PageLimitQuery(page2, limit2));
    PageLimitQueryInjective(page1, limit1, page2, limit2);
  }

  /** `{...oneToOneData, initiatedBy: userId}` */
  function WithInitiator(oneToOneData: Json, userId: Json): (r: Json)
    requires oneToOneData.Obj?
    ensures r.Obj? && r.fields.Keys == oneToOneData.fields.Keys + {"initiatedBy"}
    ensures Member(r, "initiatedBy") == Some(userId)
    ensures forall k :: k in oneToOneData.fields && k != "initiatedBy" ==>
              r.fields[k] == oneToOneData.fields[k]
  {
    WithField(oneToOneData, "initiatedBy", userId)
  }

  /** The body `{ oneToOneId }` */
  function ByIdBody(oneToOneId: string): (b: Json)
    ensures b.Obj? && b.fields.Keys == {"oneToOneId"} && Member(b, "oneToOneId") == Some(Str(oneToOneId))
  {
    Obj(map["oneToOneId" := Str(oneToOneId)])
  }

  class OneToOneService {
    var headers: seq<Header>
    const endpoints: Endpoints
    ghost var sent: seq<Request>
    ghost var toasts: seq<Toast>

    constructor (endpoints: Endpoints)
      ensures headers == [] && this.endpoints == endpoints && sent == [] && toasts == []
    {
      headers := [];
      this.endpoints := endpoints;
      sent := [];
      toasts := [];
    }

    /** `getHeaders`: reset, then one bearer entry when the token is truthy. */
    method GetHeaders(token: Option<string>)
      modifies this`headers
      ensures headers == TruthyAuthHeaders(token)
    {
      headers := [];
      if TokenTruthy(token) {
        headers := headers + [BearerHeader(token.value)];
      }
    }

    method Send(request: Request, okText: string, failText: string, reply: Reply) returns (c: Completion)
      requires okText != "" && failText != ""
      modifies this`sent, this`toasts
      ensures sent == old(sent) + [request]
      ensures c == Announced(reply, okText, failText).completion
      ensures toasts == old(toasts) + Announced(reply, okText, failText).toasts
    {
      sent := sent + [request];
      var o := Announced(reply, okText, failText);
      toasts := toasts + o.toasts;
      c := o.completion;
    }

    /** Any caller's `initiatedBy` is replaced by the token's user id. */
    method CreateOneToOne(token: Option<string>, decode: Decoder, oneToOneData: Json, reply: Reply)
      returns (c: Completion)
      requires oneToOneData.Obj?
      modifies this`headers, this`sent, this`toasts
      ensures headers == TruthyAuthHeaders(token)
      ensures var id := UserIdFromToken(token, decode);
              if id.Failure? then
                sent == old(sent) && c == Caught(id.error, CreateFailedText).completion
                && toasts == old(toasts) + Caught(id.error, CreateFailedText).toasts
              else
                sent == old(sent) + [Request(endpoints.create, POST, WithInitiator(oneToOneData, id.value), headers)]
                && c == Announced(reply, CreatedText, CreateFailedText).completion
                && toasts == old(toasts) + Announced(reply, CreatedText, CreateFailedText).toasts
    {
      GetHeaders(token);
      var id := UserIdFromToken(token, decode);
      if id.Failure? {
        var o := Caught(id.error, CreateFailedText);
        toasts := toasts + o.toasts;
        c := o.completion;
      } else {
        var requestData := WithInitiator(oneToOneData, id.value);
        c := Send(Request(endpoints.create, POST, requestData, headers), CreatedText, CreateFailedText, reply);
      }
    }

    /** A POST of `{ oneToOneId }` to a fixed URL; no identity lookup. */
    method GetOneToOneById(token: Option<string>, oneToOneId: string, reply: Reply) returns (c: Completion)
      modifies this`headers, this`sent, this`toasts
      ensures headers == TruthyAuthHeaders(token)
      ensures sent == old(sent) + [Request(endpoints.byId, POST, ByIdBody(oneToOneId), headers)]
      ensures c == Announced(reply, FetchedText, FetchFailedText).completion
      ensures toasts == old(toasts) + Announced(reply, FetchedText, FetchFailedText).toasts
    {
      GetHeaders(token);
      c := Send(Request(endpoints.byId, POST, ByIdBody(oneToOneId), headers), FetchedText, FetchFailedText, reply);
    }

    method GetInitiatedOneToOne(token: Option<string>, userId: string, page: Option<int>, limit: Option<int>,
                                reply: Reply) returns (c: Completion)
      modifies this`headers, this`sent, this`toasts
      ensures headers == TruthyAuthHeaders(token)
      ensures sent == old(sent) + [Request(MeetingsUrl(endpoints.initiated, userId, Default(page, 1), Default(limit, 10)),
                                           GET, Null, headers)]
      ensures c == Announced(reply, InitiatedText, InitiatedFailedText).completion
      ensures toasts == old(toasts) + Announced(reply, InitiatedText, InitiatedFailedText).toasts
    {
      GetHeaders(token);
      var url := MeetingsUrl(endpoints.initiated, userId, Default(page, 1), Default(limit, 10));
      c := Send(Request(url, GET, Null, headers), InitiatedText, InitiatedFailedText, reply);
    }

    method GetNotInitiatedOneToOne(token: Option<string>, userId: string, page: Option<int>, limit: Option<int>,
                                   reply: Reply) returns (c: Completion)
      modifies this`headers, this`sent, this`toasts
      ensures headers == TruthyAuthHeaders(token)
      ensures sent == old(sent) + [Request(MeetingsUrl(endpoints.notInitiated, userId, Default(page, 1), Default(limit, 10)),
                                           GET, Null, headers)]
      ensures c == Announced(reply, NotInitiatedText, NotInitiatedFailedText).completion
      ensures toasts == old(toasts) + Announced(reply, NotInitiatedText, NotInitiatedFailedText).toasts
    {
      GetHeaders(token);
      var url := MeetingsUrl(endpoints.notInitiated, userId, Default(page, 1), Default(limit, 10));
      c := Send(Request(url, GET, Null, headers), NotInitiatedText, NotInitiatedFailedText, reply);
    }
  }
}
