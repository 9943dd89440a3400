/** The referral resource service: it rebuilds its header list before every call, derives
    the acting user from the stored token where the endpoint is scoped to that user, sends
    one request, and answers `response.data || response`; every failure shows one error
    toast and is rethrown unchanged. */
module ReferralApi {
  import opened Wrappers
  import opened Strings
  import opened Json
  import opened Gateway

  const BaseUrl := "http://localhost:3200"

  const GivenFailed := "Failed to fetch given referrals"
  const ReceivedFailed := "Failed to fetch received referrals"
  const InsideFailed := "Failed to fetch inside users"
  const OutsideFailed := "Failed to fetch outside users"
  const CreateFailed := "Failed to create referral"
  const UpdateFailed := "Failed to update referral"
  const DeleteFailed := "Failed to delete referral"
  const StatsFailed := "Failed to fetch referral statistics"

  function GivenReferralsUrl(base: string, userId: string, page: int): string {
    base + "/mobile/get-given-referral/" + userId + "?page=" + IntText(page)
  }

  function ReceivedReferralsUrl(base: string, userId: string, page: int): string {
    base + "/mobile/get-received-referral/" + userId + "?page=" + IntText(page)
  }

  function InsideUsersUrl(base: string, page: int, limit: int): string {
    base + "/mobile/get-inside-users" + PageLimitQuery(page, limit)
  }

  function OutsideUsersUrl(base: string, page: int, limit: int): string {
    base + "/mobile/get-outside-users" + PageLimitQuery(page, limit)
  }

  function CreateReferralUrl(base: string): string {
    base + "/mobile/create-referral"
  }

  function UpdateReferralUrl(base: string, referralId: string): string {
    base + "/mobile/update-referral/" + referralId
  }

  function DeleteReferralUrl(base: string, referralId: string): string {
    base + "/mobile/delete-referral/" + referralId
  }

  function ReferralStatsUrl(base: string, userId: string): string {
    base + "/mobile/referral-stats/" + userId
  }

  /** The given and received lists carry only the page, so the page asked for is the page
      the URL names: two pages give two different URLs. */
  lemma ListUrlDeterminesPage(base: string, userId: string, page1: int, page2: int)
    ensures (GivenReferralsUrl(base, userId, page1) == GivenReferralsUrl(base, userId, page2)) ==> page1 == page2
    ensures (ReceivedReferralsUrl(base, userId, page1) == ReceivedReferralsUrl(base, userId, page2)) ==> page1 == page2
  {
    if GivenReferralsUrl(base, userId, page1) == GivenReferralsUrl(base, userId, page2) {
      CancelPrefix(base + "/mobile/get-given-referral/" + userId + "?page=", IntText(page1), IntText(page2));
      IntTextInjective(page1, page2);
    }
    if ReceivedReferralsUrl(base, userId, page1) == ReceivedReferralsUrl(base, userId, page2) {
      CancelPrefix(base + "/mobile/get-received-referral/" + userId + "?page=", IntText(page1), IntText(page2));
      IntTextInjective(page1, page2);
    }
  }

  /** The user lists carry page and limit; the URL determines both. */
  lemma UsersUrlDeterminesPageAndLimit(base: string, page1: int, limit1: int, page2: int, limit2: int)
    requires InsideUsersUrl(base, page1, limit1) == InsideUsersUrl(base, page2, limit2)
             || OutsideUsersUrl(base, page1, limit1) == OutsideUsersUrl(base, page2, limit2)
    ensures page1 == page2 && limit1 == limit2
  {
    if InsideUsersUrl(base, page1, limit1) == InsideUsersUrl(base, page2, limit2) {
      CancelPrefix(base + "/mobile/get-inside-users", PageLimitQuery(page1, limit1), PageLimitQuery(page2, limit2));
    } else {
      CancelPrefix(base + "/mobile/get-outside-users", PageLimitQuery(page1, limit1), PageLimitQuery(page2, limit2));
    }
    PageLimitQueryInjective(page1, limit1, page2, limit2);
  }

  /** The result of a sent request: the unwrapped response, or the rejection rethrown as is. */
  function Settled(reply: Reply): (c: Completion)
    ensures reply.Rejected? ==> c == Threw(reply.error)
    ensures reply.Resolved? && c.Threw? ==> Nullish(reply.response)
    ensures reply.Resolved? ==> c == Unwrap(reply.response)
  {
    match reply
    case Resolved(response) => Unwrap(response)
    case Rejected(error) => Threw(error)
  }

  /** The catch block's toast: one error toast with the method's fixed text on failure. */
  function FailureToasts(c: Completion, text: string): (t: seq<Toast>)
    ensures |t| == if c.Threw? then 1 else 0
    ensures c.Threw? ==> t[0] == Toast(Str(text), ErrorToast)
  {
    if c.Threw? then [Toast(Str(text), ErrorToast)] else []
  }

  /** `{...referralData, giver_id: userId}` */
  function WithGiver(referralData: Json, userId: Json): (r: Json)
    requires referralData.Obj?
    ensures r.Obj? && r.fields.Keys == referralData.fields.Keys + {"giver_id"}
    ensures Member(r, "giver_id") == Some(userId)
    ensures forall k :: k in referralData.fields && k != "giver_id" ==>
              r.fields[k] == referralData.fields[k]
  {
    WithField(referralData, "giver_id", userId)
  }

  class ReferralService {
    var headers: seq<Header>
    const baseUrl: string
    /** The requests handed to the API manager, oldest first. */
    ghost var sent: seq<Request>
    /** The toasts shown, oldest first. */
    ghost var toasts: seq<Toast>

    constructor ()
      ensures headers == [] && baseUrl == BaseUrl && sent == [] && toasts == []
    {
      headers := [];
      baseUrl := BaseUrl;
      sent := [];
      toasts := [];
    }

    /** One request sent and its reply settled, as after a successful identity lookup. */
    ghost predicate SentOnce(sent0: seq<Request>, toasts0: seq<Toast>, request: Request,
                             text: string, reply: Reply, c: Completion)
      reads this
    {
      sent == sent0 + [request] && c == Settled(reply) && toasts == toasts0 + FailureToasts(c, text)
    }

    /** Nothing sent: the identity error shown and rethrown. */
    ghost predicate Refused(sent0: seq<Request>, toasts0: seq<Toast>, error: Json,
                            text: string, c: Completion)
      reads this
    {
      sent == sent0 && c == Threw(error) && toasts == toasts0 + [Toast(Str(text), ErrorToast)]
    }

    /** `getHeaders`: reset, then one bearer entry when `token != null`; calls never pile up. */
    method GetHeaders(token: Option<string>)
      modifies this`headers
      ensures headers == NonNullAuthHeaders(token)
    {
      headers := [];
      if token.Some? {
        headers := headers + [BearerHeader(token.value)];
      }
    }

    method Send(request: Request, text: string, reply: Reply) returns (c: Completion)
      modifies this`sent, this`toasts
      ensures SentOnce(old(sent), old(toasts), request, text, reply, c)
    {
      sent := sent + [request];
      c := Settled(reply);
      if c.Threw? {
        toasts := toasts + [Toast(Str(text), ErrorToast)];
      }
    }

    method Refuse(error: Json, text: string) returns (c: Completion)
      modifies this`toasts
      ensures Refused(old(sent), old(toasts), error, text, c)
    {
      toasts := toasts + [Toast(Str(text), ErrorToast)];
      c := Threw(error);
    }

    method GetGivenReferrals(token: Option<string>, decode: Decoder, page: Option<int>, reply: Reply)
      returns (c: Completion)
      modifies this`headers, this`sent, this`toasts
      ensures headers == NonNullAuthHeaders(token)
      ensures var id := UserIdFromToken(token, decode);
              if id.Failure? then Refused(old(sent), old(toasts), id.error, GivenFailed, c)
              else SentOnce(old(sent), old(toasts),
                            Request(GivenReferralsUrl(baseUrl, Text(id.value), Default(page, 1)), GET, Null, headers),
                            GivenFailed, reply, c)
    {
      GetHeaders(token);
      var id := UserIdFromToken(token, decode);
      if id.Failure? {
        c := Refuse(id.error, GivenFailed);
      } else {
        var url := GivenReferralsUrl(baseUrl, Text(id.value), Default(page, 1));
        c := Send(Request(url, GET, Null, headers), GivenFailed, reply);
      }
    }

    method GetReceivedReferrals(token: Option<string>, decode: Decoder, page: Option<int>, reply: Reply)
      returns (c: Completion)
      modifies this`headers, this`sent, this`toasts
      ensures headers == NonNullAuthHeaders(token)
      ensures var id := UserIdFromToken(token, decode);
              if id.Failure? then Refused(old(sent), old(toasts), id.error, ReceivedFailed, c)
              else SentOnce(old(sent), old(toasts),
                            Request(ReceivedReferralsUrl(baseUrl, Text(id.value), Default(page, 1)), GET, Null, headers),
                            ReceivedFailed, reply, c)
    {
      GetHeaders(token);
      var id := UserIdFromToken(token, decode);
      if id.Failure? {
        c := Refuse(id.error, ReceivedFailed);
      } else {
        var url := ReceivedReferralsUrl(baseUrl, Text(id.value), Default(page, 1));
        c := Send(Request(url, GET, Null, headers), ReceivedFailed, reply);
      }
    }

    /** No identity lookup: the request goes out even without a token. */
    method GetInsideUsers(token: Option<string>, page: Option<int>, limit: Option<int>, reply: Reply)
      returns (c: Completion)
      modifies this`headers, this`sent, this`toasts
      ensures headers == NonNullAuthHeaders(token)
      ensures SentOnce(old(sent), old(toasts),
                       Request(InsideUsersUrl(baseUrl, Default(page, 1), Default(limit, 50)), GET, Null, headers),
                       InsideFailed, reply, c)
    {
      GetHeaders(token);
      var url := InsideUsersUrl(baseUrl, Default(page, 1), Default(limit, 50));
      c := Send(Request(url, GET, Null, headers), InsideFailed, reply);
    }

    method GetOutsideUsers(token: Option<string>, page: Option<int>, limit: Option<int>, reply: Reply)
      returns (c: Completion)
      modifies this`headers, this`sent, this`toasts
      ensures headers == NonNullAuthHeaders(token)
      ensures SentOnce(old(sent), old(toasts),
                       Request(OutsideUsersUrl(baseUrl, Default(page, 1), Default(limit, 50)), GET, Null, headers),
                       OutsideFailed, reply, c)
    {
      GetHeaders(token);
      var url := OutsideUsersUrl(baseUrl, Default(page, 1), Default(limit, 50));
      c := Send(Request(url, GET, Null, headers), OutsideFailed, reply);
    }

    /** The caller's `giver_id`, if any, is replaced by the token's user id. */
    method CreateReferral(token: Option<string>, decode: Decoder, referralData: Json, reply: Reply)
      returns (c: Completion)
      requires referralData.Obj?
      modifies this`headers, this`sent, this`toasts
      ensures headers == NonNullAuthHeaders(token)
      ensures var id := UserIdFromToken(token, decode);
              if id.Failure? then Refused(old(sent), old(toasts), id.error, CreateFailed, c)
              else SentOnce(old(sent), old(toasts),
                            Request(CreateReferralUrl(baseUrl), POST, WithGiver(referralData, id.value), headers),
                            CreateFailed, reply, c)
    {
      GetHeaders(token);
      var id := UserIdFromToken(token, decode);
      if id.Failure? {
        c := Refuse(id.error, CreateFailed);
      } else {
        var requestData := WithGiver(referralData, id.value);
        c := Send(Request(CreateReferralUrl(baseUrl), POST, requestData, headers), CreateFailed, reply);
      }
    }

    method UpdateReferral(token: Option<string>, referralId: string, referralData: Json, reply: Reply)
      returns (c: Completion)
      modifies this`headers, this`sent, this`toasts
      ensures headers == NonNullAuthHeaders(token)
      ensures SentOnce(old(sent), old(toasts),
                       Request(UpdateReferralUrl(baseUrl, referralId), PUT, referralData, headers),
                       UpdateFailed, reply, c)
    {
      GetHeaders(token);
      c := Send(Request(UpdateReferralUrl(baseUrl, referralId), PUT, referralData, headers), UpdateFailed, reply);
    }

    method DeleteReferral(token: Option<string>, referralId: string, reply: Reply)
      returns (c: Completion)
      modifies this`headers, this`sent, this`toasts
      ensures headers == NonNullAuthHeaders(token)
      ensures SentOnce(old(sent), old(toasts),
                       Request(DeleteReferralUrl(baseUrl, referralId), DELETE, Null, headers),
                       DeleteFailed, reply, c)
    {
      GetHeaders(token);
      c := Send(Request(DeleteReferralUrl(baseUrl, referralId), DELETE, Null, headers), DeleteFailed, reply);
    }

    method GetReferralStats(token: Option<string>, decode: Decoder, reply: Reply)
      returns (c: Completion)
      modifies this`headers, this`sent, this`toasts
      ensures headers == NonNullAuthHeaders(token)
      ensures var id := UserIdFromToken(token, decode);
              if id.Failure? then Refused(old(sent), old(toasts), id.error, StatsFailed, c)
              else SentOnce(old(sent), old(toasts),
                            Request(ReferralStatsUrl(baseUrl, Text(id.value)), GET, Null, headers),
                            StatsFailed, reply, c)
    {
      GetHeaders(token);
      var id := UserIdFromToken(token, decode);
      if id.Failure? {
        c := Refuse(id.error, StatsFailed);
      } else {
        c := Send(Request(ReferralStatsUrl(baseUrl, Text(id.value)), GET, Null, headers), StatsFailed, reply);
      }
    }
  }
}
