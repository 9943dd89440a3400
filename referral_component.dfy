/** The older "Referral" page: given/received lists stored as whole paged responses, the
    add-referral modal with a nested `referral_status` group, and star and avatar helpers. */
module ReferralPage {
  import opened Wrappers
  import opened Strings
  import opened Json
  import opened Gateway
  import opened Forms

  /** A referral-service call the page makes; the list calls leave the page size to the
      service's default. */
  datatype Call =
    | GivenPage(page: int)
    | ReceivedPage(page: int)
    | InsideUsers(page: int, limit: int)
    | OutsideUsers(page: int, limit: int)
    | Create(request: ReferralRequest)

  const UsersPage := 1
  const UsersLimit := 50
  const GivenFailedText := "Failed to load given referrals"
  const ReceivedFailedText := "Failed to load received referrals"
  const UsersFailedText := "Failed to load users"
  const CreatedText := "Referral created successfully"
  const CreateFailedText := "Failed to create referral"
  const DefaultAvatar := "/assets/default-avatar.png"

  /** The placeholder response both lists start from. */
  const EmptyReferralPage := Obj(map[
    "success" := Bool(false), "message" := Str(""), "data" := Arr([]),
    "totalDocs" := Num(0), "totalPages" := Num(1), "page" := Num(1),
    "hasPrevPage" := Bool(false), "hasNextPage" := Bool(false),
    "prevPage" := Null, "nextPage" := Null])

  /** The form as the constructor builds it. */
  const InitialForm := ReferralDraft(Some(""), Some("inside"), Some(false), Some(false),
                                     Some(""), Some(""), Some(""), Some(""), Some(""), Some(1))

  /** The form after `openAddForm`: `reset()` and the patch each change `referral_type`,
      and the subscription on that control sets `receiver_id` back to ''. */
  const OpenedForm := ReferralDraft(Some(""), Some("inside"), Some(false), Some(false),
                                    None, None, None, None, None, Some(1))

  function TextValue(v: Option<string>): Json {
    if v.Some? then Str(v.value) else Null
  }

  function FlagValue(v: Option<bool>): Json {
    if v.Some? then Bool(v.value) else Null
  }

  function NumberValue(v: Option<int>): Json {
    if v.Some? then Num(v.value) else Null
  }

  /** The form group's `value`: the status flags inside the `referral_status` object. */
  function FormValue(d: ReferralDraft): (v: Json)
    ensures v.Obj? && "told_them_you_would_will" !in v.fields && "given_card" !in v.fields
    ensures OptMember(OptMember(v, "referral_status"), "told_them_you_would_will") == FlagValue(d.toldThemYouWould)
    ensures OptMember(OptMember(v, "referral_status"), "given_card") == FlagValue(d.givenCard)
  {
    Obj(map[
      "receiver_id" := TextValue(d.receiverId),
      "referral_type" := TextValue(d.referralType),
      "referral_status" := Obj(map[
        "told_them_you_would_will" := FlagValue(d.toldThemYouWould),
        "given_card" := FlagValue(d.givenCard)]),
      "referral" := TextValue(d.referral),
      "mobile_number" := TextValue(d.mobileNumber),
      "address" := TextValue(d.address),
      "comments" := TextValue(d.comments),
      "business_name" := TextValue(d.businessName),
      "rating" := NumberValue(d.rating)])
  }

  /** The request `onSubmitReferral` builds as written: it looks for the two flags at the
      top level of the form value, where they never are, and falls back to false. */
  function RequestAsWritten(d: ReferralDraft): (r: ReferralRequest)
    requires ReferralDraftValid(d)
    ensures !r.toldThemYouWould && !r.givenCard
  {
    var value := FormValue(d);
    ReferralRequest(
      d.receiverId.value, d.referralType.value,
      Truthy(Or(OptMember(value, "told_them_you_would_will"), Bool(false))),
      Truthy(Or(OptMember(value, "given_card"), Bool(false))),
      OrEmpty(d.referral), d.mobileNumber.value, OrEmpty(d.address),
      OrEmpty(d.comments), OrEmpty(d.businessName), d.rating.value)
  }

  /** As written, the request differs from the intended one only in the status flags,
      which are both false whatever was checked. */
  lemma AsWrittenDropsStatusFlags(d: ReferralDraft)
    requires ReferralDraftValid(d)
    ensures RequestAsWritten(d) == ReferralRequestOf(d).(toldThemYouWould := false, givenCard := false)
  {
  }

  /** A form with both boxes checked: the request as written disagrees with it. */
  lemma CheckedFlagsAreLost()
    ensures var d := ReferralDraft(Some("u1"), Some("inside"), Some(true), Some(true), None,
                                   Some("9876543210"), None, None, None, Some(4));
            ReferralDraftValid(d) && RequestAsWritten(d) != ReferralRequestOf(d)
  {
    var d := ReferralDraft(Some("u1"), Some("inside"), Some(true), Some(true), None,
                           Some("9876543210"), None, None, None, Some(4));
    assert TenDigits("9876543210");
    AsWrittenDropsStatusFlags(d);
  }

  /** The corrected request takes each flag from the `referral_status` group, where the
      form keeps it. */
  lemma RequestReadsStatusGroup(d: ReferralDraft)
    requires ReferralDraftValid(d)
    ensures Bool(ReferralRequestOf(d).toldThemYouWould)
              == OptMember(OptMember(FormValue(d), "referral_status"), "told_them_you_would_will")
    ensures Bool(ReferralRequestOf(d).givenCard)
              == OptMember(OptMember(FormValue(d), "referral_status"), "given_card")
  {
  }

  /** `'★'.repeat(rating) + '☆'.repeat(5 - rating)`: a RangeError when either count is
      negative, that is outside 0..5. */
  function RatingStars(rating: int): (r: Result<string, Json>)
    ensures r.Success? <==> 0 <= rating <= 5
  {
    if rating < 0 then Failure(JsError("Invalid count value: " + IntText(rating)))
    else if 5 - rating < 0 then Failure(JsError("Invalid count value: " + IntText(5 - rating)))
    else Success(Repeat('★', rating) + Repeat('☆', 5 - rating))
  }

  /** Five stars, the first `rating` of them filled. */
  lemma RatingStarsShape(rating: int)
    requires 0 <= rating <= 5
    ensures |RatingStars(rating).value| == 5
    ensures forall i :: 0 <= i < 5 ==> (RatingStars(rating).value[i] == '★' <==> i < rating)
    ensures forall i :: 0 <= i < 5 ==> (RatingStars(rating).value[i] == '☆' <==> rating <= i)
  {
    var s := RatingStars(rating).value;
    assert s == Repeat('★', rating) + Repeat('☆', 5 - rating);
    forall i | 0 <= i < 5
      ensures s[i] == (if i < rating then '★' else '☆')
    {
      if i < rating {
        assert s[i] == Repeat('★', rating)[i];
      } else {
        assert s[i] == Repeat('☆', 5 - rating)[i - rating];
      }
    }
  }

  class ReferralComponent {
    var activeTab: string
    var loading: bool
    var showAddForm: bool
    var givenReferrals: Json
    var receivedReferrals: Json
    var insideUsers: Json
    var outsideUsers: Json
    var selectedUsers: Json
    var currentPage: int
    const imageUrl: string
    var form: ReferralDraft
    /** Controls marked as touched. */
    var touched: set<string>
    /** Service calls made, oldest first. */
    ghost var calls: seq<Call>
    /** Toasts the page itself showed. */
    ghost var toasts: seq<Toast>

    /** `imageUrl` comes from the environment configuration. */
    constructor (imageUrl: string)
      ensures this.imageUrl == imageUrl
      ensures activeTab == "given" && !loading && !showAddForm && currentPage == 1
      ensures givenReferrals == EmptyReferralPage && receivedReferrals == EmptyReferralPage
      ensures insideUsers == Arr([]) && outsideUsers == Arr([]) && selectedUsers == Arr([])
      ensures form == InitialForm && touched == {}
      ensures calls == [] && toasts == []
    {
      this.imageUrl := imageUrl;
      activeTab := "given";
      loading := false;
      showAddForm := false;
      givenReferrals := EmptyReferralPage;
      receivedReferrals := EmptyReferralPage;
      insideUsers := Arr([]);
      outsideUsers := Arr([]);
      selectedUsers := Arr([]);
      currentPage := 1;
      form := InitialForm;
      touched := {};
      calls := [];
      toasts := [];
    }

    /** The response the page shows: the given one only on the "given" tab. */
    function CurrentReferrals(): (page: Json)
      reads this
      ensures activeTab == "given" ==> page == givenReferrals
      ensures activeTab != "given" ==> page == receivedReferrals
    {
      if activeTab == "given" then givenReferrals else receivedReferrals
    }

    /** A missing path shows the default avatar; any other is appended to the image host. */
    function ImageUrl(path: Json): (url: string)
      ensures !Truthy(path) ==> url == DefaultAvatar
      ensures Truthy(path) ==> |url| >= |imageUrl| && url[..|imageUrl|] == imageUrl
                                && url[|imageUrl|..] == Text(path)
    {
      if !Truthy(path) then DefaultAvatar else imageUrl + Text(path)
    }

    /** The whole response replaces the list; a failure keeps the stale one and shows a toast. */
    method LoadGivenReferrals(page: int, reply: Reply)
      modifies this`givenReferrals, this`loading, this`calls, this`toasts
      ensures calls == old(calls) + [GivenPage(page)] && !loading
      ensures reply.Resolved? ==> givenReferrals == reply.response && toasts == old(toasts)
      ensures reply.Rejected? ==> givenReferrals == old(givenReferrals)
                                  && toasts == old(toasts) + [Toast(Str(GivenFailedText), ErrorToast)]
    {
      loading := true;
      calls := calls + [GivenPage(page)];
      if reply.Resolved? {
        givenReferrals := reply.response;
      } else {
        toasts := toasts + [Toast(Str(GivenFailedText), ErrorToast)];
      }
      loading := false;
    }

    method LoadReceivedReferrals(page: int, reply: Reply)
      modifies this`receivedReferrals, this`loading, this`calls, this`toasts
      ensures calls == old(calls) + [ReceivedPage(page)] && !loading
      ensures reply.Resolved? ==> receivedReferrals == reply.response && toasts == old(toasts)
      ensures reply.Rejected? ==> receivedReferrals == old(receivedReferrals)
                                  && toasts == old(toasts) + [Toast(Str(ReceivedFailedText), ErrorToast)]
    {
      loading := true;
      calls := calls + [ReceivedPage(page)];
      if reply.Resolved? {
        receivedReferrals := reply.response;
      } else {
        toasts := toasts + [Toast(Str(ReceivedFailedText), ErrorToast)];
      }
      loading := false;
    }

    /** The dropdown offers the inside users only for the type "inside". */
    method UpdateUsersList(referralType: Option<string>)
      modifies this`selectedUsers
      ensures referralType == Some("inside") ==> selectedUsers == insideUsers
      ensures referralType != Some("inside") ==> selectedUsers == outsideUsers
    {
      selectedUsers := if referralType == Some("inside") then insideUsers else outsideUsers;
    }

    /** The subscription on `referral_type`: the dropdown follows the new type and the
        chosen receiver is cleared. */
    method OnReferralTypeChanged(referralType: Option<string>)
      modifies this`selectedUsers, this`form
      ensures referralType == Some("inside") ==> selectedUsers == insideUsers
      ensures referralType != Some("inside") ==> selectedUsers == outsideUsers
      ensures form == old(form).(receiverId := Some(""))
      ensures !ReferralDraftValid(form)
    {
      UpdateUsersList(referralType);
      form := form.(receiverId := Some(""));
    }

    /** Both user lists load together. A failed request or a nullish inside response changes
        nothing but a toast; a nullish outside response comes after the inside list was
        stored. */
    method LoadUsers(inside: Reply, outside: Reply)
      modifies this`insideUsers, this`outsideUsers, this`selectedUsers, this`calls, this`toasts
      ensures calls == old(calls) + [InsideUsers(UsersPage, UsersLimit), OutsideUsers(UsersPage, UsersLimit)]
      ensures inside.Rejected? || outside.Rejected? || Nullish(inside.response) ==>
                && unchanged(this`insideUsers, this`outsideUsers, this`selectedUsers)
                && toasts == old(toasts) + [Toast(Str(UsersFailedText), ErrorToast)]
      ensures inside.Resolved? && outside.Resolved? && !Nullish(inside.response) && Nullish(outside.response) ==>
                && insideUsers == Or(OptMember(inside.response, "docs"), Arr([]))
                && unchanged(this`outsideUsers, this`selectedUsers)
                && toasts == old(toasts) + [Toast(Str(UsersFailedText), ErrorToast)]
      ensures inside.Resolved? && outside.Resolved? && !Nullish(inside.response) && !Nullish(outside.response) ==>
                && insideUsers == Or(OptMember(inside.response, "docs"), Arr([]))
                && outsideUsers == Or(OptMember(outside.response, "docs"), Arr([]))
                && selectedUsers == (if Truthy(TextValue(form.referralType)) && form.referralType != Some("inside")
                                     then outsideUsers else insideUsers)
                && toasts == old(toasts)
    {
      calls := calls + [InsideUsers(UsersPage, UsersLimit), OutsideUsers(UsersPage, UsersLimit)];
      if inside.Rejected? || outside.Rejected? || Nullish(inside.response) {
        toasts := toasts + [Toast(Str(UsersFailedText), ErrorToast)];
        return;
      }
      insideUsers := Or(Member(inside.response, "docs").value, Arr([]));
      if Nullish(outside.response) {
        toasts := toasts + [Toast(Str(UsersFailedText), ErrorToast)];
        return;
      }
      outsideUsers := Or(Member(outside.response, "docs").value, Arr([]));
      var referralType := if Truthy(TextValue(form.referralType)) then form.referralType else Some("inside");
      UpdateUsersList(referralType);
    }

    /** Any tab other than "given" loads the received list; either way page 1. */
    method OnTabChange(tab: string, reply: Reply)
      modifies this`activeTab, this`currentPage, this`givenReferrals, this`receivedReferrals,
               this`loading, this`calls, this`toasts
      ensures activeTab == tab && currentPage == 1 && !loading
      ensures tab == "given" ==> calls == old(calls) + [GivenPage(1)] && receivedReferrals == old(receivedReferrals)
      ensures tab != "given" ==> calls == old(calls) + [ReceivedPage(1)] && givenReferrals == old(givenReferrals)
      ensures reply.Resolved? ==> CurrentReferrals() == reply.response
      ensures reply.Rejected? ==> CurrentReferrals() == old(if tab == "given" then givenReferrals else receivedReferrals)
    {
      activeTab := tab;
      currentPage := 1;
      if tab == "given" {
        LoadGivenReferrals(1, reply);
      } else {
        LoadReceivedReferrals(1, reply);
      }
    }

    /** Unlike the newer pages there is no range check: any page is made current and loaded. */
    method OnPageChange(page: int, reply: Reply)
      modifies this`currentPage, this`givenReferrals, this`receivedReferrals,
               this`loading, this`calls, this`toasts
      ensures currentPage == page && !loading
      ensures activeTab == "given" ==> calls == old(calls) + [GivenPage(page)] && receivedReferrals == old(receivedReferrals)
      ensures activeTab != "given" ==> calls == old(calls) + [ReceivedPage(page)] && givenReferrals == old(givenReferrals)
      ensures reply.Resolved? ==> CurrentReferrals() == reply.response
      ensures reply.Rejected? ==> CurrentReferrals() == old(CurrentReferrals())
    {
      currentPage := page;
      if activeTab == "given" {
        LoadGivenReferrals(page, reply);
      } else {
        LoadReceivedReferrals(page, reply);
      }
    }

    /** Opens the modal on a cleared form, with no control touched, offering the inside
        users. */
    method OpenAddForm()
      modifies this`showAddForm, this`form, this`touched, this`selectedUsers
      ensures showAddForm && form == OpenedForm && selectedUsers == insideUsers
      ensures touched == {}
      ensures !ReferralDraftValid(form)
    {
      showAddForm := true;
      form := OpenedForm;
      touched := {};
      UpdateUsersList(Some("inside"));
    }

    /** Closes the modal; the form keeps its values. */
    method CloseAddForm()
      modifies this`showAddForm
      ensures !showAddForm
    {
      showAddForm := false;
    }

    /** An invalid form marks its invalid controls touched and sends nothing. A valid one is
        sent as `RequestAsWritten` builds it, with both status flags false; on success a toast, the
        modal closes and the given list reloads at page 1, on failure an error toast. */
    method OnSubmitReferral(created: Reply, reloaded: Reply)
      modifies this`touched, this`loading, this`showAddForm, this`givenReferrals,
               this`currentPage, this`calls, this`toasts
      ensures form == old(form)
      ensures !ReferralDraftValid(form) ==>
                && touched == old(touched) + InvalidReferralControls(form)
                && unchanged(this`loading, this`showAddForm, this`givenReferrals,
                             this`currentPage, this`calls, this`toasts)
      ensures ReferralDraftValid(form) ==> touched == old(touched) && !loading
      ensures ReferralDraftValid(form) && created.Rejected? ==>
                && calls == old(calls) + [Create(RequestAsWritten(form))]
                && toasts == old(toasts) + [Toast(Str(CreateFailedText), ErrorToast)]
                && unchanged(this`showAddForm, this`givenReferrals, this`currentPage)
      ensures ReferralDraftValid(form) && created.Resolved? ==>
                && calls == old(calls) + [Create(RequestAsWritten(form)), GivenPage(1)]
                && !showAddForm && currentPage == 1
                && (reloaded.Resolved? ==>
                      (givenReferrals == reloaded.response
                       && toasts == old(toasts) + [Toast(Str(CreatedText), SuccessToast)]))
                && (reloaded.Rejected? ==>
                      (givenReferrals == old(givenReferrals)
                       && toasts == old(toasts) + [Toast(Str(CreatedText), SuccessToast),
                                                   Toast(Str(GivenFailedText), ErrorToast)]))
    {
      if !ReferralDraftValid(form) {
        touched := touched + InvalidReferralControls(form);
        return;
      }
      loading := true;
      calls := calls + [Create(RequestAsWritten(form))];
      if created.Resolved? {
        toasts := toasts + [Toast(Str(CreatedText), SuccessToast)];
        CloseAddForm();
        LoadGivenReferrals(1, reloaded);
        currentPage := 1;
      } else {
        toasts := toasts + [Toast(Str(CreateFailedText), ErrorToast)];
      }
      loading := false;
    }
  }
}
