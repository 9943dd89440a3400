/** The "Referrals" page: a given/received tab list with a five-link pager, and the
    connection-slip modal that creates a referral. The service calls the page makes are
    recorded in `calls`; what each call resolved to is a parameter of the handler. */
module ReferralsPage {
  import opened Wrappers
  import opened Json
  import opened Gateway
  import opened Pagination
  import opened Listing
  import opened Forms

  /** Whether the connection slip refers a member of the chapter or an outsider. */
  datatype Audience = Inside | Outside

  function AudienceName(a: Audience): string {
    if a == Inside then "inside" else "outside"
  }

  /** A referral-service call the page makes. */
  datatype Call =
    | GivenPage(page: int, limit: int)
    | ReceivedPage(page: int, limit: int)
    | InsideUsers(page: int, limit: int)
    | OutsideUsers(page: int, limit: int)
    | Create(request: ReferralRequest)

  function PageCall(tab: Tab, page: int, limit: int): Call {
    if tab == Given then GivenPage(page, limit) else ReceivedPage(page, limit)
  }

  const ItemsPerPage := 10
  const UsersPageSize := 100
  const InvalidFormText := "Please fill all required fields correctly"

  /** The slip form as the constructor builds it. */
  const InitialSlip := ReferralDraft(Some(""), Some("inside"), Some(false), Some(false),
                                     Some(""), Some(""), Some(""), Some(""), Some(""), Some(1))

  /** The slip form after `reset()` and the patch that opening the modal applies. */
  const OpenedSlip := ReferralDraft(None, Some("inside"), Some(false), Some(false),
                                    None, None, None, None, None, Some(1))

  /** The list a load leaves behind: the response's truthy `data`, otherwise an empty list
      (a falsy `data`, a nullish response or a failed request). */
  function LoadedList(reply: Reply): (list: Json)
    ensures Truthy(list)
    ensures reply.Resolved? && Truthy(OptMember(reply.response, "data")) ==>
              list == OptMember(reply.response, "data")
    ensures !(reply.Resolved? && Truthy(OptMember(reply.response, "data"))) ==> list == Arr([])
  {
    if reply.Rejected? || Nullish(reply.response) then Arr([])
    else Or(Member(reply.response, "data").value, Arr([]))
  }

  /** The user lists `loadUsers` leaves: each response's truthy `docs`, or both empty when
      either request fails or either response is nullish. */
  function LoadedUsers(inside: Reply, outside: Reply): (users: (Json, Json))
    ensures Truthy(users.0) && Truthy(users.1)
    ensures inside.Rejected? || outside.Rejected? ==> users == (Arr([]), Arr([]))
    ensures (inside.Resolved? && Nullish(inside.response)) || (outside.Resolved? && Nullish(outside.response)) ==>
              users == (Arr([]), Arr([]))
    ensures inside.Resolved? && outside.Resolved? && !Nullish(inside.response) && !Nullish(outside.response) ==>
              users == (Or(OptMember(inside.response, "docs"), Arr([])), Or(OptMember(outside.response, "docs"), Arr([])))
  {
    if inside.Rejected? || outside.Rejected? || Nullish(inside.response) || Nullish(outside.response) then
      (Arr([]), Arr([]))
    else
      (Or(Member(inside.response, "docs").value, Arr([])), Or(Member(outside.response, "docs").value, Arr([])))
  }

  /** The name of a referral's receiver: the id itself when it is a string, otherwise the
      populated receiver's name, or "Unknown" when that is missing or empty. */
  function ReceiverName(referral: Json): (name: Json)
    requires !Nullish(referral)
    ensures OptMember(referral, "receiver_id").Str? ==> name == OptMember(referral, "receiver_id")
    ensures !OptMember(referral, "receiver_id").Str? ==> Truthy(name)
    ensures !OptMember(referral, "receiver_id").Str? && !Truthy(OptMember(OptMember(referral, "receiver_id"), "name")) ==>
              name == Str("Unknown")
    ensures !OptMember(referral, "receiver_id").Str? && Truthy(OptMember(OptMember(referral, "receiver_id"), "name")) ==>
              name == OptMember(OptMember(referral, "receiver_id"), "name")
  {
    var receiver := Member(referral, "receiver_id").value;
    if receiver.Str? then receiver else Or(OptMember(receiver, "name"), Str("Unknown"))
  }

  /** `referral.giver_id?.name || 'Unknown'` */
  function GiverName(referral: Json): (name: Json)
    requires !Nullish(referral)
    ensures Truthy(name)
    ensures Truthy(OptMember(OptMember(referral, "giver_id"), "name")) ==>
              name == OptMember(OptMember(referral, "giver_id"), "name")
    ensures !Truthy(OptMember(OptMember(referral, "giver_id"), "name")) ==> name == Str("Unknown")
  {
    Or(OptMember(Member(referral, "giver_id").value, "name"), Str("Unknown"))
  }

  class ReferralsComponent {
    var activeTab: Tab
    var givenReferrals: Json
    var receivedReferrals: Json
    var insideUsers: Json
    var outsideUsers: Json
    var isLoading: bool
    var isLoadingUsers: bool
    var currentPage: int
    var totalPages: int
    var showConnectionSlip: bool
    var slip: ReferralDraft
    var selectedReferralType: Audience
    /** Service calls made, oldest first. */
    ghost var calls: seq<Call>
    /** Toasts the page itself showed. */
    ghost var toasts: seq<Toast>

    /** The pager always has a current page and at least one page. */
    ghost predicate Valid()
      reads this
    {
      currentPage >= 1 && totalPages >= 1
    }

    constructor ()
      ensures Valid()
      ensures activeTab == Given && currentPage == 1 && totalPages == 1
      ensures givenReferrals == Arr([]) && receivedReferrals == Arr([])
      ensures insideUsers == Arr([]) && outsideUsers == Arr([])
      ensures !isLoading && !isLoadingUsers && !showConnectionSlip
      ensures slip == InitialSlip && selectedReferralType == Inside
      ensures calls == [] && toasts == []
    {
      activeTab := Given;
      givenReferrals := Arr([]);
      receivedReferrals := Arr([]);
      insideUsers := Arr([]);
      outsideUsers := Arr([]);
      isLoading := false;
      isLoadingUsers := false;
      currentPage := 1;
      totalPages := 1;
      showConnectionSlip := false;
      slip := InitialSlip;
      selectedReferralType := Inside;
      calls := [];
      toasts := [];
    }

    /** The list the page shows is the active tab's. */
    function CurrentReferrals(): (list: Json)
      reads this
      ensures activeTab == Given ==> list == givenReferrals
      ensures activeTab == Received ==> list == receivedReferrals
    {
      if activeTab == Given then givenReferrals else receivedReferrals
    }

    /** The receivers offered are those of the selected audience. */
    function AvailableUsers(): (users: Json)
      reads this
      ensures selectedReferralType == Inside ==> users == insideUsers
      ensures selectedReferralType == Outside ==> users == outsideUsers
    {
      if selectedReferralType == Inside then insideUsers else outsideUsers
    }

    /** The other party of a referral: the receiver on the given tab, the giver on the
        received tab. */
    function ConnectionName(referral: Json): (name: Json)
      requires !Nullish(referral)
      reads this
      ensures activeTab == Given ==> name == ReceiverName(referral)
      ensures activeTab == Received ==> name == GiverName(referral) && Truthy(name)
    {
      if activeTab == Given then ReceiverName(referral) else GiverName(referral)
    }

    method LoadGivenReferrals(reply: Reply)
      requires PagedReply(reply)
      modifies this`givenReferrals, this`totalPages, this`calls
      ensures calls == old(calls) + [GivenPage(currentPage, ItemsPerPage)]
      ensures givenReferrals == LoadedList(reply)
      ensures totalPages == LoadedPages(reply, old(totalPages))
    {
      calls := calls + [GivenPage(currentPage, ItemsPerPage)];
      if reply.Rejected? || Nullish(reply.response) {
        givenReferrals := Arr([]);
      } else {
        givenReferrals := Or(Member(reply.response, "data").value, Arr([]));
        totalPages := PagesOr1(Member(reply.response, "totalPages").value);
      }
    }

    method LoadReceivedReferrals(reply: Reply)
      requires PagedReply(reply)
      modifies this`receivedReferrals, this`totalPages, this`calls
      ensures calls == old(calls) + [ReceivedPage(currentPage, ItemsPerPage)]
      ensures receivedReferrals == LoadedList(reply)
      ensures totalPages == LoadedPages(reply, old(totalPages))
    {
      calls := calls + [ReceivedPage(currentPage, ItemsPerPage)];
      if reply.Rejected? || Nullish(reply.response) {
        receivedReferrals := Arr([]);
      } else {
        receivedReferrals := Or(Member(reply.response, "data").value, Arr([]));
        totalPages := PagesOr1(Member(reply.response, "totalPages").value);
      }
    }

    /** Loads the active tab's current page; the other tab's list is left as it was. */
    method LoadActiveTabData(reply: Reply)
      requires Valid() && PagedReply(reply)
      modifies this`givenReferrals, this`receivedReferrals, this`totalPages, this`isLoading, this`calls
      ensures Valid() && !isLoading
      ensures calls == old(calls) + [PageCall(activeTab, currentPage, ItemsPerPage)]
      ensures CurrentReferrals() == LoadedList(reply)
      ensures activeTab == Given ==> receivedReferrals == old(receivedReferrals)
      ensures activeTab == Received ==> givenReferrals == old(givenReferrals)
      ensures totalPages == LoadedPages(reply, old(totalPages))
    {
      isLoading := true;
      if activeTab == Given {
        LoadGivenReferrals(reply);
      } else {
        LoadReceivedReferrals(reply);
      }
      isLoading := false;
    }

    method SwitchTab(tab: Tab, reply: Reply)
      requires Valid() && PagedReply(reply)
      modifies this`activeTab, this`currentPage, this`givenReferrals, this`receivedReferrals,
               this`totalPages, this`isLoading, this`calls
      ensures Valid() && !isLoading
      ensures activeTab == tab && currentPage == 1
      ensures calls == old(calls) + [PageCall(tab, 1, ItemsPerPage)]
      ensures CurrentReferrals() == LoadedList(reply)
      ensures tab == Given ==> receivedReferrals == old(receivedReferrals)
      ensures tab == Received ==> givenReferrals == old(givenReferrals)
      ensures totalPages == LoadedPages(reply, old(totalPages))
    {
      activeTab := tab;
      currentPage := 1;
      LoadActiveTabData(reply);
    }

    /** A page outside 1..totalPages is ignored; any other becomes current and is loaded. */
    method GoToPage(page: int, reply: Reply)
      requires Valid() && PagedReply(reply)
      modifies this`currentPage, this`givenReferrals, this`receivedReferrals,
               this`totalPages, this`isLoading, this`calls
      ensures Valid()
      ensures !PageAccepted(page, old(totalPages)) ==> unchanged(this)
      ensures PageAccepted(page, old(totalPages)) ==>
                && currentPage == page && !isLoading
                && calls == old(calls) + [PageCall(activeTab, page, ItemsPerPage)]
                && CurrentReferrals() == LoadedList(reply)
                && (activeTab == Given ==> receivedReferrals == old(receivedReferrals))
                && (activeTab == Received ==> givenReferrals == old(givenReferrals))
                && totalPages == LoadedPages(reply, old(totalPages))
    {
      if page >= 1 && page <= totalPages {
        currentPage := page;
        LoadActiveTabData(reply);
      }
    }

    /** The pager's links: up to two pages either side of the current one. */
    method PaginationPages() returns (pages: seq<int>)
      ensures pages == Window(currentPage, totalPages)
      ensures forall p :: p in pages ==> PageAccepted(p, totalPages)
    {
      pages := PageNumbers(currentPage, totalPages);
      PagerLinksAreAccepted(currentPage, totalPages);
    }

    /** Loads both receiver lists for the slip's dropdown. */
    method LoadUsers(inside: Reply, outside: Reply)
      modifies this`insideUsers, this`outsideUsers, this`isLoadingUsers, this`calls
      ensures calls == old(calls) + [InsideUsers(1, UsersPageSize), OutsideUsers(1, UsersPageSize)]
      ensures (insideUsers, outsideUsers) == LoadedUsers(inside, outside)
      ensures !isLoadingUsers
    {
      isLoadingUsers := true;
      calls := calls + [InsideUsers(1, UsersPageSize), OutsideUsers(1, UsersPageSize)];
      if inside.Rejected? || outside.Rejected? || Nullish(inside.response) || Nullish(outside.response) {
        insideUsers := Arr([]);
        outsideUsers := Arr([]);
      } else {
        insideUsers := Or(Member(inside.response, "docs").value, Arr([]));
        outsideUsers := Or(Member(outside.response, "docs").value, Arr([]));
      }
      isLoadingUsers := false;
    }

    /** Opens the modal on a cleared form that is not yet valid. */
    method OpenConnectionSlip()
      modifies this`showConnectionSlip, this`slip, this`selectedReferralType
      ensures showConnectionSlip && slip == OpenedSlip && selectedReferralType == Inside
      ensures !ReferralDraftValid(slip)
    {
      showConnectionSlip := true;
      slip := OpenedSlip;
      selectedReferralType := Inside;
    }

    method CloseConnectionSlip()
      modifies this`showConnectionSlip, this`slip
      ensures !showConnectionSlip && slip == ClearedReferralDraft
      ensures !ReferralDraftValid(slip)
    {
      showConnectionSlip := false;
      slip := ClearedReferralDraft;
    }

    /** Switching audience empties the chosen receiver, so the form needs a new one. */
    method OnReferralTypeChange(audience: Audience)
      modifies this`selectedReferralType, this`slip
      ensures selectedReferralType == audience
      ensures slip == old(slip).(referralType := Some(AudienceName(audience)), receiverId := Some(""))
      ensures !ReferralDraftValid(slip)
    {
      selectedReferralType := audience;
      slip := slip.(referralType := Some(AudienceName(audience)), receiverId := Some(""));
    }

    /** An invalid form only shows an error toast. A valid one is sent; when the service
        accepts it the modal closes and the active tab reloads, when it fails nothing else
        happens (the service shows its own toast). */
    method OnSubmitConnectionSlip(created: Reply, reloaded: Reply)
      requires Valid() && PagedReply(reloaded)
      modifies this`slip, this`showConnectionSlip, this`givenReferrals, this`receivedReferrals,
               this`totalPages, this`isLoading, this`calls, this`toasts
      ensures Valid()
      ensures !ReferralDraftValid(old(slip)) ==>
                && toasts == old(toasts) + [Toast(Str(InvalidFormText), ErrorToast)]
                && unchanged(this`slip, this`showConnectionSlip, this`givenReferrals, this`receivedReferrals,
                             this`totalPages, this`isLoading, this`calls)
      ensures ReferralDraftValid(old(slip)) && created.Rejected? ==>
                && calls == old(calls) + [Create(ReferralRequestOf(old(slip)))]
                && unchanged(this`slip, this`showConnectionSlip, this`givenReferrals, this`receivedReferrals,
                             this`totalPages, this`isLoading, this`toasts)
      ensures ReferralDraftValid(old(slip)) && created.Resolved? ==>
                && calls == old(calls) + [Create(ReferralRequestOf(old(slip))),
                                          PageCall(activeTab, currentPage, ItemsPerPage)]
                && !showConnectionSlip && slip == ClearedReferralDraft && !isLoading
                && CurrentReferrals() == LoadedList(reloaded)
                && (activeTab == Given ==> receivedReferrals == old(receivedReferrals))
                && (activeTab == Received ==> givenReferrals == old(givenReferrals))
                && totalPages == LoadedPages(reloaded, old(totalPages))
                && toasts == old(toasts)
    {
      if !ReferralDraftValid(slip) {
        toasts := toasts + [Toast(Str(InvalidFormText), ErrorToast)];
        return;
      }
      calls := calls + [Create(ReferralRequestOf(slip))];
      if created.Resolved? {
        CloseConnectionSlip();
        LoadActiveTabData(reloaded);
      }
    }

    /** Five stars, the first `rating` of them filled. */
    method GetRatingStars(rating: int) returns (stars: seq<string>)
      ensures |stars| == 5
      ensures forall i :: 0 <= i < 5 ==> stars[i] == (if i + 1 <= rating then "filled" else "empty")
    {
      stars := [];
      var i := 1;
      while i <= 5
        invariant 1 <= i <= 6 && |stars| == i - 1
        invariant forall k :: 0 <= k < i - 1 ==> stars[k] == (if k + 1 <= rating then "filled" else "empty")
      {
        stars := stars + [if i <= rating then "filled" else "empty"];
        i := i + 1;
      }
    }
  }
}
