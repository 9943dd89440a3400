/** The "TYFCB" (thank-you-for-closed-business) page: the same given/received tab list and
    pager as the referrals page, a detail modal, and the slip modal whose receiver list
    depends on whether the receiver is in the chapter. */
module TyfcbslipPage {
  import opened Wrappers
  import opened Json
  import opened Gateway
  import opened Pagination
  import opened Listing
  import opened Forms

  /** A service call the page makes. */
  datatype Call =
    | GivenPage(page: int, limit: int)
    | ReceivedPage(page: int, limit: int)
    | Detail(tyfcbId: string)
    | InsideUsers(page: int, limit: int)
    | OutsideUsers(page: int, limit: int)
    | Create(request: TyfcbRequest)

  function PageCall(tab: Tab, page: int, limit: int): Call {
    if tab == Given then GivenPage(page, limit) else ReceivedPage(page, limit)
  }

  const ItemsPerPage := 10
  const UsersPageSize := 50
  const InvalidFormText := "Please fill all required fields correctly"
  const InChapter := "inChapter"
  const OutsideChapter := "outside"

  /** The slip form as the constructor builds it (the empty amount is None). */
  const InitialSlip := TyfcbDraft(Some(InChapter), Some(""), None, Some("INR"), Some("Inside"), Some("New"), Some(""))

  /** The slip form after `reset()` and the patch that opening the modal applies. */
  const OpenedSlip := TyfcbDraft(Some(InChapter), None, Some(0), Some("INR"), Some("Inside"), Some("New"), None)

  /** The TYFCBs a load leaves behind: the response's `docs` when that is an array,
      otherwise none (also when the request failed or the response was nullish). */
  function LoadedDocs(reply: Reply): (docs: seq<Json>)
    ensures reply.Resolved? && OptMember(reply.response, "docs").Arr? ==>
              docs == OptMember(reply.response, "docs").items
    ensures !(reply.Resolved? && OptMember(reply.response, "docs").Arr?) ==> docs == []
  {
    if reply.Rejected? || Nullish(reply.response) then []
    else ArrayItems(Member(reply.response, "docs").value)
  }

  /** The receivers `loadAvailableUsers` offers for a receiver type: the in-chapter list
      reads `data`, the outside list `docs`; any other type makes no request and keeps the
      current list. */
  function UsersFor(receiverType: Option<string>, reply: Reply, current: seq<Json>): (users: seq<Json>)
    ensures receiverType != Some(InChapter) && receiverType != Some(OutsideChapter) ==> users == current
    ensures receiverType == Some(InChapter) || receiverType == Some(OutsideChapter) ==>
              var key := if receiverType == Some(InChapter) then "data" else "docs";
              && (reply.Resolved? && OptMember(reply.response, key).Arr? ==> users == OptMember(reply.response, key).items)
              && (!(reply.Resolved? && OptMember(reply.response, key).Arr?) ==> users == [])
  {
    if receiverType != Some(InChapter) && receiverType != Some(OutsideChapter) then current
    else if reply.Rejected? || Nullish(reply.response) then []
    else ArrayItems(Member(reply.response, if receiverType == Some(InChapter) then "data" else "docs").value)
  }

  /** The call `loadAvailableUsers` makes for a receiver type, if any. */
  function UsersCall(receiverType: Option<string>): (calls: seq<Call>)
    ensures receiverType == Some(InChapter) ==> calls == [InsideUsers(1, UsersPageSize)]
    ensures receiverType == Some(OutsideChapter) ==> calls == [OutsideUsers(1, UsersPageSize)]
    ensures calls == [] <==> receiverType != Some(InChapter) && receiverType != Some(OutsideChapter)
  {
    if receiverType == Some(InChapter) then [InsideUsers(1, UsersPageSize)]
    else if receiverType == Some(OutsideChapter) then [OutsideUsers(1, UsersPageSize)]
    else []
  }

  /** The referral type a receiver type selects, if it selects one. */
  function ReferralTypeFor(receiverType: string, current: Option<string>): (t: Option<string>)
    ensures receiverType == InChapter ==> t == Some("Inside")
    ensures receiverType == OutsideChapter ==> t == Some("Outside")
    ensures receiverType != InChapter && receiverType != OutsideChapter ==> t == current
  {
    if receiverType == InChapter then Some("Inside")
    else if receiverType == OutsideChapter then Some("Outside")
    else current
  }

  /** The record the detail modal shows: the first element of an array response (undefined
      for an empty one), otherwise the response itself. */
  function DetailOf(response: Json): (r: Json)
    ensures response.Arr? && |response.items| > 0 ==> r == response.items[0]
    ensures response.Arr? && |response.items| == 0 ==> r == Undefined
    ensures !response.Arr? ==> r == response
  {
    if response.Arr? then (if |response.items| > 0 then response.items[0] else Undefined)
    else response
  }

  /** `tyfcb.receiverId?.name || 'Unknown'` */
  function ReceiverName(tyfcb: Json): (name: Json)
    requires !Nullish(tyfcb)
    ensures Truthy(name)
    ensures Truthy(OptMember(OptMember(tyfcb, "receiverId"), "name")) ==>
              name == OptMember(OptMember(tyfcb, "receiverId"), "name")
    ensures !Truthy(OptMember(OptMember(tyfcb, "receiverId"), "name")) ==> name == Str("Unknown")
  {
    Or(OptMember(Member(tyfcb, "receiverId").value, "name"), Str("Unknown"))
  }

  class TyfcbslipComponent {
    var activeTab: Tab
    var givenTyfcbs: seq<Json>
    var receivedTyfcbs: seq<Json>
    var isLoading: bool
    var currentPage: int
    var totalPages: int
    var showDetailModal: bool
    var showTyfcbSlipModal: bool
    var selectedTyfcb: Json
    var slip: TyfcbDraft
    var availableUsers: seq<Json>
    var showMemberSelect: bool
    /** Service calls made, oldest first. */
    ghost var calls: seq<Call>
    /** Toasts the page itself showed. */
    ghost var toasts: seq<Toast>

    ghost predicate Valid()
      reads this
    {
      currentPage >= 1 && totalPages >= 1
    }

    constructor ()
      ensures Valid()
      ensures activeTab == Given && currentPage == 1 && totalPages == 1
      ensures givenTyfcbs == [] && receivedTyfcbs == [] && availableUsers == []
      ensures !isLoading && !showDetailModal && !showTyfcbSlipModal && !showMemberSelect
      ensures selectedTyfcb == Null && slip == InitialSlip
      ensures calls == [] && toasts == []
    {
      activeTab := Given;
      givenTyfcbs := [];
      receivedTyfcbs := [];
      isLoading := false;
      currentPage := 1;
      totalPages := 1;
      showDetailModal := false;
      showTyfcbSlipModal := false;
      selectedTyfcb := Null;
      slip := InitialSlip;
      availableUsers := [];
      showMemberSelect := false;
      calls := [];
      toasts := [];
    }

    /** The list the page shows is the active tab's. */
    function CurrentTyfcbs(): (list: seq<Json>)
      reads this
      ensures activeTab == Given ==> list == givenTyfcbs
      ensures activeTab == Received ==> list == receivedTyfcbs
    {
      if activeTab == Given then givenTyfcbs else receivedTyfcbs
    }

    method LoadGivenTyfcbs(reply: Reply)
      requires PagedReply(reply)
      modifies this`givenTyfcbs, this`totalPages, this`calls
      ensures calls == old(calls) + [GivenPage(currentPage, ItemsPerPage)]
      ensures givenTyfcbs == LoadedDocs(reply)
      ensures totalPages == LoadedPages(reply, old(totalPages))
    {
      calls := calls + [GivenPage(currentPage, ItemsPerPage)];
      if reply.Rejected? || Nullish(reply.response) {
        givenTyfcbs := [];
      } else {
        givenTyfcbs := ArrayItems(Member(reply.response, "docs").value);
        totalPages := PagesOr1(Member(reply.response, "totalPages").value);
      }
    }

    method LoadReceivedTyfcbs(reply: Reply)
      requires PagedReply(reply)
      modifies this`receivedTyfcbs, this`totalPages, this`calls
      ensures calls == old(calls) + [ReceivedPage(currentPage, ItemsPerPage)]
      ensures receivedTyfcbs == LoadedDocs(reply)
      ensures totalPages == LoadedPages(reply, old(totalPages))
    {
      calls := calls + [ReceivedPage(currentPage, ItemsPerPage)];
      if reply.Rejected? || Nullish(reply.response) {
        receivedTyfcbs := [];
      } else {
        receivedTyfcbs := ArrayItems(Member(reply.response, "docs").value);
        totalPages := PagesOr1(Member(reply.response, "totalPages").value);
      }
    }

    /** Loads the active tab's current page; the other tab's list is left as it was. */
    method LoadActiveTabData(reply: Reply)
      requires Valid() && PagedReply(reply)
      modifies this`givenTyfcbs, this`receivedTyfcbs, this`totalPages, this`isLoading, this`calls
      ensures Valid() && !isLoading
      ensures calls == old(calls) + [PageCall(activeTab, currentPage, ItemsPerPage)]
      ensures CurrentTyfcbs() == LoadedDocs(reply)
      ensures activeTab == Given ==> receivedTyfcbs == old(receivedTyfcbs)
      ensures activeTab == Received ==> givenTyfcbs == old(givenTyfcbs)
      ensures totalPages == LoadedPages(reply, old(totalPages))
    {
      isLoading := true;
      if activeTab == Given {
        LoadGivenTyfcbs(reply);
      } else {
        LoadReceivedTyfcbs(reply);
      }
      isLoading := false;
    }

    method SwitchTab(tab: Tab, reply: Reply)
      requires Valid() && PagedReply(reply)
      modifies this`activeTab, this`currentPage, this`givenTyfcbs, this`receivedTyfcbs,
               this`totalPages, this`isLoading, this`calls
      ensures Valid() && !isLoading
      ensures activeTab == tab && currentPage == 1
      ensures calls == old(calls) + [PageCall(tab, 1, ItemsPerPage)]
      ensures CurrentTyfcbs() == LoadedDocs(reply)
      ensures tab == Given ==> receivedTyfcbs == old(receivedTyfcbs)
      ensures tab == Received ==> givenTyfcbs == old(givenTyfcbs)
      ensures totalPages == LoadedPages(reply, old(totalPages))
    {
      activeTab := tab;
      currentPage := 1;
      LoadActiveTabData(reply);
    }

    /** A page outside 1..totalPages is ignored; any other becomes current and is loaded. */
    method GoToPage(page: int, reply: Reply)
      requires Valid() && PagedReply(reply)
      modifies this`currentPage, this`givenTyfcbs, this`receivedTyfcbs,
               this`totalPages, this`isLoading, this`calls
      ensures Valid()
      ensures !PageAccepted(page, old(totalPages)) ==> unchanged(this)
      ensures PageAccepted(page, old(totalPages)) ==>
                && currentPage == page && !isLoading
                && calls == old(calls) + [PageCall(activeTab, page, ItemsPerPage)]
                && CurrentTyfcbs() == LoadedDocs(reply)
                && (activeTab == Given ==> receivedTyfcbs == old(receivedTyfcbs))
                && (activeTab == Received ==> givenTyfcbs == old(givenTyfcbs))
                && totalPages == LoadedPages(reply, old(totalPages))
    {
      if page >= 1 && page <= totalPages {
        currentPage := page;
        LoadActiveTabData(reply);
      }
    }

    /** The pager's links: up to two pages either side of the current one. */
    method PaginationPages() returns (pages: seq<int>)
      ensures pages == Window(currentPage, totalPages)
      ensures forall p :: p in pages ==> PageAccepted(p, totalPages)
    {
      pages := PageNumbers(currentPage, totalPages);
      PagerLinksAreAccepted(currentPage, totalPages);
    }

    /** Fills the receiver list for the form's current receiver type. */
    method LoadAvailableUsers(reply: Reply)
      modifies this`availableUsers, this`calls
      ensures calls == old(calls) + UsersCall(slip.receiverType)
      ensures availableUsers == UsersFor(slip.receiverType, reply, old(availableUsers))
    {
      var receiverType := slip.receiverType;
      if receiverType == Some(InChapter) {
        calls := calls + [InsideUsers(1, UsersPageSize)];
        availableUsers := if reply.Rejected? || Nullish(reply.response) then []
                          else ArrayItems(Member(reply.response, "data").value);
      } else if receiverType == Some(OutsideChapter) {
        calls := calls + [OutsideUsers(1, UsersPageSize)];
        availableUsers := if reply.Rejected? || Nullish(reply.response) then []
                          else ArrayItems(Member(reply.response, "docs").value);
      }
    }

    /** Opens the slip modal on the default form (in-chapter, amount 0, INR) and loads the
        in-chapter receivers. */
    method OpenTyfcbSlip(users: Reply)
      modifies this`slip, this`showMemberSelect, this`availableUsers, this`showTyfcbSlipModal, this`calls
      ensures slip == OpenedSlip && !TyfcbDraftValid(slip)
      ensures !showMemberSelect && showTyfcbSlipModal
      ensures calls == old(calls) + [InsideUsers(1, UsersPageSize)]
      ensures availableUsers == UsersFor(Some(InChapter), users, [])
    {
      slip := OpenedSlip;
      showMemberSelect := false;
      availableUsers := [];
      showTyfcbSlipModal := true;
      LoadAvailableUsers(users);
    }

    /** A receiver-type change: the chosen receiver is cleared, the member select shown, the
        receivers reloaded for the form's receiver type, and the referral type follows the
        selected value. */
    method OnReceiverTypeChange(selected: string, users: Reply)
      modifies this`slip, this`showMemberSelect, this`availableUsers, this`calls
      ensures slip == old(slip).(receiverId := Some(""),
                                 referralType := ReferralTypeFor(selected, old(slip).referralType))
      ensures !TyfcbDraftValid(slip)
      ensures showMemberSelect
      ensures calls == old(calls) + UsersCall(old(slip).receiverType)
      ensures availableUsers == UsersFor(old(slip).receiverType, users, old(availableUsers))
    {
      slip := slip.(receiverId := Some(""));
      showMemberSelect := true;
      LoadAvailableUsers(users);
      slip := slip.(referralType := ReferralTypeFor(selected, slip.referralType));
    }

    /** A fetched record is shown; a failed fetch changes nothing. */
    method OpenDetailModal(tyfcbId: string, reply: Reply)
      modifies this`selectedTyfcb, this`showDetailModal, this`calls
      ensures calls == old(calls) + [Detail(tyfcbId)]
      ensures reply.Resolved? ==> selectedTyfcb == DetailOf(reply.response) && showDetailModal
      ensures reply.Rejected? ==> selectedTyfcb == old(selectedTyfcb) && showDetailModal == old(showDetailModal)
    {
      calls := calls + [Detail(tyfcbId)];
      if reply.Resolved? {
        selectedTyfcb := DetailOf(reply.response);
        showDetailModal := true;
      }
    }

    method CloseDetailModal()
      modifies this`showDetailModal, this`selectedTyfcb
      ensures !showDetailModal && selectedTyfcb == Null
    {
      showDetailModal := false;
      selectedTyfcb := Null;
    }

    /** Closing the slip drops the receiver list but keeps the form's values. */
    method CloseTyfcbSlipModal()
      modifies this`showTyfcbSlipModal, this`availableUsers
      ensures !showTyfcbSlipModal && availableUsers == []
    {
      showTyfcbSlipModal := false;
      availableUsers := [];
    }

    /** An invalid form only shows an error toast. A valid one is sent; when the service
        accepts it the modal closes and the active tab reloads, when it fails nothing else
        happens. */
    method OnSubmitTyfcbSlip(created: Reply, reloaded: Reply)
      requires Valid() && PagedReply(reloaded)
      modifies this`showTyfcbSlipModal, this`availableUsers, this`givenTyfcbs, this`receivedTyfcbs,
               this`totalPages, this`isLoading, this`calls, this`toasts
      ensures Valid() && slip == old(slip)
      ensures !TyfcbDraftValid(slip) ==>
                && toasts == old(toasts) + [Toast(Str(InvalidFormText), ErrorToast)]
                && unchanged(this`showTyfcbSlipModal, this`availableUsers, this`givenTyfcbs, this`receivedTyfcbs,
                             this`totalPages, this`isLoading, this`calls)
      ensures TyfcbDraftValid(slip) && created.Rejected? ==>
                && calls == old(calls) + [Create(TyfcbRequestOf(slip))]
                && unchanged(this`showTyfcbSlipModal, this`availableUsers, this`givenTyfcbs, this`receivedTyfcbs,
                             this`totalPages, this`isLoading, this`toasts)
      ensures TyfcbDraftValid(slip) && created.Resolved? ==>
                && calls == old(calls) + [Create(TyfcbRequestOf(slip)), PageCall(activeTab, currentPage, ItemsPerPage)]
                && !showTyfcbSlipModal && availableUsers == [] && !isLoading
                && CurrentTyfcbs() == LoadedDocs(reloaded)
                && (activeTab == Given ==> receivedTyfcbs == old(receivedTyfcbs))
                && (activeTab == Received ==> givenTyfcbs == old(givenTyfcbs))
                && totalPages == LoadedPages(reloaded, old(totalPages))
                && toasts == old(toasts)
    {
      if !TyfcbDraftValid(slip) {
        toasts := toasts + [Toast(Str(InvalidFormText), ErrorToast)];
        return;
      }
      calls := calls + [Create(TyfcbRequestOf(slip))];
      if created.Resolved? {
        CloseTyfcbSlipModal();
        LoadActiveTabData(reloaded);
      }
    }
  }
}
