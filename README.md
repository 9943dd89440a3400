# Customer portal: paged lists, sidebar and resource services in Dafny

This project models the statable core of an Angular customer portal for a business-referral
network, and proves properties about that model. It covers:

- **Paged tab lists.** The referrals page (`ReferralsPage.ReferralsComponent`), the TYFCB
  ("thank you for closed business") page (`TyfcbslipPage.TyfcbslipComponent`) and the older
  referral page (`ReferralPage.ReferralComponent`). Each is a class whose methods update the
  same fields the component does: the active tab, the current page, the page count, one list
  per tab, loading flags, modal flags and the form. Each service call a handler makes is
  appended to a ghost `calls` log. What the call resolved to, or its rejection, is a `Reply`
  parameter of the handler. Toasts go to a ghost `toasts` log.
- **Pager and forms.** The five-link pager window (module `Pagination`) is a loop proved
  against a specification function. The shared load rules (`totalPages || 1`,
  `Array.isArray(x) ? x : []`, the range guard of `goToPage`) live in `Listing`. The forms'
  validators and the requests built from them live in `Forms`.
- **Sidebar.** The static menu table and the one-slot submenu toggle (`SideBarMenu`). The
  icon lookup, the route predicates, the body class and the mobile close rules (`SideBar`).
- **Resource services.** The referral service (`ReferralApi`) and the one-to-one meeting
  service (`OneToOneApi`). Each rebuilds its `headers` field before every call, derives the
  user id from the stored token, builds URLs and bodies, unwraps `response.data || response`,
  and toasts and rethrows on failure. Their shared pieces are in `Gateway`.

JavaScript values that the code handles untyped are the `Json` datatype: responses, records,
thrown errors. It also models truthiness, `||`, `?.`, property reads that throw on
null/undefined, object spread and template-literal text. `Option`/`Result` are in `Wrappers`,
and string helpers with a decimal round-trip are in `Strings`.

## Model

| member | source | states |
|---|---|---|
| Gateway.NonNullAuthHeaders | src/app/services/referral.service.ts:99-108 | At most one header: a bearer entry with the token exactly when a token is stored (`!= null`). |
| Gateway.TruthyAuthHeaders | src/app/services/growth-meet.service.ts:66-75 | At most one header: a bearer entry exactly when the token is truthy. |
| Gateway.HeaderPoliciesDiffer | src/app/services/referral.service.ts:102 | The two header policies agree on every token except the empty string. For it, the referral service sends `Bearer ` with no token, the one-to-one service sends nothing, and both fail the identity lookup with "No authentication token found". |
| Gateway.PayloadOfThreeParts | src/app/services/referral.service.ts:118 | For a token `header.payload.signature` without further dots, the decoder receives exactly the payload part. |
| Gateway.PayloadSegment | src/app/services/referral.service.ts:118 | The text `atob` receives: the token's second dot-separated part, or "undefined" for a token without a dot. `PayloadOfThreeParts` states it for a well-formed token. |
| Gateway.UserIdFromToken | src/app/services/referral.service.ts:110-123 | It fails with "No authentication token found" exactly for a missing or empty token. It fails with "Invalid authentication token" when decoding fails or the payload is null. Otherwise it returns the payload's `userId`. |
| Gateway.Unwrap | src/app/services/referral.service.ts:142 | It returns a truthy `data`, otherwise the whole response. It throws a TypeError exactly when the response is null or undefined. |
| Gateway.PageLimitQueryInjective | src/app/services/referral.service.ts:184 | Two equal `?page=P&limit=L` queries name the same page and the same limit. |
| ReferralApi.ListUrlDeterminesPage | src/app/services/referral.service.ts:128-173 | The given and received URLs carry the page and no limit: different pages give different URLs. |
| ReferralApi.UsersUrlDeterminesPageAndLimit | src/app/services/referral.service.ts:178-221 | The inside and outside users URLs determine both page and limit. |
| ReferralApi.GivenReferralsUrl | src/app/services/referral.service.ts:135 | `{base}/mobile/get-given-referral/{userId}?page={page}`; `ListUrlDeterminesPage` shows the page can be read back. |
| ReferralApi.ReceivedReferralsUrl | src/app/services/referral.service.ts:160 | `{base}/mobile/get-received-referral/{userId}?page={page}`; `ListUrlDeterminesPage` shows the page can be read back. |
| ReferralApi.InsideUsersUrl | src/app/services/referral.service.ts:184 | `{base}/mobile/get-inside-users?page=P&limit=L`; `UsersUrlDeterminesPageAndLimit` shows both can be read back. |
| ReferralApi.OutsideUsersUrl | src/app/services/referral.service.ts:208 | `{base}/mobile/get-outside-users?page=P&limit=L`; `UsersUrlDeterminesPageAndLimit` shows both can be read back. |
| ReferralApi.CreateReferralUrl | src/app/services/referral.service.ts:239 | `{base}/mobile/create-referral`. |
| ReferralApi.UpdateReferralUrl | src/app/services/referral.service.ts:283 | `{base}/mobile/update-referral/{id}`. |
| ReferralApi.DeleteReferralUrl | src/app/services/referral.service.ts:307 | `{base}/mobile/delete-referral/{id}`. |
| ReferralApi.ReferralStatsUrl | src/app/services/referral.service.ts:332 | `{base}/mobile/referral-stats/{userId}`. |
| ReferralApi.Settled | src/app/services/referral.service.ts:142-147 | A rejection is rethrown unchanged. A resolved reply completes as `Unwrap(response)`: it returns `response.data` when that is truthy and the whole response otherwise, and it throws only when the response is null or undefined. |
| ReferralApi.FailureToasts | src/app/services/referral.service.ts:143-147 | Exactly one error toast, with the method's fixed text, on failure; none on success. |
| ReferralApi.WithGiver | src/app/services/referral.service.ts:232-235 | The body keeps every field of the input, and its `giver_id` is the token's user id. |
| ReferralApi.ReferralService.constructor | src/app/services/referral.service.ts:90-97 | There are no headers yet, and the base URL is `http://localhost:3200`. |
| ReferralApi.ReferralService.GetHeaders | src/app/services/referral.service.ts:99-108 | The header list is replaced, never extended: after the call it equals `NonNullAuthHeaders(token)`. |
| ReferralApi.ReferralService.Send | src/app/services/referral.service.ts:132-147 | The request is appended to the sent log once. The completion is `Settled(reply)`, and one error toast with the method's text follows exactly when it throws. |
| ReferralApi.ReferralService.Refuse | src/app/services/referral.service.ts:143-147 | An error raised before the request (the identity lookup) sends nothing, shows the method's error toast and is rethrown unchanged. |
| ReferralApi.ReferralService.GetGivenReferrals | src/app/services/referral.service.ts:128-148 | An identity failure sends nothing, shows one error toast and rethrows that error. Otherwise one GET goes to the user's given list at the page (default 1). The call answers the unwrapped reply and toasts on failure. |
| ReferralApi.ReferralService.GetReceivedReferrals | src/app/services/referral.service.ts:153-173 | The same as the given list, for the received URL. |
| ReferralApi.ReferralService.GetInsideUsers | src/app/services/referral.service.ts:178-197 | One GET of the inside users with page and limit (defaults 1 and 50), with no identity lookup. |
| ReferralApi.ReferralService.GetOutsideUsers | src/app/services/referral.service.ts:202-221 | One GET of the outside users with page and limit (defaults 1 and 50), with no identity lookup. |
| ReferralApi.ReferralService.CreateReferral | src/app/services/referral.service.ts:226-252 | After the identity lookup, one POST whose body is the input with `giver_id` overwritten by the user id. On identity failure nothing is sent. |
| ReferralApi.ReferralService.UpdateReferral | src/app/services/referral.service.ts:277-296 | One PUT of the given body to `/update-referral/{id}`, with no identity lookup. |
| ReferralApi.ReferralService.DeleteReferral | src/app/services/referral.service.ts:301-320 | One DELETE to `/delete-referral/{id}`, with no identity lookup. |
| ReferralApi.ReferralService.GetReferralStats | src/app/services/referral.service.ts:325-345 | After the identity lookup, one GET of the user's statistics. On identity failure nothing is sent. |
| OneToOneApi.Caught | src/app/services/growth-meet.service.ts:115-119 | A non-null error gives exactly one error toast, whose text is `error.message` when truthy and the fixed text otherwise, and is rethrown unchanged. A null or undefined error throws a TypeError before any toast. |
| OneToOneApi.Announced | src/app/services/growth-meet.service.ts:113-119 | A resolved non-null response returns `Unwrap(response)` (`data` when truthy, else the response) after one success toast with `response.message` when truthy and the fixed text otherwise. A rejection goes to `Caught` with the method's failure text. A null or undefined response goes to `Caught` with the TypeError of reading `message`. There is never more than one toast. |
| OneToOneApi.MeetingsUrlDeterminesPageAndLimit | src/app/services/growth-meet.service.ts:156 | `prefix/userId?page=P&limit=L` determines page and limit. |
| OneToOneApi.MeetingsUrl | src/app/services/growth-meet.service.ts:156 | `{prefix}/{userId}?page=P&limit=L`; `MeetingsUrlDeterminesPageAndLimit` shows page and limit can be read back. |
| OneToOneApi.WithInitiator | src/app/services/growth-meet.service.ts:99-102 | The body keeps every field of the input, and its `initiatedBy` is the token's user id. |
| OneToOneApi.ByIdBody | src/app/services/growth-meet.service.ts:134 | The body is exactly `{oneToOneId}`. |
| OneToOneApi.OneToOneService.constructor | src/app/services/growth-meet.service.ts:58-64 | There are no headers yet, and the endpoint prefixes are given. |
| OneToOneApi.OneToOneService.GetHeaders | src/app/services/growth-meet.service.ts:66-75 | The header list is replaced: after the call it equals `TruthyAuthHeaders(token)`. |
| OneToOneApi.OneToOneService.Send | src/app/services/growth-meet.service.ts:127-145 | The request is appended to the sent log once, and the completion and toasts are those of `Announced` for the reply. |
| OneToOneApi.OneToOneService.CreateOneToOne | src/app/services/growth-meet.service.ts:94-120 | An identity failure sends nothing and goes to the catch block. Otherwise one POST whose body has `initiatedBy` overwritten, announced with the server's message or the default. |
| OneToOneApi.OneToOneService.GetOneToOneById | src/app/services/growth-meet.service.ts:125-145 | One POST of `{oneToOneId}` to the fixed URL, announced on success and on failure. |
| OneToOneApi.OneToOneService.GetInitiatedOneToOne | src/app/services/growth-meet.service.ts:150-170 | One GET of `initiated/userId?page&limit`, with defaults 1 and 10. |
| OneToOneApi.OneToOneService.GetNotInitiatedOneToOne | src/app/services/growth-meet.service.ts:175-195 | One GET of `notInitiated/userId?page&limit`, with defaults 1 and 10. |
| Pagination.WindowShape | src/app/views/pages/referrals/referrals.component.ts:150-159 | The window has at most 5 entries, all in 1..total, consecutive and ascending. A page is in it exactly when it is in 1..total and within 2 of the current page. The current page is in it exactly when it is in 1..total. |
| Pagination.PageNumbers | src/app/views/pages/referrals/referrals.component.ts:150-159 | The push loop produces exactly the window `max(1, current-2) .. min(total, current+2)`. |
| Listing.PagesOr1 | src/app/views/pages/referrals/referrals.component.ts:93 | `totalPages || 1` is the reported count when truthy, else 1; it is never below 1. |
| Listing.ArrayItems | src/app/views/pages/tyfcbslip/tyfcbslip.component.ts:78 | An array's items, otherwise the empty list. |
| Listing.PageAccepted | src/app/views/pages/referrals/referrals.component.ts:143-148 | The `goToPage` guard: a page is accepted exactly when it lies in 1..totalPages. `PagerLinksAreAccepted` shows every pager link passes it. |
| Listing.LoadedPages | src/app/views/pages/referrals/referrals.component.ts:89-110 | A failed or null response keeps the page count. A read response sets the reported count, or 1 when it is falsy. The count stays at least 1. |
| Listing.PagerLinksAreAccepted | src/app/views/pages/referrals/referrals.component.ts:143-159 | Every pager link passes the `goToPage` guard. The current page has a link exactly when the guard would accept it. |
| Listing.PageCountCanDropBelowCurrent | src/app/views/pages/tyfcbslip/tyfcbslip.component.ts:101-106 | After an accepted load of page 3 of 3 whose reply reports 2 pages, the current page is outside 1..totalPages and has no pager link. |
| Forms.ReferralDraftValid | src/app/views/pages/referrals/referrals.component.ts:51-62 | The referral form's validity, the same on both referral pages (referral.component.ts:131-144): receiver and type required, both status flags present, a ten-digit mobile number, and a rating from 1 to 5. `InvalidControlsEmptyIffValid` ties it to the invalid controls. |
| Forms.TyfcbDraftValid | src/app/views/pages/tyfcbslip/tyfcbslip.component.ts:43-51 | The TYFCB form's validity: every control but the comments is required, and the amount is at least 0. |
| Forms.InvalidReferralControls | src/app/views/pages/referrals/referral.component.ts:255-262 | Only the validated controls can be invalid: receiver, type, status group, mobile number and rating. |
| Forms.InvalidControlsEmptyIffValid | src/app/views/pages/referrals/referral.component.ts:130-144 | The set of invalid controls is empty exactly when the form is valid. |
| Forms.ReferralRequestOf | src/app/views/pages/referrals/referrals.component.ts:196-210 | Each field of the request of a valid form is the matching control's value: the receiver (non-empty), the type, both status flags as checked, the ten-digit mobile number, the rating in 1..5, and each optional text or `''` when it was left empty. |
| Forms.TyfcbRequestOf | src/app/views/pages/tyfcbslip/tyfcbslip.component.ts:190-198 | Each field of the request of a valid form is the matching control's value: the receiver, currency, `referral_type` and `business_type` (all non-empty), the amount (at least 0), and the comments or `''` when none were given. |
| ReferralsPage.LoadedList | src/app/views/pages/referrals/referrals.component.ts:92 | The list after a load is always truthy. It is the response's `data` when that is truthy; otherwise, including on failure, it is the empty list. |
| ReferralsPage.LoadedUsers | src/app/views/pages/referrals/referrals.component.ts:113-130 | Both lists are truthy. Either request failing, or either response being null or undefined (the TypeError lands in the catch), empties both. Two non-null responses give their `docs`, or `[]`. |
| ReferralsPage.ReceiverName | src/app/views/pages/referrals/referrals.component.ts:243-249 | A string receiver id is returned unchanged. Otherwise the result is the populated receiver's name when it is truthy, and "Unknown" when it is missing or empty. |
| ReferralsPage.GiverName | src/app/views/pages/referrals/referrals.component.ts:255 | The result is the giver's name when it is truthy, and "Unknown" when the giver or its name is missing or empty. |
| ReferralsPage.ReferralsComponent.constructor | src/app/views/pages/referrals/referrals.component.ts:14-63 | Given tab, page 1 of 1, empty lists, closed modal, the initial form, the inside audience. |
| ReferralsPage.ReferralsComponent.CurrentReferrals | src/app/views/pages/referrals/referrals.component.ts:133-135 | The shown list is the active tab's. |
| ReferralsPage.ReferralsComponent.AvailableUsers | src/app/views/pages/referrals/referrals.component.ts:138-140 | The inside users exactly for the inside audience, else the outside users. |
| ReferralsPage.ReferralsComponent.ConnectionName | src/app/views/pages/referrals/referrals.component.ts:251-257 | The receiver's name on the given tab, the giver's (truthy) name on the received tab. |
| ReferralsPage.ReferralsComponent.LoadGivenReferrals | src/app/views/pages/referrals/referrals.component.ts:89-98 | One call for the current page. The given list becomes `LoadedList`, and the page count becomes `LoadedPages`; only these change. |
| ReferralsPage.ReferralsComponent.LoadReceivedReferrals | src/app/views/pages/referrals/referrals.component.ts:101-110 | The same as the given loader, for the received list. |
| ReferralsPage.ReferralsComponent.LoadActiveTabData | src/app/views/pages/referrals/referrals.component.ts:73-86 | Only the active tab's list is reloaded. The other list is untouched, loading ends false, and the pager invariant is kept. |
| ReferralsPage.ReferralsComponent.SwitchTab | src/app/views/pages/referrals/referrals.component.ts:66-70 | The tab is set and the page reset to 1. Then exactly one call loads page 1 of the new tab. |
| ReferralsPage.ReferralsComponent.GoToPage | src/app/views/pages/referrals/referrals.component.ts:143-148 | A page outside 1..totalPages changes nothing. Any other page becomes current and is loaded with one call. |
| ReferralsPage.ReferralsComponent.PaginationPages | src/app/views/pages/referrals/referrals.component.ts:150-159 | The links are the pager window, and every link passes the `goToPage` guard. |
| ReferralsPage.ReferralsComponent.LoadUsers | src/app/views/pages/referrals/referrals.component.ts:113-130 | Two calls (page 1, limit 100). The lists become `LoadedUsers`, and the loading flag ends false. |
| ReferralsPage.ReferralsComponent.OpenConnectionSlip | src/app/views/pages/referrals/referrals.component.ts:162-172 | The modal shows a reset form (type inside, flags false, rating 1) that is not valid. |
| ReferralsPage.ReferralsComponent.CloseConnectionSlip | src/app/views/pages/referrals/referrals.component.ts:174-177 | The modal is hidden and every control is reset. |
| ReferralsPage.ReferralsComponent.OnReferralTypeChange | src/app/views/pages/referrals/referrals.component.ts:180-186 | The audience and the form's type follow the choice. The receiver is cleared, so the form is invalid. |
| ReferralsPage.ReferralsComponent.OnSubmitConnectionSlip | src/app/views/pages/referrals/referrals.component.ts:189-223 | An invalid form gives one error toast and no call. A valid form makes exactly one create call. On success the slip is hidden and reset and the current tab reloads at the current page. On failure nothing else changes. |
| ReferralsPage.ReferralsComponent.GetRatingStars | src/app/views/pages/referrals/referrals.component.ts:226-232 | Exactly 5 entries; entry i (from 1) is "filled" exactly when i ≤ rating. |
| TyfcbslipPage.LoadedDocs | src/app/views/pages/tyfcbslip/tyfcbslip.component.ts:75-95 | The list after a load is the response's `docs` when that is an array, otherwise (including on failure) empty. |
| TyfcbslipPage.UsersFor | src/app/views/pages/tyfcbslip/tyfcbslip.component.ts:131-145 | In-chapter reads `data`; outside reads `docs`; a non-array or a failure gives `[]`. Any other receiver type keeps the current list. |
| TyfcbslipPage.UsersCall | src/app/views/pages/tyfcbslip/tyfcbslip.component.ts:131-145 | `inChapter` makes one inside-users call and `outside` one outside-users call, both page 1 and limit 50. Any other receiver type makes none. |
| TyfcbslipPage.ReferralTypeFor | src/app/views/pages/tyfcbslip/tyfcbslip.component.ts:152-156 | In-chapter selects "Inside", outside selects "Outside", and any other value leaves the type alone. |
| TyfcbslipPage.DetailOf | src/app/views/pages/tyfcbslip/tyfcbslip.component.ts:162 | The first element of an array response (undefined when empty), otherwise the response itself. |
| TyfcbslipPage.ReceiverName | src/app/views/pages/tyfcbslip/tyfcbslip.component.ts:180-182 | The receiver's truthy name, otherwise "Unknown". |
| TyfcbslipPage.TyfcbslipComponent.constructor | src/app/views/pages/tyfcbslip/tyfcbslip.component.ts:15-52 | Given tab, page 1 of 1, empty lists, closed modals, no selection, the initial form. |
| TyfcbslipPage.TyfcbslipComponent.CurrentTyfcbs | src/app/views/pages/tyfcbslip/tyfcbslip.component.ts:97-99 | The shown list is the active tab's. |
| TyfcbslipPage.TyfcbslipComponent.LoadGivenTyfcbs | src/app/views/pages/tyfcbslip/tyfcbslip.component.ts:75-84 | One call for the current page. The given list becomes `LoadedDocs`, and the page count becomes `LoadedPages`. |
| TyfcbslipPage.TyfcbslipComponent.LoadReceivedTyfcbs | src/app/views/pages/tyfcbslip/tyfcbslip.component.ts:86-95 | The same as the given loader, for the received list. |
| TyfcbslipPage.TyfcbslipComponent.LoadActiveTabData | src/app/views/pages/tyfcbslip/tyfcbslip.component.ts:60-73 | Only the active tab's list reloads. The other list is untouched, loading ends false, and the pager invariant is kept. |
| TyfcbslipPage.TyfcbslipComponent.SwitchTab | src/app/views/pages/tyfcbslip/tyfcbslip.component.ts:54-58 | The tab is set and the page reset to 1. Then one call loads page 1 of the new tab. |
| TyfcbslipPage.TyfcbslipComponent.GoToPage | src/app/views/pages/tyfcbslip/tyfcbslip.component.ts:101-106 | A page outside 1..totalPages changes nothing. Any other page becomes current and is loaded. |
| TyfcbslipPage.TyfcbslipComponent.PaginationPages | src/app/views/pages/tyfcbslip/tyfcbslip.component.ts:108-114 | The links are the pager window, and every link passes the guard. |
| TyfcbslipPage.TyfcbslipComponent.LoadAvailableUsers | src/app/views/pages/tyfcbslip/tyfcbslip.component.ts:131-145 | The call made and the new receiver list are those of the form's receiver type. |
| TyfcbslipPage.TyfcbslipComponent.OpenTyfcbSlip | src/app/views/pages/tyfcbslip/tyfcbslip.component.ts:116-129 | The defaults are restored (in chapter, Inside, New, amount 0, INR), the member select is hidden, the modal is shown, and the in-chapter receivers are loaded. |
| TyfcbslipPage.TyfcbslipComponent.OnReceiverTypeChange | src/app/views/pages/tyfcbslip/tyfcbslip.component.ts:147-157 | The receiver is cleared (so the form is invalid), the member select is shown, the users reload for the form's type, and the referral type follows the selected value. |
| TyfcbslipPage.TyfcbslipComponent.OpenDetailModal | src/app/views/pages/tyfcbslip/tyfcbslip.component.ts:159-168 | One call. A reply selects `DetailOf` its response and shows the modal. A failure changes nothing. |
| TyfcbslipPage.TyfcbslipComponent.CloseDetailModal | src/app/views/pages/tyfcbslip/tyfcbslip.component.ts:170-173 | The modal is hidden and the selection is null. |
| TyfcbslipPage.TyfcbslipComponent.CloseTyfcbSlipModal | src/app/views/pages/tyfcbslip/tyfcbslip.component.ts:175-178 | The modal is hidden and the receiver list is empty. |
| TyfcbslipPage.TyfcbslipComponent.OnSubmitTyfcbSlip | src/app/views/pages/tyfcbslip/tyfcbslip.component.ts:184-205 | An invalid form gives one error toast and no call. A valid form makes exactly one create call. On success the modal closes (emptying the receivers) and the active tab reloads. |
| ReferralPage.FormValue | src/app/views/pages/referrals/referral.component.ts:130-144 | The form value has no top-level status flags. Its `referral_status` object carries both. |
| ReferralPage.RequestAsWritten | src/app/views/pages/referrals/referral.component.ts:270-283 | As written, both status flags of every submitted referral are false. |
| ReferralPage.AsWrittenDropsStatusFlags | src/app/views/pages/referrals/referral.component.ts:273-276 | The request as written equals the intended one with both flags forced to false. |
| ReferralPage.CheckedFlagsAreLost | src/app/views/pages/referrals/referral.component.ts:273-276 | A valid form with both boxes checked yields a request as written that differs from the intended one. |
| ReferralPage.RequestReadsStatusGroup | src/app/views/pages/referrals/referral.component.ts:134-137 | The corrected request takes each flag from the `referral_status` group, where the form keeps it. The page as written does not submit this request (see Findings). |
| ReferralPage.RatingStars | src/app/views/pages/referrals/referral.component.ts:299-301 | A RangeError exactly when the rating is outside 0..5. |
| ReferralPage.RatingStarsShape | src/app/views/pages/referrals/referral.component.ts:299-301 | For 0..5: five characters; star i is filled exactly when i < rating, and empty otherwise. |
| ReferralPage.ReferralComponent.constructor | src/app/views/pages/referrals/referral.component.ts:62-144 | Given tab, page 1, both lists the empty placeholder page, no users, the initial form, nothing touched. |
| ReferralPage.ReferralComponent.CurrentReferrals | src/app/views/pages/referrals/referral.component.ts:220-222 | The given response on the "given" tab; the received response on any other tab. |
| ReferralPage.ReferralComponent.ImageUrl | src/app/views/pages/referrals/referral.component.ts:224-227 | A falsy path gives the default avatar. Any other path gives the image host followed by the path's text. |
| ReferralPage.ReferralComponent.LoadGivenReferrals | src/app/views/pages/referrals/referral.component.ts:153-164 | One call for the page. A reply replaces the stored response. A failure keeps the stale one and shows one error toast. Loading ends false. |
| ReferralPage.ReferralComponent.LoadReceivedReferrals | src/app/views/pages/referrals/referral.component.ts:166-177 | The same as the given loader, for the received response. |
| ReferralPage.ReferralComponent.UpdateUsersList | src/app/views/pages/referrals/referral.component.ts:195-197 | The inside users exactly for the type "inside", otherwise the outside users. |
| ReferralPage.ReferralComponent.OnReferralTypeChanged | src/app/views/pages/referrals/referral.component.ts:146-150 | The dropdown follows the new type, and the receiver is cleared, which leaves the form invalid. |
| ReferralPage.ReferralComponent.LoadUsers | src/app/views/pages/referrals/referral.component.ts:179-193 | Two calls. A failure or a null inside response changes nothing but a toast. A null outside response comes after the inside list is stored. Two read responses set both lists and the dropdown (type `|| 'inside'`). |
| ReferralPage.ReferralComponent.OnTabChange | src/app/views/pages/referrals/referral.component.ts:199-208 | The tab is set and the page is 1. Page 1 of the given list loads for "given", and of the received list for any other tab. |
| ReferralPage.ReferralComponent.OnPageChange | src/app/views/pages/referrals/referral.component.ts:210-218 | There is no range check: any page becomes current and that page of the active tab is loaded. |
| ReferralPage.ReferralComponent.OpenAddForm | src/app/views/pages/referrals/referral.component.ts:229-245 | The modal shows a cleared, invalid form with no control touched, and the dropdown offers the inside users. |
| ReferralPage.ReferralComponent.CloseAddForm | src/app/views/pages/referrals/referral.component.ts:247-252 | The modal is hidden and the form keeps its values. |
| ReferralPage.ReferralComponent.OnSubmitReferral | src/app/views/pages/referrals/referral.component.ts:254-297 | An invalid form marks exactly its invalid controls touched and makes no call. A valid form makes one create call, of the request as written (`RequestAsWritten`, both status flags false). On success: a toast, the modal closes, and the given list reloads at page 1 whichever tab is active. On failure: an error toast. Loading ends false. |
| SideBarMenu.MenuListWellFormed | src/app/views/partials/side-bar/side-bar.service.ts:11-142 | Every entry with a submenu has no link and only link entries below it. Every other entry is a link. |
| SideBarMenu.Toggled | src/app/views/partials/side-bar/side-bar.service.ts:147-154 | The result is null or the index, and null exactly when the index was already open. |
| SideBarMenu.ToggleTwice | src/app/views/partials/side-bar/side-bar.service.ts:147-154 | Toggling one index twice restores the state exactly when nothing or that index was open. |
| SideBarMenu.SideBarService.constructor | src/app/views/partials/side-bar/side-bar.service.ts:11-145 | The menu table, not mobile, no submenu open. |
| SideBarMenu.SideBarService.ToggleSubMenu | src/app/views/partials/side-bar/side-bar.service.ts:144-154 | The open submenu becomes `Toggled(old, index)`. The frame leaves `isMobile` unchanged. |
| SideBar.IconClass | src/app/views/partials/side-bar/side-bar.component.ts:135-137 | An unknown icon name gives `fas fa-circle`. |
| SideBar.IconClassOfMappedName | src/app/views/partials/side-bar/side-bar.component.ts:135-137 | A known name always gets its own mapped class; the `fas fa-circle` fallback applies only to unknown names. |
| SideBar.MappedClassNonEmpty | src/app/views/partials/side-bar/side-bar.component.ts:36-79 | No entry of the icon table maps to an empty class. |
| SideBar.MenuUsesListedIcons | src/app/views/partials/side-bar/side-bar.service.ts:11-142 | Every icon in the menu table, at either level, is one of eleven listed names. |
| SideBar.ListedIconsAreMapped | src/app/views/partials/side-bar/side-bar.component.ts:36-79 | An entry whose icons are all listed names has a mapped class for each of them. |
| SideBar.MenuIconsAreMapped | src/app/views/partials/side-bar/side-bar.component.ts:36-79 | Every icon that the menu table names, at either level, has a mapped class. |
| SideBar.RouteActiveAtSegments | src/app/views/partials/side-bar/side-bar.component.ts:179-181 | An active route is a prefix of the url. A longer url is active exactly when the route is followed by `/`. |
| SideBar.IsRouteActive | src/app/views/partials/side-bar/side-bar.component.ts:179-181 | A route is active when the url equals it or continues it after a `/`. `RouteActiveAtSegments` characterises it by prefixes. |
| SideBar.PrefixOfAnotherRouteIsNotActive | src/app/views/partials/side-bar/side-bar.component.ts:179-181 | `/ref` is not active at `/referrals`, while `/referrals` is active at `/referrals/5`. |
| SideBar.IsParentMenuActive | src/app/views/partials/side-bar/side-bar.component.ts:162-164 | An empty submenu is never active. |
| SideBar.ParentActiveIffSomeLinkOccurs | src/app/views/partials/side-bar/side-bar.component.ts:162-164 | A parent is active exactly when some item's link (or "undefined" for a missing one) occurs at some position of the url. |
| SideBar.SideBarComponent.constructor | src/app/views/partials/side-bar/side-bar.component.ts:30-32 | Closed, not mobile, no submenu open, no body class. |
| SideBar.SideBarComponent.UpdateBodyClass | src/app/views/partials/side-bar/side-bar.component.ts:116-122 | The body class is present exactly when the sidebar is open on mobile. |
| SideBar.SideBarComponent.OnSidebarOpenChanged | src/app/views/partials/side-bar/side-bar.component.ts:86-90 | The open flag follows the shared state, and the body class is updated from it. |
| SideBar.SideBarComponent.OnMobileChanged | src/app/views/partials/side-bar/side-bar.component.ts:94-97 | The mobile flag follows the shared state. |
| SideBar.SideBarComponent.CloseSidebar | src/app/views/partials/side-bar/side-bar.component.ts:128-132 | One close request on mobile, none otherwise. |
| SideBar.SideBarComponent.OnKeyDown | src/app/views/partials/side-bar/side-bar.component.ts:184-190 | A close request exactly for Escape while open on mobile. |
| SideBar.SideBarComponent.ToggleSubMenu | src/app/views/partials/side-bar/side-bar.component.ts:140-147 | The open submenu becomes `Toggled(old, index)`. |
| SideBar.SideBarComponent.IsSubMenuActive | src/app/views/partials/side-bar/side-bar.component.ts:150-152 | It holds exactly for the open index, so at most one submenu is active. |

`goToPage` only accepts pages in `1..totalPages`, but a later load can shrink `totalPages`
below `currentPage` (`Listing.PageCountCanDropBelowCurrent`), so `currentPage <= totalPages`
is not an invariant of the pages. `Valid()` keeps only `currentPage >= 1 && totalPages >= 1`.

## Left out

- The API manager, the network and the toast library are outside the model. A request is a `Reply` parameter; requests and toasts are appended to ghost logs.
- Asynchrony: every awaited or un-awaited load is modelled as completing before the handler returns. Overlapping loads, their interleavings and `Promise.all` ordering are not modelled.
- `getAllUsers` in the referral service is not modelled. It is only a `Promise.all` of the two user-list calls, and its search term is unused.
- JWT decoding (`atob` and `JSON.parse`) is an abstract `Decoder` function. The payload segment handed to it is modelled exactly.
- The stored token is `Option<string>`. A stored value of another JSON type is not modelled.
- The `oneToOne` endpoint group is not defined in src/app/core/constants/api-endpoints.ts, so its four URL prefixes are opaque constructor parameters. As written, `apiEndpoints.oneToOne` is therefore undefined: the class type would reject the access at compile time, and at run time reading any of its URLs throws a TypeError inside the `try`, which is toasted and rethrown, so no one-to-one request is ever sent. The model assumes the group exists. The referral service's base URL is the constant from its source.
- Angular form internals: validity is a predicate over a draft record, and a control set to null or `''` is a `None` or an empty text. The old page's `valueChanges` subscription is `OnReferralTypeChanged`. Its firing inside `reset()` and `patchValue` is folded into `OpenAddForm`'s resulting state.
- The DOM and Bootstrap are not modelled: modal `show`/`hide`, `document.body.classList` (a boolean field instead), `onDocumentClick` containment checks, `setTimeout`, `ChangeDetectorRef`, and `ngOnDestroy`.
- Router calls, `navigateToRoute`, `navigateWithQueryParams`, `onNavSwitch`, `logout` and the route table are not modelled. The router's current url is a parameter of the route predicates.
- The shared sidebar state service is not part of this model. `toggleSidebar` is left out, and `closeSidebar` is recorded as a counted close request.
- `formatDate` is not modelled, and ratings are integers, so `Math.floor` is the identity. Non-integer numbers, NaN and floating point are not modelled.
- Listing.PagesOr1: a truthy `totalPages` that is not a positive integer (a string, say) is excluded by the `PagedReply` requirement instead of being stored as is.
- The page size that the referrals page passes to the given and received lists is recorded in its calls. The service ignores that argument and sends only the page.
- The icon map's inherited `Object.prototype` keys (such as `constructor`) are not modelled; such a name gets the default icon here.
- Object spread is modelled as a map update, so key order in the sent body is not modelled.
- The source of the TYFCB service is not part of this model; its calls are recorded by name and arguments only.

## Findings

| source | as written | input that shows it | evidently intended | confidence | as-written member | corrected member |
|---|---|---|---|---|---|---|
| src/app/views/pages/referrals/referral.component.ts:273-276 | The request reads `told_them_you_would_will` and `given_card` from the top level of the form value, but the form nests them in the `referral_status` group. Both therefore become `undefined \|\| false`. | A valid form with both boxes checked: receiver `u1`, type `inside`, mobile `9876543210`, rating 4. | Send the flags as checked, reading them from `referral_status`. | not executed | ReferralPage.RequestAsWritten | Forms.ReferralRequestOf |
