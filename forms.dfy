/** The drafts behind the referral and TYFCB forms and the validators on their controls.
    A control reset to null is None; a form is valid exactly when every validator passes. */
module Forms {
  import opened Wrappers
  import opened Strings

  /** The connection-slip / add-referral form. */
  datatype ReferralDraft = ReferralDraft(
    receiverId: Option<string>,
    referralType: Option<string>,
    toldThemYouWould: Option<bool>,
    givenCard: Option<bool>,
    referral: Option<string>,
    mobileNumber: Option<string>,
    address: Option<string>,
    comments: Option<string>,
    businessName: Option<string>,
    rating: Option<int>)

  /** Every control of the referral form after `reset()`. */
  const ClearedReferralDraft := ReferralDraft(None, None, None, None, None, None, None, None, None, None)

  /** `Validators.required` on a text control: neither null nor empty. */
  predicate Required(v: Option<string>) {
    v.Some? && v.value != ""
  }

  /** `/^[0-9]{10}$/` */
  predicate TenDigits(s: string) {
    |s| == 10 && AllDigits(s)
  }

  /** `required` plus the ten-digit pattern (the pattern itself lets an empty value pass). */
  predicate MobileValid(v: Option<string>) {
    Required(v) && TenDigits(v.value)
  }

  /** `required`, `min(1)` and `max(5)`. */
  predicate RatingValid(v: Option<int>) {
    v.Some? && 1 <= v.value <= 5
  }

  /** The referral form's `valid`: receiver, type, both status flags, a ten-digit mobile
      number and a rating from 1 to 5. */
  predicate ReferralDraftValid(d: ReferralDraft) {
    && Required(d.receiverId)
    && Required(d.referralType)
    && d.toldThemYouWould.Some?
    && d.givenCard.Some?
    && MobileValid(d.mobileNumber)
    && RatingValid(d.rating)
  }

  /** The top-level controls of the add-referral form that fail their validators (the two
      status flags sit in the `referral_status` group). */
  function InvalidReferralControls(d: ReferralDraft): (names: set<string>)
    ensures names <= {"receiver_id", "referral_type", "referral_status", "mobile_number", "rating"}
  {
    (if Required(d.receiverId) then {} else {"receiver_id"})
    + (if Required(d.referralType) then {} else {"referral_type"})
    + (if d.toldThemYouWould.Some? && d.givenCard.Some? then {} else {"referral_status"})
    + (if MobileValid(d.mobileNumber) then {} else {"mobile_number"})
    + (if RatingValid(d.rating) then {} else {"rating"})
  }

  /** A form is valid exactly when no control is invalid. */
  lemma InvalidControlsEmptyIffValid(d: ReferralDraft)
    ensures InvalidReferralControls(d) == {} <==> ReferralDraftValid(d)
  {
    if !ReferralDraftValid(d) {
      if !Required(d.receiverId) { assert "receiver_id" in InvalidReferralControls(d); }
      else if !Required(d.referralType) { assert "referral_type" in InvalidReferralControls(d); }
      else if !(d.toldThemYouWould.Some? && d.givenCard.Some?) { assert "referral_status" in InvalidReferralControls(d); }
      else if !MobileValid(d.mobileNumber) { assert "mobile_number" in InvalidReferralControls(d); }
      else { assert "rating" in InvalidReferralControls(d); }
    }
  }

  /** `value || ''` */
  function OrEmpty(v: Option<string>): string {
    if v.Some? then v.value else ""
  }

  /** The referral a valid form submits. */
  datatype ReferralRequest = ReferralRequest(
    receiverId: string,
    referralType: string,
    toldThemYouWould: bool,
    givenCard: bool,
    referral: string,
    mobileNumber: string,
    address: string,
    comments: string,
    businessName: string,
    rating: int)

  /** The request built from a valid referral form: the status flags as checked, absent
      optional texts as empty strings. */
  function ReferralRequestOf(d: ReferralDraft): (r: ReferralRequest)
    requires ReferralDraftValid(d)
    ensures r.receiverId == d.receiverId.value && r.receiverId != ""
    ensures r.referralType == d.referralType.value
    ensures r.toldThemYouWould == d.toldThemYouWould.value && r.givenCard == d.givenCard.value
    ensures r.mobileNumber == d.mobileNumber.value && TenDigits(r.mobileNumber)
    ensures r.rating == d.rating.value && 1 <= r.rating <= 5
    ensures r.referral == OrEmpty(d.referral) && r.address == OrEmpty(d.address)
    ensures r.comments == OrEmpty(d.comments) && r.businessName == OrEmpty(d.businessName)
  {
    ReferralRequest(
      d.receiverId.value, d.referralType.value,
      d.toldThemYouWould.value, d.givenCard.value,
      OrEmpty(d.referral), d.mobileNumber.value, OrEmpty(d.address),
      OrEmpty(d.comments), OrEmpty(d.businessName), d.rating.value)
  }

  /** The TYFCB slip form. */
  datatype TyfcbDraft = TyfcbDraft(
    receiverType: Option<string>,
    receiverId: Option<string>,
    amount: Option<int>,
    currency: Option<string>,
    referralType: Option<string>,
    businessType: Option<string>,
    comments: Option<string>)

  /** The TYFCB form's `valid`: every control but the comments filled in, amount at least 0. */
  predicate TyfcbDraftValid(d: TyfcbDraft) {
    && Required(d.receiverType)
    && Required(d.receiverId)
    && d.amount.Some? && d.amount.value >= 0
    && Required(d.currency)
    && Required(d.referralType)
    && Required(d.businessType)
  }

  datatype TyfcbRequest = TyfcbRequest(
    receiverId: string,
    amount: int,
    currency: string,
    referralType: string,
    businessType: string,
    comments: string)

  function TyfcbRequestOf(d: TyfcbDraft): (r: TyfcbRequest)
    requires TyfcbDraftValid(d)
    ensures r.receiverId == d.receiverId.value && r.receiverId != ""
    ensures r.amount == d.amount.value && r.amount >= 0
    ensures r.currency == d.currency.value && r.currency != ""
    ensures r.referralType == d.referralType.value && r.referralType != ""
    ensures r.businessType == d.businessType.value && r.businessType != ""
    ensures r.comments == OrEmpty(d.comments)
  {
    TyfcbRequest(d.receiverId.value, d.amount.value, d.currency.value,
                 d.referralType.value, d.businessType.value, OrEmpty(d.comments))
  }
}
