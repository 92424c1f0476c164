/**
 * The profile editor: the phone-number formatter, the change handler that
 * applies it, the form's load defaults and the save flow.
 */
module ProfileEdit {
  import opened Wrappers
  import opened JsStrings
  import opened AuthService

  /** `value.replace(/\D/g, '')`: the ASCII digits of `s`, in order. */
  function Digits(s: string): (d: string)
    ensures AllDigits(d)
    ensures |d| <= |s|
  {
    if s == "" then "" else (if IsDigit(s[0]) then [s[0]] else "") + Digits(s[1..])
  }

  function Min(a: int, b: int): int {
    if a <= b then a else b
  }

  /** `formatPhoneNumber`: shapes the digits as `(XXX) XXX-XXXX`, dropping every digit after the tenth. */
  function FormatPhoneNumber(value: string): (r: string)
    ensures |r| <= 14
    ensures r == "" <==> Digits(value) == ""
    ensures |Digits(value)| <= 3 ==> r == Digits(value)
  {
    var d := Digits(value);
    if |d| <= 3 then d
    else if |d| <= 6 then "(" + d[..3] + ") " + d[3..]
    else "(" + d[..3] + ") " + d[3..6] + "-" + d[6..Min(|d|, 10)]
  }

  lemma {:induction false} DigitsAppend(a: string, b: string)
    ensures Digits(a + b) == Digits(a) + Digits(b)
    decreases |a|
  {
    if a == "" {
      assert a + b == b;
    } else {
      assert (a + b)[0] == a[0];
      assert (a + b)[1..] == a[1..] + b;
      DigitsAppend(a[1..], b);
    }
  }

  /** A string made only of digits is its own digit string. */
  lemma {:induction false} DigitsOfDigits(d: string)
    requires AllDigits(d)
    ensures Digits(d) == d
    decreases |d|
  {
    if d != "" {
      DigitsOfDigits(d[1..]);
      assert d == [d[0]] + d[1..];
    }
  }

  lemma DigitsOfSeparators()
    ensures Digits("(") == "" && Digits(") ") == "" && Digits("-") == ""
  {
    assert ") "[1..] == " ";
    assert " "[1..] == "";
  }

  predicate AllDigits(s: string) {
    forall k | 0 <= k < |s| :: IsDigit(s[k])
  }

  /** The mask for four to six digits adds no digit of its own. */
  lemma {:induction false} DigitsOfShortMask(a: string, b: string)
    requires AllDigits(a) && AllDigits(b)
    ensures Digits("(" + a + ") " + b) == a + b
  {
    DigitsOfSeparators();
    DigitsOfDigits(a);
    DigitsOfDigits(b);
    DigitsAppend("(", a);
    DigitsAppend("(" + a, ") ");
    DigitsAppend("(" + a + ") ", b);
  }

  /** The mask for seven or more digits adds no digit of its own. */
  lemma {:induction false} DigitsOfLongMask(a: string, b: string, c: string)
    requires AllDigits(a) && AllDigits(b) && AllDigits(c)
    ensures Digits("(" + a + ") " + b + "-" + c) == a + b + c
  {
    DigitsOfShortMask(a, b);
    DigitsOfSeparators();
    DigitsOfDigits(c);
    DigitsAppend("(" + a + ") " + b, "-");
    DigitsAppend("(" + a + ") " + b + "-", c);
  }

  /** The formatter keeps exactly the first `min(n, 10)` digits of the input, in order, and adds no other digit. */
  lemma FormatKeepsLeadingDigits(value: string)
    ensures var d := Digits(value);
      Digits(FormatPhoneNumber(value)) == d[..Min(|d|, 10)]
  {
    var d := Digits(value);
    if |d| <= 3 {
      DigitsOfDigits(d);
      assert d[..Min(|d|, 10)] == d;
    } else if |d| <= 6 {
      MidLengthKeepsDigits(d);
    } else {
      LongKeepsDigits(d);
    }
  }

  lemma MidLengthKeepsDigits(d: string)
    requires AllDigits(d) && 3 < |d| <= 6
    ensures Digits("(" + d[..3] + ") " + d[3..]) == d
  {
    assert AllDigits(d[..3]) && AllDigits(d[3..]);
    DigitsOfShortMask(d[..3], d[3..]);
    assert d[..3] + d[3..] == d;
  }

  lemma LongKeepsDigits(d: string)
    requires AllDigits(d) && |d| > 6
    ensures Digits("(" + d[..3] + ") " + d[3..6] + "-" + d[6..Min(|d|, 10)]) == d[..Min(|d|, 10)]
  {
    var m := Min(|d|, 10);
    assert AllDigits(d[..3]) && AllDigits(d[3..6]) && AllDigits(d[6..m]);
    DigitsOfLongMask(d[..3], d[3..6], d[6..m]);
    assert d[..3] + d[3..6] + d[6..m] == d[..m];
  }

  /** The formatted number is at most `(XXX) XXX-XXXX`, 14 characters. */
  lemma FormatAtMostFourteen(value: string)
    ensures |FormatPhoneNumber(value)| <= 14
  {
  }

  /**
   * The separators sit where the mask puts them: from four digits on, the
   * output opens with `(ddd) `, and from seven on a `-` follows the sixth digit.
   */
  lemma FormatShape(value: string)
    ensures var d, r := Digits(value), FormatPhoneNumber(value);
      && (|d| <= 3 ==> r == d)
      && (|d| > 3 ==> |r| > 6 && r[0] == '(' && r[1..4] == d[..3] && r[4] == ')' && r[5] == ' ')
      && (3 < |d| <= 6 ==> r[6..] == d[3..])
      && (|d| > 6 ==> |r| > 10 && r[6..9] == d[3..6] && r[9] == '-' && r[10..] == d[6..Min(|d|, 10)])
  {
    var d := Digits(value);
    if 3 < |d| <= 6 {
      var head := "(" + d[..3] + ") ";
      assert |head| == 6 && head[1..4] == d[..3];
      MaskSplit(head, d[3..]);
    } else if |d| > 6 {
      var head := "(" + d[..3] + ") " + d[3..6] + "-";
      assert |head| == 10 && head[1..4] == d[..3] && head[6..9] == d[3..6];
      MaskSplit(head, d[6..Min(|d|, 10)]);
    }
  }

  lemma MaskSplit(head: string, tail: string)
    ensures (head + tail)[..|head|] == head && (head + tail)[|head|..] == tail
  {
  }

  /** Formatting an already formatted number changes nothing. */
  lemma FormatIdempotent(value: string)
    ensures FormatPhoneNumber(FormatPhoneNumber(value)) == FormatPhoneNumber(value)
  {
    var d := Digits(value);
    if |d| > 6 {
      LongFormatIdempotent(value);
    } else {
      FormatKeepsLeadingDigits(value);
      assert d[..Min(|d|, 10)] == d;
    }
  }

  lemma LongFormatIdempotent(value: string)
    requires |Digits(value)| > 6
    ensures FormatPhoneNumber(FormatPhoneNumber(value)) == FormatPhoneNumber(value)
  {
    var d := Digits(value);
    var m := Min(|d|, 10);
    FormatKeepsLeadingDigits(value);
    var e := Digits(FormatPhoneNumber(value));
    assert e == d[..m] && |e| == m && Min(|e|, 10) == m;
    assert e[..3] == d[..3] && e[3..6] == d[3..6] && e[6..m] == d[6..m];
  }

  /** The seven form fields; `handleChange` sets the one named by the input that changed. */
  datatype ProfileField =
    PhoneNumber | PhoneExtension | JobTitle | Department | Bio | ProfileVisibility | ProfilePicture

  datatype ProfileForm = ProfileForm(
    phoneNumber: string,
    phoneExtension: string,
    jobTitle: string,
    department: string,
    bio: string,
    profileVisibility: string,
    profilePicture: string)

  const DefaultVisibility: string := "team_only"

  /** The form's initial value, before any user is loaded. */
  const EmptyForm: ProfileForm := ProfileForm("", "", "", "", "", DefaultVisibility, "")

  function Get(f: ProfileForm, field: ProfileField): string {
    match field
    case PhoneNumber => f.phoneNumber
    case PhoneExtension => f.phoneExtension
    case JobTitle => f.jobTitle
    case Department => f.department
    case Bio => f.bio
    case ProfileVisibility => f.profileVisibility
    case ProfilePicture => f.profilePicture
  }

  /** `{...prev, [name]: value}`: only the named field takes the new value. */
  function SetField(f: ProfileForm, field: ProfileField, v: string): (r: ProfileForm)
    ensures forall g: ProfileField :: Get(r, g) == if g == field then v else Get(f, g)
  {
    match field
    case PhoneNumber => f.(phoneNumber := v)
    case PhoneExtension => f.(phoneExtension := v)
    case JobTitle => f.(jobTitle := v)
    case Department => f.(department := v)
    case Bio => f.(bio := v)
    case ProfileVisibility => f.(profileVisibility := v)
    case ProfilePicture => f.(profilePicture := v)
  }

  /** The user record the editor is opened on; every profile field may be missing. */
  datatype ProfileUser = ProfileUser(
    id: string,
    firstName: string,
    phoneNumber: Option<string>,
    phoneExtension: Option<string>,
    jobTitle: Option<string>,
    department: Option<string>,
    bio: Option<string>,
    profileVisibility: Option<string>,
    profilePicture: Option<string>)

  /** The form a user loads into: missing fields become `''`, a missing visibility `'team_only'`. */
  function LoadForm(u: ProfileUser): (r: ProfileForm)
    ensures r.phoneNumber == u.phoneNumber.GetOr("") && r.phoneExtension == u.phoneExtension.GetOr("")
    ensures r.jobTitle == u.jobTitle.GetOr("") && r.department == u.department.GetOr("")
    ensures r.bio == u.bio.GetOr("") && r.profilePicture == u.profilePicture.GetOr("")
    ensures r.profileVisibility != ""
    ensures Truthy(u.profileVisibility) ==> r.profileVisibility == u.profileVisibility.value
  {
    ProfileForm(
      Or(u.phoneNumber, ""), Or(u.phoneExtension, ""), Or(u.jobTitle, ""), Or(u.department, ""),
      Or(u.bio, ""), Or(u.profileVisibility, DefaultVisibility), Or(u.profilePicture, ""))
  }

  /** `!!(user.phoneNumber || user.jobTitle || user.department)`. */
  predicate HasContactCard(u: ProfileUser) {
    Truthy(u.phoneNumber) || Truthy(u.jobTitle) || Truthy(u.department)
  }

  /** A contact card is shown for a loaded user exactly when one of the three loaded fields is non-empty. */
  lemma ContactCardIffLoadedFields(u: ProfileUser)
    ensures HasContactCard(u) <==>
      var f := LoadForm(u); f.phoneNumber != "" || f.jobTitle != "" || f.department != ""
  {
  }

  const SaveFallback: string := "Failed to update profile"

  /** The success banner after a save. */
  function SavedBanner(firstName: string): string {
    "Successfully updated " + firstName + "'s profile. Contact card QR code has been generated!"
  }

  /** What dereferencing `user.id` on a null user throws; the save catches it like any other error. */
  const NullUserError: string := "Cannot read properties of null (reading 'id')"

  class ProfileEditor {
    var formData: ProfileForm
    var hasContactCard: bool
    var error: Option<string>
    var success: Option<string>
    var loading: bool
    /** The user id and form of every `updateProfile` call made. */
    var updateCalls: seq<(string, ProfileForm)>
    /** Set when the delayed `onProfileUpdated(); onClose()` has been scheduled. */
    var closeScheduled: bool

    constructor ()
      ensures formData == EmptyForm && !hasContactCard && error == None && success == None && !loading
      ensures updateCalls == [] && !closeScheduled
    {
      formData := EmptyForm;
      hasContactCard := false;
      error := None;
      success := None;
      loading := false;
      updateCalls := [];
      closeScheduled := false;
    }

    /** The load effect: runs only with a user and an open modal. */
    method Open(user: Option<ProfileUser>, isOpen: bool)
      modifies this
      ensures user.Some? && isOpen ==>
        && formData == LoadForm(user.value) && hasContactCard == HasContactCard(user.value)
        && error == None && success == None
      ensures !(user.Some? && isOpen) ==>
        formData == old(formData) && hasContactCard == old(hasContactCard)
        && error == old(error) && success == old(success)
      ensures loading == old(loading) && updateCalls == old(updateCalls) && closeScheduled == old(closeScheduled)
    {
      if user.Some? && isOpen {
        formData := LoadForm(user.value);
        hasContactCard := HasContactCard(user.value);
        error := None;
        success := None;
      }
    }

    /** `handleChange`: the phone number is stored formatted, every other field verbatim. */
    method HandleChange(field: ProfileField, value: string)
      modifies this
      ensures formData == SetField(old(formData), field, if field == PhoneNumber then FormatPhoneNumber(value) else value)
      ensures hasContactCard == old(hasContactCard) && error == old(error) && success == old(success)
      ensures loading == old(loading) && updateCalls == old(updateCalls) && closeScheduled == old(closeScheduled)
    {
      if field == PhoneNumber {
        formData := SetField(formData, field, FormatPhoneNumber(value));
      } else {
        formData := SetField(formData, field, value);
      }
    }

    /** `handleSave` with the backend's answer to `updateProfile`. */
    method Save(user: Option<ProfileUser>, answer: WrapperAnswer<ProfileForm>)
      modifies this
      ensures !loading && formData == old(formData)
      ensures user.None? ==>
        && updateCalls == old(updateCalls) && error == Some(NullUserError) && success == None
        && hasContactCard == old(hasContactCard) && closeScheduled == old(closeScheduled)
      ensures user.Some? ==> updateCalls == old(updateCalls) + [(user.value.id, old(formData))]
      ensures user.Some? && answer.Body? && answer.success ==>
        && hasContactCard && error == None && success == Some(SavedBanner(user.value.firstName)) && closeScheduled
      ensures user.Some? && !(answer.Body? && answer.success) ==>
        && error == Some(CallError(answer, SaveFallback, SaveFallback)) && success == None
        && hasContactCard == old(hasContactCard) && closeScheduled == old(closeScheduled)
    {
      loading := true;
      error := None;
      success := None;
      if user.None? {
        error := Some(NullUserError);
      } else {
        updateCalls := updateCalls + [(user.value.id, formData)];
        if answer.Body? && answer.success {
          hasContactCard := true;
          success := Some(SavedBanner(user.value.firstName));
          closeScheduled := true;
        } else {
          error := Some(CallError(answer, SaveFallback, SaveFallback));
        }
      }
      loading := false;
    }
  }
}
