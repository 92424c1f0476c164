/**
 * The add/edit user form: loading a user into it, clearing a field's error
 * while typing, validation, and the payload the submit sends.
 */
module UserModal {
  import opened Wrappers
  import opened JsStrings
  import opened AuthService
  import opened Notifications

  /** The user record the form is opened on. */
  datatype UserRecord = UserRecord(
    id: string,
    firstName: Option<string>,
    lastName: Option<string>,
    displayName: Option<string>,
    email: Option<string>,
    googleId: Option<string>,
    hubspotUserId: Option<string>,
    status: Option<string>,
    isActive: Option<bool>)

  datatype UserForm = UserForm(
    firstName: string,
    lastName: string,
    displayName: string,
    email: string,
    googleId: string,
    hubspotUserId: string,
    isActive: bool)

  /** The blank form of create mode. */
  const BlankForm: UserForm := UserForm("", "", "", "", "", "", true)

  /** The form's field names, which also key its error map. */
  datatype FieldName = FirstName | LastName | DisplayName | Email | GoogleId | HubspotUserId | IsActive

  /** What one change event carries: the value of a text input, or the `isActive` checkbox. */
  datatype InputEvent = TextInput(field: FieldName, value: string) | ActiveCheckbox(checked: bool)

  /** The form a user loads into; `isActive` is set by an `'active'` status or an `isActive` of exactly true. */
  function LoadForm(user: Option<UserRecord>): (f: UserForm)
    ensures user.None? ==> f == BlankForm
    ensures user.Some? ==>
      var u := user.value;
      && f.firstName == u.firstName.GetOr("") && f.lastName == u.lastName.GetOr("")
      && f.displayName == u.displayName.GetOr("") && f.email == u.email.GetOr("")
      && f.googleId == u.googleId.GetOr("") && f.hubspotUserId == u.hubspotUserId.GetOr("")
      && (f.isActive <==> u.status == Some("active") || u.isActive == Some(true))
  {
    match user
    case None => BlankForm
    case Some(u) =>
      UserForm(Or(u.firstName, ""), Or(u.lastName, ""), Or(u.displayName, ""), Or(u.email, ""),
               Or(u.googleId, ""), Or(u.hubspotUserId, ""),
               u.status == Some("active") || u.isActive == Some(true))
  }

  /** `{...prev, [name]: value}` for a text input. */
  function SetText(f: UserForm, field: FieldName, v: string): UserForm {
    match field
    case FirstName => f.(firstName := v)
    case LastName => f.(lastName := v)
    case DisplayName => f.(displayName := v)
    case Email => f.(email := v)
    case GoogleId => f.(googleId := v)
    case HubspotUserId => f.(hubspotUserId := v)
    case IsActive => f
  }

  /** A character the email pattern's `[^\s@]` class accepts. */
  predicate EmailChar(c: char) {
    !IsWhitespace(c) && c != '@'
  }

  predicate EmailPart(s: string) {
    s != "" && forall k | 0 <= k < |s| :: EmailChar(s[k])
  }

  /**
   * `/^[^\s@]+@[^\s@]+\.[^\s@]+$/.test(s)`: a non-empty local part, `@`, a
   * non-empty part, `.`, and a non-empty last part, none of them holding
   * whitespace or `@`.
   */
  predicate EmailMatches(s: string)
    ensures EmailMatches(s) ==> '@' in s && |s| >= 5
  {
    exists i, j | 0 < i && i + 1 < j < |s| - 1 ::
      s[i] == '@' && s[j] == '.' && EmailPart(s[..i]) && EmailPart(s[i + 1..j]) && EmailPart(s[j + 1..])
  }

  /** A matching email holds no whitespace at all. */
  lemma MatchHasNoWhitespace(s: string, k: int)
    requires EmailMatches(s) && 0 <= k < |s|
    ensures !IsWhitespace(s[k])
  {
    var i, j :| 0 < i && i + 1 < j < |s| - 1 && s[i] == '@' && s[j] == '.'
      && EmailPart(s[..i]) && EmailPart(s[i + 1..j]) && EmailPart(s[j + 1..]);
    if k < i {
      assert s[..i][k] == s[k];
    } else if i < k < j {
      assert s[i + 1..j][k - i - 1] == s[k];
    } else if j < k {
      assert s[j + 1..][k - j - 1] == s[k];
    }
  }

  /**
   * The pattern is tested on the untrimmed text, so a padded email fails it
   * even when its trimmed form would pass.
   */
  lemma PaddedEmailFails(s: string)
    requires s != "" && (IsWhitespace(s[0]) || IsWhitespace(s[|s| - 1]))
    ensures !EmailMatches(s)
  {
    if EmailMatches(s) {
      MatchHasNoWhitespace(s, 0);
      MatchHasNoWhitespace(s, |s| - 1);
    }
  }

  /** An email that matches is exactly its own trimmed form, and so is not blank. */
  lemma MatchingEmailIsTrimmed(s: string)
    requires EmailMatches(s)
    ensures Trim(s) == s && Trim(s) != ""
  {
    assert !IsWhitespace(s[0]) by { MatchHasNoWhitespace(s, 0); }
    assert !IsWhitespace(s[|s| - 1]) by { MatchHasNoWhitespace(s, |s| - 1); }
  }

  /** A concrete address the pattern accepts, and its padded form, which it refuses. */
  lemma EmailExamples()
    ensures EmailMatches("a@b.c")
    ensures !EmailMatches(" a@b.c")
  {
    var s := "a@b.c";
    assert s[..1] == "a" && s[2..3] == "b" && s[4..] == "c";
    assert EmailPart(s[..1]) && EmailPart(s[2..3]) && EmailPart(s[4..]);
    assert 0 < 1 && 1 + 1 < 3 < |s| - 1 && s[1] == '@' && s[3] == '.';
    PaddedEmailFails(" a@b.c");
  }

  const FirstNameRequired: string := "First name is required"
  const LastNameRequired: string := "Last name is required"
  const DisplayNameRequired: string := "Display name is required"
  const EmailRequired: string := "Email is required"
  const InvalidEmail: string := "Invalid email format"

  /** What `validateForm` accepts. */
  predicate FormValid(f: UserForm) {
    Trim(f.firstName) != "" && Trim(f.lastName) != "" && Trim(f.displayName) != ""
    && Trim(f.email) != "" && EmailMatches(f.email)
  }

  /**
   * The error map `validateForm` builds: one entry per failed rule, and none
   * exactly when the form is valid. A blank email is reported as missing,
   * any other one the pattern refuses as malformed.
   */
  function FieldErrors(f: UserForm): (e: map<FieldName, string>)
    ensures e.Keys <= {FirstName, LastName, DisplayName, Email}
    ensures Trim(f.email) == "" ==> Email in e
  {
    var e1: map<FieldName, string> := if Trim(f.firstName) == "" then map[FirstName := FirstNameRequired] else map[];
    var e2 := if Trim(f.lastName) == "" then e1[LastName := LastNameRequired] else e1;
    var e3 := if Trim(f.displayName) == "" then e2[DisplayName := DisplayNameRequired] else e2;
    if Trim(f.email) == "" then e3[Email := EmailRequired]
    else if !EmailMatches(f.email) then e3[Email := InvalidEmail]
    else e3
  }

  /** The rules behind the error map, field by field. */
  lemma FieldErrorsRules(f: UserForm)
    ensures var e := FieldErrors(f);
      && e.Keys <= {FirstName, LastName, DisplayName, Email}
      && (FirstName in e <==> Trim(f.firstName) == "")
      && (FirstName in e ==> e[FirstName] == FirstNameRequired)
      && (LastName in e <==> Trim(f.lastName) == "")
      && (LastName in e ==> e[LastName] == LastNameRequired)
      && (DisplayName in e <==> Trim(f.displayName) == "")
      && (DisplayName in e ==> e[DisplayName] == DisplayNameRequired)
      && (Email in e <==> !EmailMatches(f.email))
      && (Email in e ==> e[Email] == if Trim(f.email) == "" then EmailRequired else InvalidEmail)
  {
    BlankEmailFails(f.email);
  }

  /** The form is valid exactly when no rule fails. */
  lemma FieldErrorsEmptyIffValid(f: UserForm)
    ensures |FieldErrors(f)| == 0 <==> FormValid(f)
  {
    var e := FieldErrors(f);
    FieldErrorsRules(f);
    if !FormValid(f) {
      var k := if Trim(f.firstName) == "" then FirstName else if Trim(f.lastName) == "" then LastName
        else if Trim(f.displayName) == "" then DisplayName else Email;
      assert k in e;
    } else {
      assert e.Keys == {};
    }
  }

  /** A blank email never matches the pattern. */
  lemma BlankEmailFails(s: string)
    ensures Trim(s) == "" ==> !EmailMatches(s)
  {
    if EmailMatches(s) {
      MatchingEmailIsTrimmed(s);
    }
  }

  /** The body of a create or update call; `googleId: None` leaves the key out. */
  datatype SubmitData = SubmitData(
    firstName: string,
    lastName: string,
    displayName: string,
    email: string,
    hubspotUserId: Option<string>,
    isActive: bool,
    googleId: Option<string>)

  /**
   * The payload the submit sends: every text field trimmed, a blank HubSpot
   * id sent as null, and a Google id only when creating and only when it is
   * not blank.
   */
  predicate IsSubmitDataFor(d: SubmitData, f: UserForm, editMode: bool) {
    && d.firstName == Trim(f.firstName) && d.lastName == Trim(f.lastName)
    && d.displayName == Trim(f.displayName) && d.email == Trim(f.email)
    && d.isActive == f.isActive
    && d.hubspotUserId == (if Trim(f.hubspotUserId) == "" then None else Some(Trim(f.hubspotUserId)))
    && (d.googleId.Some? <==> !editMode && Trim(f.googleId) != "")
    && (d.googleId.Some? ==> d.googleId.value == Trim(f.googleId))
  }

  /** Building `submitData`, then adding `googleId` to it in create mode. */
  method BuildSubmitData(f: UserForm, editMode: bool) returns (d: SubmitData)
    ensures IsSubmitDataFor(d, f, editMode)
  {
    var hubspot := Trim(f.hubspotUserId);
    d := SubmitData(Trim(f.firstName), Trim(f.lastName), Trim(f.displayName), Trim(f.email),
                    if hubspot != "" then Some(hubspot) else None, f.isActive, None);
    if !editMode {
      var google := Trim(f.googleId);
      if google != "" {
        d := d.(googleId := Some(google));
      }
    }
  }

  /** One save call made to the backend. */
  datatype SaveCall = UpdateUserCall(userId: string, data: SubmitData) | CreateUserCall(data: SubmitData)

  const UpdatedToast: string := "User updated successfully"
  const CreatedToast: string := "User created successfully. Google ID will be assigned on first login."
  const SaveFallback: string := "Failed to save user"
  const UpdateFallback: string := "Failed to update user"
  const CreateFallback: string := "Failed to create user"

  /** What reading `response.data.user` throws when the body has no `data`. */
  const MissingDataError: string := "Cannot read properties of undefined (reading 'user')"

  /**
   * The toasts a submit that passed validation raises: the success toast for
   * any body, even one with `success: false`, followed by an error when the
   * body has no `data`; a thrown call raises only the wrapper's error.
   */
  function OutcomeToasts(editMode: bool, answer: WrapperAnswer<Option<UserRecord>>): (ts: seq<Toast>)
    ensures answer.Thrown? ==>
      ts == [ErrorToast(ThrownMessage(answer.backendMessage, if editMode then UpdateFallback else CreateFallback))]
    ensures answer.Body? ==> 1 <= |ts| <= 2 && ts[0] == SuccessToast(if editMode then UpdatedToast else CreatedToast)
    ensures answer.Body? ==> (|ts| == 2 <==> answer.data.None?)
  {
    match answer
    case Thrown(m) => [ErrorToast(ThrownMessage(m, if editMode then UpdateFallback else CreateFallback))]
    case Body(_, body, _) =>
      [SuccessToast(if editMode then UpdatedToast else CreatedToast)]
      + (if body.None? then [ErrorToast(MissingDataError)] else [])
  }

  class UserEditor {
    var formData: UserForm
    var errors: map<FieldName, string>
    var loading: bool
    var saveCalls: seq<SaveCall>
    var toasts: seq<Toast>
    /** The arguments of every `onUserSaved` call. */
    var savedUsers: seq<Option<UserRecord>>

    constructor ()
      ensures formData == BlankForm && errors == map[] && !loading
      ensures saveCalls == [] && toasts == [] && savedUsers == []
    {
      formData := BlankForm;
      errors := map[];
      loading := false;
      saveCalls := [];
      toasts := [];
      savedUsers := [];
    }

    /** The load effect, run whenever `user` or `isOpen` changes. */
    method Open(user: Option<UserRecord>)
      modifies this
      ensures formData == LoadForm(user) && errors == map[]
      ensures loading == old(loading) && saveCalls == old(saveCalls)
      ensures toasts == old(toasts) && savedUsers == old(savedUsers)
    {
      formData := LoadForm(user);
      errors := map[];
    }

    /** `handleInputChange`: stores the value and blanks the changed field's error if it had one. */
    method HandleInputChange(e: InputEvent)
      modifies this
      ensures e.TextInput? ==> formData == SetText(old(formData), e.field, e.value)
      ensures e.ActiveCheckbox? ==> formData == old(formData).(isActive := e.checked)
      ensures var name := if e.TextInput? then e.field else IsActive;
        errors == if name in old(errors) && old(errors)[name] != "" then old(errors)[name := ""] else old(errors)
      ensures loading == old(loading) && saveCalls == old(saveCalls)
      ensures toasts == old(toasts) && savedUsers == old(savedUsers)
    {
      var name: FieldName;
      match e {
        case TextInput(field, value) =>
          formData := SetText(formData, field, value);
          name := field;
        case ActiveCheckbox(checked) =>
          formData := formData.(isActive := checked);
          name := IsActive;
      }
      if name in errors && errors[name] != "" {
        errors := errors[name := ""];
      }
    }

    /** `validateForm`: replaces the error map with one entry per failed rule and reports whether there were none. */
    method ValidateForm() returns (ok: bool)
      modifies this
      ensures errors == FieldErrors(formData)
      ensures ok <==> |errors| == 0
      ensures formData == old(formData) && loading == old(loading) && saveCalls == old(saveCalls)
      ensures toasts == old(toasts) && savedUsers == old(savedUsers)
    {
      errors := FieldErrors(formData);
      ok := |errors| == 0;
    }

    /**
     * `handleSubmit`. `user` is the record being edited (none in create
     * mode) and `answer` the backend's answer to the save call; the call
     * settles with `data.user`, which a body without `data` cannot give.
     */
    method HandleSubmit(user: Option<UserRecord>, answer: WrapperAnswer<Option<UserRecord>>)
      modifies this
      ensures formData == old(formData) && errors == FieldErrors(formData)
      ensures FormValid(formData) ==> !loading
      ensures !FormValid(formData) ==>
        loading == old(loading) && saveCalls == old(saveCalls) && toasts == old(toasts) && savedUsers == old(savedUsers)
      ensures FormValid(formData) ==>
        && |saveCalls| == |old(saveCalls)| + 1 && saveCalls[..|old(saveCalls)|] == old(saveCalls)
        && IsSubmitDataFor(saveCalls[|old(saveCalls)|].data, formData, user.Some?)
        && (user.Some? <==> saveCalls[|old(saveCalls)|].UpdateUserCall?)
        && (user.Some? ==> saveCalls[|old(saveCalls)|].userId == user.value.id)
      ensures FormValid(formData) ==>
        && toasts == old(toasts) + OutcomeToasts(user.Some?, answer)
        && savedUsers == old(savedUsers) + (if answer.Body? && answer.data.Some? then [answer.data.value] else [])
    {
      var valid := ValidateForm();
      FieldErrorsEmptyIffValid(formData);
      if valid {
        Save(user, answer);
      }
    }

    /** The part of `handleSubmit` after validation passed: the call and its outcome. */
    method Save(user: Option<UserRecord>, answer: WrapperAnswer<Option<UserRecord>>)
      modifies this
      ensures formData == old(formData) && errors == old(errors) && !loading
      ensures |saveCalls| == |old(saveCalls)| + 1 && saveCalls[..|old(saveCalls)|] == old(saveCalls)
      ensures IsSubmitDataFor(saveCalls[|old(saveCalls)|].data, formData, user.Some?)
      ensures user.Some? <==> saveCalls[|old(saveCalls)|].UpdateUserCall?
      ensures user.Some? ==> saveCalls[|old(saveCalls)|].userId == user.value.id
      ensures toasts == old(toasts) + OutcomeToasts(user.Some?, answer)
      ensures savedUsers == old(savedUsers) + (if answer.Body? && answer.data.Some? then [answer.data.value] else [])
    {
      loading := true;
      var editMode := user.Some?;
      var data := BuildSubmitData(formData, editMode);
      var call := if editMode then UpdateUserCall(user.value.id, data) else CreateUserCall(data);
      saveCalls := saveCalls + [call];
      ReportOutcome(editMode, answer);
      loading := false;
    }

    /** The `try` block after the call, and its `catch` clause. */
    method ReportOutcome(editMode: bool, answer: WrapperAnswer<Option<UserRecord>>)
      modifies this
      ensures toasts == old(toasts) + OutcomeToasts(editMode, answer)
      ensures savedUsers == old(savedUsers) + (if answer.Body? && answer.data.Some? then [answer.data.value] else [])
      ensures formData == old(formData) && errors == old(errors)
      ensures loading == old(loading) && saveCalls == old(saveCalls)
    {
      match answer {
        case Thrown(m) =>
          toasts := toasts + [ErrorToast(OrStr(ThrownMessage(m, if editMode then UpdateFallback else CreateFallback), SaveFallback))];
        case Body(_, body, _) =>
          toasts := toasts + [SuccessToast(if editMode then UpdatedToast else CreatedToast)];
          if body.Some? {
            savedUsers := savedUsers + [body.value];
          } else {
            toasts := toasts + [ErrorToast(OrStr(MissingDataError, SaveFallback))];
          }
      }
    }
  }
}
