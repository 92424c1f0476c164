/**
 * The application editor: how a backend record is normalised into the form,
 * the add-unique and remove-all list edits, the per-environment settings,
 * the update payload, the approval summary and the submit outcome.
 */
module EditApplication {
  import opened Wrappers
  import opened JsStrings
  import opened AuthService

  /**
   * A flag as it comes from the backend: missing, `null`, or a boolean.
   * The normalisation compares it with `!== undefined` and `!== false`.
   */
  datatype JsFlag = Undefined | Null | Flag(b: bool)

  /** One environment's settings; every field may be missing. */
  datatype EnvConfig = EnvConfig(url: Option<string>, enabled: Option<bool>, apiKey: Option<string>)

  /** The auto-assignment rules as the backend stores them. */
  datatype RawRules = RawRules(
    enabled: Option<bool>,
    domain: Option<string>,
    defaultRole: Option<string>,
    requiresApproval: JsFlag,
    autoApproveRoles: Option<seq<string>>)

  const MissingRules: RawRules := RawRules(None, None, None, Undefined, None)

  datatype RawSettings = RawSettings(apiKey: Option<string>, environments: Option<map<string, EnvConfig>>)

  /** An application record, with both the camelCase and the snake_case spellings the backend may send. */
  datatype ApplicationRecord = ApplicationRecord(
    id: string,
    name: Option<string>,
    displayName: Option<string>,
    display_name: Option<string>,
    description: Option<string>,
    url: Option<string>,
    settings: Option<RawSettings>,
    allowedOrigins: Option<seq<string>>,
    allowed_origins: Option<seq<string>>,
    callbackUrls: Option<seq<string>>,
    callback_urls: Option<seq<string>>,
    isActive: JsFlag,
    is_active: JsFlag,
    autoAssignRules: Option<RawRules>,
    auto_assign_rules: Option<RawRules>)

  datatype AutoAssignRules = AutoAssignRules(
    enabled: bool,
    domain: string,
    defaultRole: string,
    requiresApproval: bool,
    autoApproveRoles: seq<string>)

  /** The editor's form. */
  datatype AppForm = AppForm(
    name: string,
    displayName: string,
    description: string,
    url: string,
    apiKey: string,
    allowedOrigins: seq<string>,
    callbackUrls: seq<string>,
    environments: map<string, EnvConfig>,
    isActive: bool,
    autoAssignRules: AutoAssignRules)

  const DefaultDomain: string := "@prqexteriors.com"
  const DefaultRole: string := "basic_user"

  /** Local development is on by default; the other three environments are off with no URL. */
  const DefaultEnvironments: map<string, EnvConfig> := map[
    "localhost" := EnvConfig(Some("http://localhost:3000"), Some(true), None),
    "development" := EnvConfig(Some(""), Some(false), None),
    "staging" := EnvConfig(Some(""), Some(false), None),
    "production" := EnvConfig(Some(""), Some(false), None)
  ]

  /** The form before any application is loaded. */
  const InitialForm: AppForm := AppForm("", "", "", "", "", [], [], DefaultEnvironments, true,
    AutoAssignRules(false, DefaultDomain, DefaultRole, true, []))

  /** `a || b` on two optional arrays, which are truthy whenever present. */
  function FirstList(a: Option<seq<string>>, b: Option<seq<string>>): seq<string> {
    if a.Some? then a.value else b.GetOr([])
  }

  /** The rules object the loader reads: `autoAssignRules || auto_assign_rules || {}`. */
  function ChosenRules(app: ApplicationRecord): RawRules {
    if app.autoAssignRules.Some? then app.autoAssignRules.value else app.auto_assign_rules.GetOr(MissingRules)
  }

  /** `(isActive !== undefined ? isActive : is_active)`. */
  function ChosenActive(app: ApplicationRecord): JsFlag {
    if app.isActive != Undefined then app.isActive else app.is_active
  }

  /** The load effect's record-to-form normalisation. */
  function Normalise(app: ApplicationRecord): (f: AppForm)
    ensures f.isActive <==> ChosenActive(app) != Flag(false)
    ensures f.autoAssignRules.requiresApproval <==> ChosenRules(app).requiresApproval != Flag(false)
    ensures f.autoAssignRules.enabled <==> ChosenRules(app).enabled == Some(true)
    ensures f.autoAssignRules.domain == Or(ChosenRules(app).domain, DefaultDomain)
    ensures f.autoAssignRules.defaultRole == Or(ChosenRules(app).defaultRole, DefaultRole)
    ensures Truthy(app.displayName) ==> f.displayName == app.displayName.value
    ensures !Truthy(app.displayName) && Truthy(app.display_name) ==> f.displayName == app.display_name.value
    ensures !Truthy(app.displayName) && !Truthy(app.display_name) ==> f.displayName == Or(app.name, "")
    ensures f.name == Or(app.name, "")
    ensures app.settings.None? ==> f.apiKey == "" && f.environments == DefaultEnvironments
  {
    var rules := ChosenRules(app);
    var settings := app.settings.GetOr(RawSettings(None, None));
    AppForm(
      Or(app.name, ""),
      Or(app.displayName, Or(app.display_name, Or(app.name, ""))),
      Or(app.description, ""),
      Or(app.url, ""),
      Or(settings.apiKey, ""),
      FirstList(app.allowedOrigins, app.allowed_origins),
      FirstList(app.callbackUrls, app.callback_urls),
      settings.environments.GetOr(DefaultEnvironments),
      ChosenActive(app) != Flag(false),
      AutoAssignRules(
        rules.enabled == Some(true),
        Or(rules.domain, DefaultDomain),
        Or(rules.defaultRole, DefaultRole),
        rules.requiresApproval != Flag(false),
        rules.autoApproveRoles.GetOr([])))
  }

  /** Only an explicit `false` switches an application off or waives approval; `null` or a missing flag does not. */
  lemma OnlyExplicitFalseDisables(app: ApplicationRecord)
    requires app.isActive == Undefined && app.is_active == Null
    requires app.autoAssignRules == Some(MissingRules)
    ensures Normalise(app).isActive && Normalise(app).autoAssignRules.requiresApproval
    ensures Normalise(app).autoAssignRules.domain == DefaultDomain
  {
  }

  /** A present camelCase flag wins over the snake_case one, even when it is `null`. */
  lemma CamelCaseActiveWins(app: ApplicationRecord)
    requires app.isActive == Null && app.is_active == Flag(false)
    ensures Normalise(app).isActive
  {
  }

  predicate NoDuplicates(xs: seq<string>) {
    forall i, j | 0 <= i < j < |xs| :: xs[i] != xs[j]
  }

  /** Every entry is non-empty and already trimmed. */
  predicate Clean(xs: seq<string>) {
    forall k | 0 <= k < |xs| :: xs[k] != "" && Trim(xs[k]) == xs[k]
  }

  /**
   * `addOrigin`, `addCallback`, `addRole`: the list and the input box after
   * pressing Add. The trimmed input is appended when it is non-empty and not
   * yet listed, and only then is the box cleared.
   */
  function AddUnique(xs: seq<string>, input: string): (r: (seq<string>, string))
    ensures forall x :: x in r.0 <==> x in xs || (x == Trim(input) && x != "")
    ensures r.0 == xs || r.0 == xs + [Trim(input)]
    ensures r.1 == "" <==> r.0 != xs || input == ""
    ensures r.1 != "" ==> r.1 == input
  {
    var t := Trim(input);
    if t != "" && t !in xs then (xs + [t], "") else (xs, input)
  }

  /** Adding keeps the list free of duplicates and grows it by at most one. */
  lemma AddUniqueKeepsNoDuplicates(xs: seq<string>, input: string)
    requires NoDuplicates(xs)
    ensures NoDuplicates(AddUnique(xs, input).0)
    ensures |xs| <= |AddUnique(xs, input).0| <= |xs| + 1
  {
    var t := Trim(input);
    if t != "" && t !in xs {
      var ys := xs + [t];
      forall i, j | 0 <= i < j < |ys| ensures ys[i] != ys[j] {
        if j == |xs| {
          assert ys[i] == xs[i];
        } else {
          assert ys[i] == xs[i] && ys[j] == xs[j];
        }
      }
    }
  }

  /** Adding keeps every entry non-empty and trimmed. */
  lemma AddUniqueKeepsClean(xs: seq<string>, input: string)
    requires Clean(xs)
    ensures Clean(AddUnique(xs, input).0)
  {
    TrimIdempotent(input);
  }

  /** A blank or already listed input changes nothing, neither the list nor the box. */
  lemma AddUniqueRejects(xs: seq<string>, input: string)
    requires AllWhitespace(input) || Trim(input) in xs
    ensures AddUnique(xs, input) == (xs, input)
  {
    BlankIffAllWhitespace(input);
  }

  /** `list.filter(x => x !== value)`. */
  function RemoveAll(xs: seq<string>, value: string): (r: seq<string>)
    ensures |r| <= |xs|
    ensures value !in r
    ensures forall x | x != value :: x in r <==> x in xs
  {
    if xs == [] then [] else (if xs[0] != value then [xs[0]] else []) + RemoveAll(xs[1..], value)
  }

  /** Removal keeps the other entries in their order. */
  lemma {:induction false} RemoveAllAppend(xs: seq<string>, ys: seq<string>, value: string)
    ensures RemoveAll(xs + ys, value) == RemoveAll(xs, value) + RemoveAll(ys, value)
    decreases |xs|
  {
    if xs == [] {
      assert xs + ys == ys;
    } else {
      assert (xs + ys)[0] == xs[0];
      assert (xs + ys)[1..] == xs[1..] + ys;
      RemoveAllAppend(xs[1..], ys, value);
    }
  }

  /** Removing an absent value leaves the list as it is. */
  lemma {:induction false} RemoveAbsent(xs: seq<string>, value: string)
    requires value !in xs
    ensures RemoveAll(xs, value) == xs
    decreases |xs|
  {
    if xs != [] {
      assert xs[1..] + [] == xs[1..];
      RemoveAbsent(xs[1..], value);
      assert [xs[0]] + xs[1..] == xs;
    }
  }

  /** Removing what was just added restores the list. */
  lemma AddThenRemove(xs: seq<string>, input: string)
    ensures RemoveAll(AddUnique(xs, input).0, Trim(input)) == RemoveAll(xs, Trim(input))
  {
    var t := Trim(input);
    if t != "" && t !in xs {
      RemoveAllAppend(xs, [t], t);
      assert RemoveAll([t], t) == [] by { assert [t][1..] == []; }
      assert RemoveAll(xs, t) + [] == RemoveAll(xs, t);
    }
  }

  /** A field of one environment, with its new value. */
  datatype EnvChange = UrlChange(url: string) | EnabledChange(enabled: bool) | ApiKeyChange(apiKey: string)

  /**
   * `handleEnvironmentChange(env, field, value)`: that one field of that one
   * environment; an environment not yet listed starts from no fields at all.
   */
  function ChangeEnvironment(envs: map<string, EnvConfig>, env: string, change: EnvChange): (r: map<string, EnvConfig>)
    ensures r.Keys == envs.Keys + {env}
    ensures forall e | e in envs && e != env :: r[e] == envs[e]
    ensures var before := if env in envs then envs[env] else EnvConfig(None, None, None);
      && (change.UrlChange? ==> r[env] == before.(url := Some(change.url)))
      && (change.EnabledChange? ==> r[env] == before.(enabled := Some(change.enabled)))
      && (change.ApiKeyChange? ==> r[env] == before.(apiKey := Some(change.apiKey)))
  {
    var before := if env in envs then envs[env] else EnvConfig(None, None, None);
    var after := match change
      case UrlChange(u) => before.(url := Some(u))
      case EnabledChange(b) => before.(enabled := Some(b))
      case ApiKeyChange(k) => before.(apiKey := Some(k));
    envs[env := after]
  }

  /** Changing a field and then changing it back to its old value restores the settings. */
  lemma ChangeEnvironmentUndo(envs: map<string, EnvConfig>, env: string, url: string)
    requires env in envs && envs[env].url.Some?
    ensures ChangeEnvironment(ChangeEnvironment(envs, env, UrlChange(url)), env, UrlChange(envs[env].url.value)) == envs
  {
    var r := ChangeEnvironment(ChangeEnvironment(envs, env, UrlChange(url)), env, UrlChange(envs[env].url.value));
    assert forall e | e in r :: r[e] == envs[e];
  }

  datatype PayloadSettings = PayloadSettings(apiKey: string, environments: map<string, EnvConfig>)

  /** The update body: everything but `name`, which cannot be changed. */
  datatype UpdateData = UpdateData(
    displayName: string,
    description: string,
    url: string,
    isActive: bool,
    allowedOrigins: seq<string>,
    callbackUrls: seq<string>,
    settings: PayloadSettings,
    autoAssignRules: AutoAssignRules)

  /** `updateData`: the form's editable fields, with the key and the environments under `settings`. */
  function Payload(f: AppForm): (d: UpdateData)
    ensures d.settings == PayloadSettings(f.apiKey, f.environments)
    ensures d.displayName == f.displayName && d.autoAssignRules == f.autoAssignRules
  {
    UpdateData(f.displayName, f.description, f.url, f.isActive, f.allowedOrigins, f.callbackUrls,
      PayloadSettings(f.apiKey, f.environments), f.autoAssignRules)
  }

  /** The payload does not depend on the name, and every other field of the form reaches it. */
  lemma PayloadIgnoresName(f: AppForm, g: AppForm)
    ensures Payload(f) == Payload(g) <==> f.(name := g.name) == g
  {
  }

  /** The content of the "Current Configuration" panel, which is shown only while auto-assignment is enabled. */
  datatype ApprovalSummary =
    | EveryoneAutoApproved(domain: string, role: string)
    | RolesAutoApproved(roles: seq<string>)
    | EveryoneNeedsApproval

  function Summary(rules: AutoAssignRules): (s: ApprovalSummary)
    ensures s.EveryoneAutoApproved? <==> !rules.requiresApproval
    ensures s.RolesAutoApproved? <==> rules.requiresApproval && rules.autoApproveRoles != []
    ensures s.EveryoneNeedsApproval? <==> rules.requiresApproval && rules.autoApproveRoles == []
    ensures s.EveryoneAutoApproved? ==> s == EveryoneAutoApproved(rules.domain, rules.defaultRole)
    ensures s.RolesAutoApproved? ==> s.roles == rules.autoApproveRoles
  {
    if !rules.requiresApproval then EveryoneAutoApproved(rules.domain, rules.defaultRole)
    else if |rules.autoApproveRoles| > 0 then RolesAutoApproved(rules.autoApproveRoles)
    else EveryoneNeedsApproval
  }

  /**
   * The inputs wired to `handleChange`: two text boxes, which it stores
   * verbatim, and the active checkbox. The API-key box is read-only; the key
   * changes only through its Generate/Reset button.
   */
  datatype FormInput =
    | DisplayNameInput(value: string)
    | DescriptionInput(value: string)
    | ActiveCheckbox(checked: bool)

  /** The key button reads `'Reset'` once a key is set and `'Generate'` before. */
  function KeyButtonLabel(f: AppForm): (text: string)
    ensures f.apiKey != "" <==> text == "Reset"
    ensures f.apiKey == "" <==> text == "Generate"
  {
    if f.apiKey != "" then "Reset" else "Generate"
  }

  /** `handleAutoRuleChange` as the rule inputs call it. */
  datatype RuleInput =
    | RulesEnabled(checked: bool)
    | DomainInput(value: string)
    | DefaultRoleInput(value: string)
    | RequiresApproval(checked: bool)

  /** The three editable lists, each with its own input box. */
  datatype ListKind = Origins | Callbacks | AutoApproveRoles

  const UpdateFallback: string := "Failed to update application"
  const RejectedFallback: string := "Update failed"
  const MissingApplicationError: string := "Cannot read properties of null (reading 'id')"

  class ApplicationEditor {
    var formData: AppForm
    var newRole: string
    var newOrigin: string
    var newCallback: string
    var saving: bool
    var error: Option<string>
    /** The updates sent, with the application id. */
    var updateCalls: seq<(string, UpdateData)>
    /** How many times the parent was asked to refresh after a save. */
    var refreshes: nat
    var closed: bool

    constructor ()
      ensures formData == InitialForm && newRole == "" && newOrigin == "" && newCallback == ""
      ensures !saving && error == None && updateCalls == [] && refreshes == 0 && !closed
    {
      formData := InitialForm;
      newRole := "";
      newOrigin := "";
      newCallback := "";
      saving := false;
      error := None;
      updateCalls := [];
      refreshes := 0;
      closed := false;
    }

    function List(kind: ListKind): seq<string>
      reads this
    {
      match kind
      case Origins => formData.allowedOrigins
      case Callbacks => formData.callbackUrls
      case AutoApproveRoles => formData.autoAssignRules.autoApproveRoles
    }

    function Buffer(kind: ListKind): string
      reads this
    {
      match kind
      case Origins => newOrigin
      case Callbacks => newCallback
      case AutoApproveRoles => newRole
    }

    /** The form with one list replaced. */
    function WithList(kind: ListKind, xs: seq<string>): (f: AppForm)
      reads this
    {
      match kind
      case Origins => formData.(allowedOrigins := xs)
      case Callbacks => formData.(callbackUrls := xs)
      case AutoApproveRoles => formData.(autoAssignRules := formData.autoAssignRules.(autoApproveRoles := xs))
    }

    /** The load effect: an application shown in an open editor replaces the whole form. */
    method Open(application: Option<ApplicationRecord>, isOpen: bool)
      modifies this
      ensures application.Some? && isOpen ==> formData == Normalise(application.value)
      ensures !(application.Some? && isOpen) ==> formData == old(formData)
      ensures newRole == old(newRole) && newOrigin == old(newOrigin) && newCallback == old(newCallback)
      ensures saving == old(saving) && error == old(error) && updateCalls == old(updateCalls)
      ensures refreshes == old(refreshes) && closed == old(closed)
    {
      if application.Some? && isOpen {
        formData := Normalise(application.value);
      }
    }

    /** `handleChange`: the named field takes the input's value, or the checkbox's state. */
    method HandleChange(input: FormInput)
      modifies this
      ensures formData == match input
        case DisplayNameInput(v) => old(formData).(displayName := v)
        case DescriptionInput(v) => old(formData).(description := v)
        case ActiveCheckbox(c) => old(formData).(isActive := c)
      ensures newRole == old(newRole) && newOrigin == old(newOrigin) && newCallback == old(newCallback)
      ensures saving == old(saving) && error == old(error) && updateCalls == old(updateCalls)
      ensures refreshes == old(refreshes) && closed == old(closed)
    {
      match input
      case DisplayNameInput(v) => formData := formData.(displayName := v);
      case DescriptionInput(v) => formData := formData.(description := v);
      case ActiveCheckbox(c) => formData := formData.(isActive := c);
    }

    /**
     * The key button's click: the key becomes `newKey`, the generated text
     * (built from the application name, the clock and a random suffix, so a
     * parameter here); nothing else changes.
     */
    method GenerateKey(newKey: string)
      modifies this
      ensures formData == old(formData).(apiKey := newKey)
      ensures newRole == old(newRole) && newOrigin == old(newOrigin) && newCallback == old(newCallback)
      ensures saving == old(saving) && error == old(error) && updateCalls == old(updateCalls)
      ensures refreshes == old(refreshes) && closed == old(closed)
    {
      formData := formData.(apiKey := newKey);
    }

    /** `handleAutoRuleChange`: one rule field changes, the rest of the form does not. */
    method HandleRuleChange(input: RuleInput)
      modifies this
      ensures var r := old(formData).autoAssignRules;
        formData == old(formData).(autoAssignRules := match input
          case RulesEnabled(c) => r.(enabled := c)
          case DomainInput(v) => r.(domain := v)
          case DefaultRoleInput(v) => r.(defaultRole := v)
          case RequiresApproval(c) => r.(requiresApproval := c))
      ensures newRole == old(newRole) && newOrigin == old(newOrigin) && newCallback == old(newCallback)
      ensures saving == old(saving) && error == old(error) && updateCalls == old(updateCalls)
      ensures refreshes == old(refreshes) && closed == old(closed)
    {
      var r := formData.autoAssignRules;
      match input {
        case RulesEnabled(c) => r := r.(enabled := c);
        case DomainInput(v) => r := r.(domain := v);
        case DefaultRoleInput(v) => r := r.(defaultRole := v);
        case RequiresApproval(c) => r := r.(requiresApproval := c);
      }
      formData := formData.(autoAssignRules := r);
    }

    /** Typing into one list's input box. */
    method TypeInto(kind: ListKind, value: string)
      modifies this
      ensures Buffer(kind) == value
      ensures forall k | k != kind :: Buffer(k) == old(Buffer(k))
      ensures formData == old(formData) && saving == old(saving) && error == old(error)
      ensures updateCalls == old(updateCalls) && refreshes == old(refreshes) && closed == old(closed)
    {
      match kind
      case Origins => newOrigin := value;
      case Callbacks => newCallback := value;
      case AutoApproveRoles => newRole := value;
    }

    /** Pressing Add beside one list: the list and its box become what `AddUnique` says. */
    method Add(kind: ListKind)
      modifies this
      ensures var (xs, box) := AddUnique(old(List(kind)), old(Buffer(kind)));
        && formData == old(WithList(kind, xs))
        && Buffer(kind) == box
      ensures forall k | k != kind :: Buffer(k) == old(Buffer(k))
      ensures saving == old(saving) && error == old(error)
      ensures updateCalls == old(updateCalls) && refreshes == old(refreshes) && closed == old(closed)
    {
      var (xs, box) := AddUnique(List(kind), Buffer(kind));
      formData := WithList(kind, xs);
      match kind
      case Origins => newOrigin := box;
      case Callbacks => newCallback := box;
      case AutoApproveRoles => newRole := box;
    }

    /** Removing a value from one list deletes every copy of it. */
    method Remove(kind: ListKind, value: string)
      modifies this
      ensures formData == old(WithList(kind, RemoveAll(List(kind), value)))
      ensures newRole == old(newRole) && newOrigin == old(newOrigin) && newCallback == old(newCallback)
      ensures saving == old(saving) && error == old(error)
      ensures updateCalls == old(updateCalls) && refreshes == old(refreshes) && closed == old(closed)
    {
      formData := WithList(kind, RemoveAll(List(kind), value));
    }

    /** `handleEnvironmentChange`. */
    method EnvironmentChange(env: string, change: EnvChange)
      modifies this
      ensures formData == old(formData).(environments := ChangeEnvironment(old(formData).environments, env, change))
      ensures newRole == old(newRole) && newOrigin == old(newOrigin) && newCallback == old(newCallback)
      ensures saving == old(saving) && error == old(error)
      ensures updateCalls == old(updateCalls) && refreshes == old(refreshes) && closed == old(closed)
    {
      formData := formData.(environments := ChangeEnvironment(formData.environments, env, change));
    }

    /**
     * `handleSubmit`: the payload goes out with the application's id. A
     * success asks the parent to refresh and closes the editor; a rejected
     * body shows its message or "Update failed"; a thrown call shows the
     * wrapper's message. With no application the id cannot be read and
     * nothing is sent. The saving flag always ends false.
     */
    method Submit(application: Option<ApplicationRecord>, answer: WrapperAnswer<bool>)
      modifies this
      ensures !saving
      ensures application.None? ==>
        updateCalls == old(updateCalls) && error == Some(MissingApplicationError)
        && refreshes == old(refreshes) && closed == old(closed)
      ensures application.Some? ==> updateCalls == old(updateCalls) + [(application.value.id, Payload(formData))]
      ensures application.Some? && answer.Body? && answer.success ==>
        error == None && refreshes == old(refreshes) + 1 && closed
      ensures application.Some? && !(answer.Body? && answer.success) ==>
        error == Some(CallError(answer, UpdateFallback, RejectedFallback))
        && refreshes == old(refreshes) && closed == old(closed)
      ensures formData == old(formData)
      ensures newRole == old(newRole) && newOrigin == old(newOrigin) && newCallback == old(newCallback)
    {
      saving := true;
      error := None;
      if application.None? {
        error := Some(MissingApplicationError);
      } else {
        updateCalls := updateCalls + [(application.value.id, Payload(formData))];
        if answer.Body? && answer.success {
          refreshes := refreshes + 1;
          closed := true;
        } else {
          error := Some(CallError(answer, UpdateFallback, RejectedFallback));
        }
      }
      saving := false;
    }
  }
}
