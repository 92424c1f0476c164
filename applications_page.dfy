/**
 * The applications page: the valid-application filter, the split into active
 * applications and the migration queue, the avatar initial, the badge colour
 * mappings and the fetch that fills the list.
 */
module ApplicationsPage {
  import opened Wrappers
  import opened JsStrings
  import opened AuthService

  /**
   * An application's settings, already parsed. `migrationRequired` is the
   * truthiness of `settings.migration_required`.
   */
  datatype AppSettings = AppSettings(
    migrationRequired: bool,
    migrationPriority: Option<string>,
    environment: Option<string>)

  /** One application as the backend lists it. */
  datatype App = App(
    id: string,
    name: Option<string>,
    displayName: Option<string>,
    settings: Option<AppSettings>)

  /** `app && (app.name || app.displayName)`. */
  predicate IsValid(entry: Option<App>) {
    entry.Some? && (Truthy(entry.value.name) || Truthy(entry.value.displayName))
  }

  /** `applications.filter(app => app && (app.name || app.displayName))`. */
  function ValidApps(entries: seq<Option<App>>): (r: seq<App>)
    ensures |r| <= |entries|
    ensures forall a :: a in r <==> Some(a) in entries && IsValid(Some(a))
  {
    if entries == [] then []
    else (if IsValid(entries[0]) then [entries[0].value] else []) + ValidApps(entries[1..])
  }

  /** `settings?.migration_required`: missing settings never queue an application. */
  predicate Queued(a: App) {
    a.settings.Some? && a.settings.value.migrationRequired
  }

  /** `activeApps`: the valid applications not waiting for migration, in order. */
  function ActiveApps(apps: seq<App>): (r: seq<App>)
    ensures forall a :: a in r <==> a in apps && !Queued(a)
  {
    if apps == [] then [] else (if !Queued(apps[0]) then [apps[0]] else []) + ActiveApps(apps[1..])
  }

  /** `queueApps`: the valid applications waiting for migration, in order. */
  function QueueApps(apps: seq<App>): (r: seq<App>)
    ensures forall a :: a in r <==> a in apps && Queued(a)
  {
    if apps == [] then [] else (if Queued(apps[0]) then [apps[0]] else []) + QueueApps(apps[1..])
  }

  /** The two lists split the valid applications: every one lands in exactly one of them. */
  lemma {:induction false} PartitionCounts(apps: seq<App>)
    ensures |ActiveApps(apps)| + |QueueApps(apps)| == |apps|
    decreases |apps|
  {
    if apps != [] {
      PartitionCounts(apps[1..]);
    }
  }

  /** Which list an application lands in is decided by its migration flag alone. */
  lemma ExactlyOneList(apps: seq<App>, a: App)
    requires a in apps
    ensures (a in ActiveApps(apps)) != (a in QueueApps(apps))
    ensures a in QueueApps(apps) <==> Queued(a)
  {
  }

  /** An application without settings is active. */
  lemma MissingSettingsAreActive(apps: seq<App>, a: App)
    requires a in apps && a.settings.None?
    ensures a in ActiveApps(apps) && a !in QueueApps(apps)
  {
  }

  /** Both lists keep the page's order: splitting a concatenation splits each part in turn. */
  lemma {:induction false} ActiveAppsAppend(xs: seq<App>, ys: seq<App>)
    ensures ActiveApps(xs + ys) == ActiveApps(xs) + ActiveApps(ys)
    decreases |xs|
  {
    if xs == [] {
      assert xs + ys == ys;
    } else {
      assert (xs + ys)[0] == xs[0];
      assert (xs + ys)[1..] == xs[1..] + ys;
      ActiveAppsAppend(xs[1..], ys);
    }
  }

  lemma {:induction false} QueueAppsAppend(xs: seq<App>, ys: seq<App>)
    ensures QueueApps(xs + ys) == QueueApps(xs) + QueueApps(ys)
    decreases |xs|
  {
    if xs == [] {
      assert xs + ys == ys;
    } else {
      assert (xs + ys)[0] == xs[0];
      assert (xs + ys)[1..] == xs[1..] + ys;
      QueueAppsAppend(xs[1..], ys);
    }
  }

  /** The valid-application filter keeps order too. */
  lemma {:induction false} ValidAppsAppend(xs: seq<Option<App>>, ys: seq<Option<App>>)
    ensures ValidApps(xs + ys) == ValidApps(xs) + ValidApps(ys)
    decreases |xs|
  {
    if xs == [] {
      assert xs + ys == ys;
    } else {
      assert (xs + ys)[0] == xs[0];
      assert (xs + ys)[1..] == xs[1..] + ys;
      ValidAppsAppend(xs[1..], ys);
    }
  }

  /** `displayName || name`, the title of a card. */
  function Title(a: App): string {
    Or(a.displayName, Or(a.name, ""))
  }

  /** `((app.displayName || app.name || 'A') + '').charAt(0).toUpperCase()`. */
  function AvatarInitial(a: App): (initial: string)
    ensures |initial| == 1
    ensures Truthy(a.displayName) ==> initial == [ToUpper(a.displayName.value[0])]
    ensures !Truthy(a.displayName) && Truthy(a.name) ==> initial == [ToUpper(a.name.value[0])]
    ensures !Truthy(a.displayName) && !Truthy(a.name) ==> initial == "A"
  {
    var shown := Or(a.displayName, Or(a.name, "A"));
    [ToUpper(shown[0])]
  }

  /** A valid application's initial is the upper-cased first character of its title. */
  lemma InitialOfValidApp(a: App)
    requires IsValid(Some(a))
    ensures Title(a) != "" && AvatarInitial(a) == [ToUpper(Title(a)[0])]
  {
  }

  const Success: string := "badge-success"
  const Warning: string := "badge-warning"
  const Neutral: string := "badge-neutral"
  const Failure: string := "badge-error"
  const Primary: string := "badge-primary"

  /** `getStatusColor`: each known status has its own badge; `'inactive'` and anything else are neutral. */
  function StatusColor(status: Option<string>): (c: string)
    ensures c == Success <==> status == Some("active")
    ensures c == Warning <==> status == Some("development")
    ensures c == Neutral <==> status != Some("active") && status != Some("development")
  {
    assert Success[6] != Warning[6] && Success[6] != Neutral[6] && Warning[6] != Neutral[6];
    if status == Some("active") then Success
    else if status == Some("development") then Warning
    else Neutral
  }

  /** `getPriorityColor`: the three priorities have three different badges, anything else is neutral. */
  function PriorityColor(priority: Option<string>): (c: string)
    ensures c == Failure <==> priority == Some("HIGH")
    ensures c == Warning <==> priority == Some("MEDIUM")
    ensures c == Success <==> priority == Some("LOW")
    ensures c == Neutral <==> priority != Some("HIGH") && priority != Some("MEDIUM") && priority != Some("LOW")
  {
    assert Failure[6] != Warning[6] && Failure[6] != Success[6] && Failure[6] != Neutral[6];
    assert Success[6] != Warning[6] && Success[6] != Neutral[6] && Warning[6] != Neutral[6];
    if priority == Some("HIGH") then Failure
    else if priority == Some("MEDIUM") then Warning
    else if priority == Some("LOW") then Success
    else Neutral
  }

  const StagingColor: string := "bg-purple-100 text-purple-800 dark:bg-purple-900/30 dark:text-purple-400"

  /** `getEnvironmentColor`: the three environments have three different styles, anything else is neutral. */
  function EnvironmentColor(environment: Option<string>): (c: string)
    ensures c == Primary <==> environment == Some("production")
    ensures c == StagingColor <==> environment == Some("staging")
    ensures c == Warning <==> environment == Some("development")
    ensures c == Neutral <==>
      (environment != Some("production") && environment != Some("staging") && environment != Some("development"))
  {
    assert Primary[6] != Warning[6] && Primary[6] != Neutral[6] && Warning[6] != Neutral[6];
    assert |StagingColor| != |Primary| && |StagingColor| != |Warning| && |StagingColor| != |Neutral|;
    if environment == Some("production") then Primary
    else if environment == Some("staging") then StagingColor
    else if environment == Some("development") then Warning
    else Neutral
  }

  /** The three maps are total: any value they do not name, a missing one included, is neutral. */
  lemma ColoursDefaultToNeutral(v: Option<string>)
    ensures v != Some("active") && v != Some("development") ==> StatusColor(v) == "badge-neutral"
    ensures StatusColor(Some("inactive")) == "badge-neutral"
    ensures v != Some("HIGH") && v != Some("MEDIUM") && v != Some("LOW") ==> PriorityColor(v) == "badge-neutral"
    ensures v != Some("production") && v != Some("staging") && v != Some("development") ==>
      EnvironmentColor(v) == "badge-neutral"
    ensures EnvironmentColor(None) == "badge-neutral" && PriorityColor(None) == "badge-neutral"
  {
    assert "inactive"[0] != "active"[0] && "inactive"[0] != "development"[0];
  }

  const LoadFailed: string := "Failed to load applications"

  /** What the page shows: the spinner, the error panel, or the two lists. */
  datatype View = Spinner | ErrorPanel(message: string) | Lists(active: seq<App>, queue: seq<App>)

  class ApplicationsList {
    var applications: seq<Option<App>>
    var loading: bool
    var error: Option<string>

    constructor ()
      ensures applications == [] && loading && error == None
    {
      applications := [];
      loading := true;
      error := None;
    }

    /**
     * `fetchApplications`: a body with success and data replaces the list,
     * any other body leaves it; a thrown call sets the fixed error; the
     * spinner always stops. An earlier error is never cleared.
     */
    method FetchApplications(answer: WrapperAnswer<seq<Option<App>>>)
      modifies this
      ensures !loading
      ensures answer.Body? && answer.success && answer.data.Some? ==> applications == answer.data.value
      ensures !(answer.Body? && answer.success && answer.data.Some?) ==> applications == old(applications)
      ensures answer.Thrown? ==> error == Some(LoadFailed)
      ensures answer.Body? ==> error == old(error)
    {
      if answer.Body? {
        if answer.success && answer.data.Some? {
          applications := answer.data.value;
        }
      } else {
        error := Some(LoadFailed);
      }
      loading := false;
    }

    /** The page's render decision: spinner first, then the error, then the two lists. */
    function Render(): (v: View)
      reads this
      ensures loading ==> v == Spinner
      ensures !loading && error.Some? && error.value != "" ==> v == ErrorPanel(error.value)
      ensures !loading && !(error.Some? && error.value != "") ==>
        v == Lists(ActiveApps(ValidApps(applications)), QueueApps(ValidApps(applications)))
      ensures v.Lists? ==> |v.active| + |v.queue| == |ValidApps(applications)|
    {
      if loading then Spinner
      else if error.Some? && error.value != "" then ErrorPanel(error.value)
      else
        var valid := ValidApps(applications);
        PartitionCounts(valid);
        Lists(ActiveApps(valid), QueueApps(valid))
    }
  }
}
