/**
 * The decision logic of the settings page (web/src/pages/Settings.tsx): the
 * role-dependent tab list, the dashboard camera list, the default camera, the
 * unsaved-changes dialog, the tab toggle and the camera labels.
 */
module Settings {
  import opened Wrappers
  import Permissions

  /** The page's tabs, the members of `SettingsType`. */
  datatype SettingsView = UiSettings | CameraSettings | MasksZones | MotionTuner | AiPreview | Users | AuditLogs

  /** The string each tab is declared as, which is also its toggle value. */
  function Title(v: SettingsView): (t: string)
    ensures t != ""
  {
    match v
    case UiSettings => "UI settings"
    case CameraSettings => "camera settings"
    case MasksZones => "masks / zones"
    case MotionTuner => "motion tuner"
    case AiPreview => "Ai Preview"
    case Users => "users"
    case AuditLogs => "audit logs"
  }

  /** `allSettingsViews`: every tab, in declared order. */
  const AllSettingsViews: seq<SettingsView> :=
    [UiSettings, CameraSettings, MasksZones, MotionTuner, AiPreview, Users, AuditLogs]

  /** The tabs removed for every profile whose role is not admin. */
  const AdminOnlyViews: set<SettingsView> := {Users, AuditLogs}

  /** `views` without the entries in `hidden`, the rest in their original order. */
  function Without(views: seq<SettingsView>, hidden: set<SettingsView>): (r: seq<SettingsView>)
    ensures |r| <= |views|
  {
    if views == [] then []
    else (if views[0] in hidden then [] else [views[0]]) + Without(views[1..], hidden)
  }

  /** A tab survives `Without` exactly when it was listed and is not hidden. */
  lemma {:induction false} WithoutMembers(views: seq<SettingsView>, hidden: set<SettingsView>, v: SettingsView)
    ensures v in Without(views, hidden) <==> v in views && v !in hidden
  {
    if views != [] {
      WithoutMembers(views[1..], hidden, v);
      assert views == [views[0]] + views[1..];
    }
  }

  /** `views` with its first occurrence of `x` removed, if there is one. */
  function RemoveFirst(views: seq<SettingsView>, x: SettingsView): seq<SettingsView> {
    if views == [] then []
    else if views[0] == x then views[1..]
    else [views[0]] + RemoveFirst(views[1..], x)
  }

  /** `Array.prototype.indexOf`: the first index holding `x`, or -1. */
  method IndexOf(views: seq<SettingsView>, x: SettingsView) returns (i: int)
    ensures i == -1 ==> x !in views
    ensures i != -1 ==> 0 <= i < |views| && views[i] == x && x !in views[..i]
  {
    i := 0;
    while i < |views|
      invariant 0 <= i <= |views|
      invariant x !in views[..i]
    {
      if views[i] == x {
        return;
      }
      i := i + 1;
    }
    assert views[..i] == views;
    i := -1;
  }

  /** `splice(i, 1)`: the sequence without its element at `i`. */
  function Splice(views: seq<SettingsView>, i: nat): (r: seq<SettingsView>)
    requires i < |views|
    ensures |r| == |views| - 1
  {
    views[..i] + views[i + 1..]
  }

  /** Splicing out what `indexOf` found removes the first occurrence, and only it. */
  lemma {:induction false} SpliceAtIndexOf(views: seq<SettingsView>, x: SettingsView, i: nat)
    requires i < |views| && views[i] == x && x !in views[..i]
    ensures Splice(views, i) == RemoveFirst(views, x)
  {
    if i == 0 {
      assert Splice(views, 0) == views[1..];
    } else {
      assert views[1..][..i - 1] == views[1..i];
      assert x !in views[1..][..i - 1] by { assert views[..i] == [views[0]] + views[1..i]; }
      SpliceAtIndexOf(views[1..], x, i - 1);
      assert Splice(views, i) == [views[0]] + Splice(views[1..], i - 1);
    }
  }

  /** Removing an element that does not occur changes nothing. */
  lemma {:induction false} RemoveFirstAbsent(views: seq<SettingsView>, x: SettingsView)
    requires x !in views
    ensures RemoveFirst(views, x) == views
  {
    if views != [] {
      RemoveFirstAbsent(views[1..], x);
    }
  }

  /** Removes `x` from `views` the way the page does: find its index, splice if found. */
  method SpliceOut(views: seq<SettingsView>, x: SettingsView) returns (r: seq<SettingsView>)
    ensures r == RemoveFirst(views, x)
  {
    r := views;
    var index := IndexOf(r, x);
    if index > -1 {
      SpliceAtIndexOf(r, x, index);
      r := Splice(r, index);
    } else {
      RemoveFirstAbsent(r, x);
    }
  }

  /**
   * The `settingsViews` memo: a copy of the declared tabs, from which "users"
   * and "audit logs" are spliced out unless the profile's role is admin
   * (`role` is `None` when there is no profile or it has no role). The
   * declared list itself is a constant and stays as it is.
   */
  method SettingsViews(role: Option<string>) returns (views: seq<SettingsView>)
    ensures role == Some(Permissions.AdminRole) ==> views == AllSettingsViews
    ensures role != Some(Permissions.AdminRole) ==> views == Without(AllSettingsViews, AdminOnlyViews)
  {
    views := AllSettingsViews;
    if role != Some(Permissions.AdminRole) {
      views := SpliceOut(views, Users);
      views := SpliceOut(views, AuditLogs);
      NonAdminViews();
    }
  }

  /** The non-admin tab list, written out: five tabs in declared order. */
  lemma NonAdminViews()
    ensures RemoveFirst(RemoveFirst(AllSettingsViews, Users), AuditLogs)
         == Without(AllSettingsViews, AdminOnlyViews)
         == [UiSettings, CameraSettings, MasksZones, MotionTuner, AiPreview]
  {
    var all := AllSettingsViews;
    var kept := [UiSettings, CameraSettings, MasksZones, MotionTuner, AiPreview];
    SpliceAtIndexOf(all, Users, 5);
    var once := Splice(all, 5);
    assert once == kept + [AuditLogs];
    SpliceAtIndexOf(once, AuditLogs, 5);
    assert Splice(once, 5) == kept;
  }

  /** The permission area a tab shows, for the tabs that show one. */
  function TabArea(tab: SettingsView): Option<string> {
    match tab
    case Users => Some("users")
    case AuditLogs => Some("logs")
    case _ => None
  }

  /**
   * The tabs hidden from non-admins are exactly the tabs whose permission area
   * the user row of the table denies `view` on.
   */
  lemma HiddenTabsAreDeniedAreas(tab: SettingsView)
    ensures tab !in Without(AllSettingsViews, AdminOnlyViews) <==>
      TabArea(tab).Some? && !Permissions.VerifyPermission(Permissions.UserRole, TabArea(tab).value, "view")
  {
  }

  /**
   * The tab list is not derived from the table: the user row also denies `view`
   * on `config`, yet the three camera-configuration tabs stay visible to non-admins.
   */
  lemma ConfigDeniedButCameraTabsShown()
    ensures !Permissions.VerifyPermission(Permissions.UserRole, "config", "view")
    ensures CameraSettings in Without(AllSettingsViews, AdminOnlyViews)
    ensures MasksZones in Without(AllSettingsViews, AdminOnlyViews)
    ensures MotionTuner in Without(AllSettingsViews, AdminOnlyViews)
  {
    Permissions.UserGrants("config", "view");
    NonAdminViews();
  }

  // ---------------------------------------------------------------- cameras

  datatype CameraUi = CameraUi(dashboard: bool, order: int)
  datatype CameraConfig = CameraConfig(name: string, enabled: bool, ui: CameraUi)

  /** The filter of the `cameras` memo. */
  predicate OnDashboard(c: CameraConfig) {
    c.ui.dashboard && c.enabled
  }

  /** The cameras that pass the filter, each as often as it occurs, in their order. */
  function DashboardCameras(cameras: seq<CameraConfig>): (r: seq<CameraConfig>)
    ensures forall c :: multiset(r)[c] == if OnDashboard(c) then multiset(cameras)[c] else 0
  {
    if cameras == [] then []
    else
      assert cameras == [cameras[0]] + cameras[1..];
      (if OnDashboard(cameras[0]) then [cameras[0]] else []) + DashboardCameras(cameras[1..])
  }

  predicate SortedByOrder(s: seq<CameraConfig>) {
    forall i, j :: 0 <= i < j < |s| ==> s[i].ui.order <= s[j].ui.order
  }

  /** Inserts `c` before the first camera whose order is not smaller. */
  function InsertByOrder(c: CameraConfig, s: seq<CameraConfig>): (r: seq<CameraConfig>)
    requires SortedByOrder(s)
    ensures SortedByOrder(r)
    ensures multiset(r) == multiset(s) + multiset{c}
  {
    if s == [] || c.ui.order <= s[0].ui.order then [c] + s
    else
      var rest := InsertByOrder(c, s[1..]);
      InsertedAbove(s[0], c, s[1..], rest);
      assert s == [s[0]] + s[1..];
      [s[0]] + rest
  }

  /** A camera no later than every element of `t` and than `c` stays no later than their merge. */
  lemma InsertedAbove(head: CameraConfig, c: CameraConfig, t: seq<CameraConfig>, rest: seq<CameraConfig>)
    requires head.ui.order <= c.ui.order
    requires forall k :: 0 <= k < |t| ==> head.ui.order <= t[k].ui.order
    requires SortedByOrder(rest) && multiset(rest) == multiset(t) + multiset{c}
    ensures SortedByOrder([head] + rest)
  {
    forall k | 0 <= k < |rest| ensures head.ui.order <= rest[k].ui.order {
      assert rest[k] in multiset(rest);
      if rest[k] != c {
        assert rest[k] in multiset(t);
        assert rest[k] in t;
      }
    }
  }

  /** The comparator sort `(a, b) => a.ui.order - b.ui.order`, as an insertion sort. */
  function SortByOrder(s: seq<CameraConfig>): (r: seq<CameraConfig>)
    ensures SortedByOrder(r)
    ensures multiset(r) == multiset(s)
  {
    if s == [] then []
    else
      assert s == [s[0]] + s[1..];
      InsertByOrder(s[0], SortByOrder(s[1..]))
  }

  /**
   * The `cameras` memo: empty without a config; otherwise the configured
   * cameras on the dashboard and enabled, in non-decreasing `ui.order`.
   */
  function Cameras(config: Option<seq<CameraConfig>>): (r: seq<CameraConfig>)
    ensures config.None? ==> r == []
    ensures SortedByOrder(r)
    ensures forall c :: multiset(r)[c] == if config.Some? && OnDashboard(c) then multiset(config.value)[c] else 0
    ensures forall c :: c in r <==> config.Some? && c in config.value && OnDashboard(c)
  {
    match config
    case None => []
    case Some(cameras) => SortByOrder(DashboardCameras(cameras))
  }

  /** The default-camera effect: pick the first camera while nothing is selected. */
  function DefaultCamera(selected: string, cameras: seq<CameraConfig>): (r: string)
    ensures selected == "" && |cameras| > 0 ==> r == cameras[0].name
    ensures selected != "" || |cameras| == 0 ==> r == selected
  {
    if |cameras| > 0 && selected == "" then cameras[0].name else selected
  }

  /** Running the effect again changes nothing, whatever the selection and the list. */
  lemma DefaultCameraSettles(selected: string, cameras: seq<CameraConfig>)
    ensures DefaultCamera(DefaultCamera(selected, cameras), cameras) == DefaultCamera(selected, cameras)
  {
  }

  /** A camera's label: its name with every `_` replaced by a space. */
  function DisplayName(name: string): (shown: string)
    ensures |shown| == |name|
    ensures forall i :: 0 <= i < |name| ==> shown[i] == if name[i] == '_' then ' ' else name[i]
  {
    if name == [] then []
    else [if name[0] == '_' then ' ' else name[0]] + DisplayName(name[1..])
  }

  /** A label never shows an underscore, and names without one are shown as they are. */
  lemma DisplayNameClean(name: string)
    ensures '_' !in DisplayName(name)
    ensures '_' !in name ==> DisplayName(name) == name
  {
  }

  // ---------------------------------------------------------- page state

  /** The tab a toggle value names, if it names one. */
  function ViewOfTitle(t: string): (v: Option<SettingsView>)
    ensures v.Some? ==> Title(v.value) == t
  {
    if t == "UI settings" then Some(UiSettings)
    else if t == "camera settings" then Some(CameraSettings)
    else if t == "masks / zones" then Some(MasksZones)
    else if t == "motion tuner" then Some(MotionTuner)
    else if t == "Ai Preview" then Some(AiPreview)
    else if t == "users" then Some(Users)
    else if t == "audit logs" then Some(AuditLogs)
    else None
  }

  /** Every tab is recovered from its toggle value, so distinct tabs have distinct values. */
  lemma TitleRoundTrip(v: SettingsView)
    ensures ViewOfTitle(Title(v)) == Some(v)
  {
  }

  /** The page's state cells and the transitions its handlers make. */
  class SettingsPage {
    var page: SettingsView
    var pageToggle: SettingsView
    var selectedCamera: string
    var unsavedChanges: bool
    var confirmationDialogOpen: bool
    var cameraMenuOpen: bool

    constructor ()
      ensures page == UiSettings && pageToggle == UiSettings && selectedCamera == ""
      ensures !unsavedChanges && !confirmationDialogOpen && !cameraMenuOpen
    {
      page := UiSettings;
      pageToggle := UiSettings;
      selectedCamera := "";
      unsavedChanges := false;
      confirmationDialogOpen := false;
      cameraMenuOpen := false;
    }

    /** `handleDialog`: whatever `save` is, the dialog closes and the changes are dropped. */
    method HandleDialog(save: bool)
      modifies this
      ensures !confirmationDialogOpen && !unsavedChanges
      ensures page == old(page) && pageToggle == old(pageToggle)
      ensures selectedCamera == old(selectedCamera) && cameraMenuOpen == old(cameraMenuOpen)
    {
      if unsavedChanges && save {
        // saving is not implemented by the page
      }
      confirmationDialogOpen := false;
      unsavedChanges := false;
    }

    /** The default-camera effect, run once against the current camera list. */
    method SelectDefaultCamera(cameras: seq<CameraConfig>)
      modifies this
      ensures selectedCamera == DefaultCamera(old(selectedCamera), cameras)
      ensures page == old(page) && pageToggle == old(pageToggle) && unsavedChanges == old(unsavedChanges)
      ensures confirmationDialogOpen == old(confirmationDialogOpen) && cameraMenuOpen == old(cameraMenuOpen)
    {
      if |cameras| > 0 && selectedCamera == "" {
        selectedCamera := cameras[0].name;
      }
    }

    /**
     * The toggle group's `onValueChange`: the group emits a tab's value, or ""
     * when the pressed tab is released; "" is ignored.
     */
    method OnToggleValueChange(value: string)
      requires value == "" || ViewOfTitle(value).Some?
      modifies this
      ensures value == "" ==> pageToggle == old(pageToggle)
      ensures value != "" ==> Title(pageToggle) == value
      ensures page == old(page) && selectedCamera == old(selectedCamera) && unsavedChanges == old(unsavedChanges)
      ensures confirmationDialogOpen == old(confirmationDialogOpen) && cameraMenuOpen == old(cameraMenuOpen)
    {
      if value != "" {
        pageToggle := ViewOfTitle(value).value;
      }
    }

    /** A camera switch in the camera menu: checking one selects it and closes the menu. */
    method OnCameraCheckedChange(name: string, isChecked: bool)
      modifies this
      ensures selectedCamera == if isChecked then name else old(selectedCamera)
      ensures cameraMenuOpen == (old(cameraMenuOpen) && !isChecked)
      ensures page == old(page) && pageToggle == old(pageToggle) && unsavedChanges == old(unsavedChanges)
      ensures confirmationDialogOpen == old(confirmationDialogOpen)
    {
      if isChecked {
        selectedCamera := name;
        cameraMenuOpen := false;
      }
    }

    /** The camera menu's `onOpenChange`: re-sets the selection to itself and records `open`. */
    method OnCameraMenuOpenChange(open: bool)
      modifies this
      ensures cameraMenuOpen == open && selectedCamera == old(selectedCamera)
      ensures page == old(page) && pageToggle == old(pageToggle) && unsavedChanges == old(unsavedChanges)
      ensures confirmationDialogOpen == old(confirmationDialogOpen)
    {
      if !open {
        selectedCamera := selectedCamera;
      }
      cameraMenuOpen := open;
    }
  }
}
