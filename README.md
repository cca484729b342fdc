# Camera console: permissions, settings page, new-user form and export endpoints

This project is a Dafny model of the few exact decision rules in a camera/video
monitoring console: its browser front end and the export API of its backend.

- **Permissions** (`permissions.dfy`). This is the constant role × resource × action
  table and `verifyPermission`. The admin role is allowed everything without a table
  lookup. Any other role gets its table entry. A missing role, resource or action key,
  or a missing optional `download`, reads as `false`. The table is indexed by string
  keys, as the object literal is, so "missing" covers every string outside the table.
  `VerifyPermission` is a function with no `reads` clause. It therefore neither reads
  nor changes the profile or the table, and repeated calls with the same arguments
  give the same answer.
- **Settings page** (`settings.dfy`). This covers the following:
  - The role-dependent tab list: a copy of the seven declared tabs, with "users" and
    "audit logs" removed by `indexOf` and `splice` unless the role is admin.
  - The dashboard camera list: filter on `ui.dashboard && enabled`, then sort by
    `ui.order`.
  - The camera labels, with `_` shown as a space.
  - The page's state transitions: the unsaved-changes dialog, the default camera,
    the tab toggle and the camera menu.

  The tab list is not derived from the permission table. The two hidden tabs show
  areas where the user row denies `view`. The user row also denies `view` on
  `config`, yet no tab is hidden for it: the camera-configuration tabs stay visible
  to non-admins.
- **New-user dialog** (`create_user_dialog.dfy`). This covers the zod schema as the
  list of issues it reports, the form's default values, and the submit sequence:
  loading on, `onCreate(user, password, role)`, reset, loading off. It also covers
  the button being disabled while loading.
- **Export endpoints** (`export_api.dfy`). This covers:
  - the three-clause overlap test, proved equal to closed-interval overlap for
    ordered intervals;
  - the camera, recordings and previews guards of `export_recording`;
  - the enum fallbacks for playback factor and source;
  - the export id `camera + "_" + 6 characters of [a-z0-9]`;
  - rename;
  - the in-use check of delete: the nested loop over the `ffmpeg` processes' open
    files under `EXPORT_DIR`;
  - the deletion itself.

  The tables, files on disk, started export jobs and the audit log are fields of one
  class. Every successful request adds exactly one audit record. Every error return
  changes nothing.

The following are parameters of the model rather than computed values:

- the process list;
- the current time (`time.time()`);
- the answer of `is_current_hour(start_time)`;
- the random id suffix, restricted to what `random.choices` can return;
- whether the awaited `onCreate` rejects.

Two behaviours of the code are worth stating plainly:

- `verifyPermission` denies every role other than admin and user everything,
  including the `export.view` and `export.download` that the user role has
  (`Permissions.UnknownRoleDenied`).
- A missing profile is treated like any non-admin role, so the settings page hides
  the two admin tabs (`Settings.SettingsViews` with `role == None`).

Two more behaviours of the code as written are stated as lemmas:

- The overlap test does not check that the requested range is ordered. A reversed
  range still matches a segment lying strictly inside it
  (`ExportApi.ReversedRangeStillMatches`).
- The guard chooses the recordings branch only for the exact string "recordings".
  The enum fallback, however, maps any unknown source string to `recordings`. So, if
  the request body admits a non-member string, an unknown source is validated
  against previews but exported from recordings
  (`ExportApi.UnknownSourceCheckedAgainstPreviews`).

## Model

| member | source | states |
|---|---|---|
| `Permissions.ActionValue` | web/src/context/permissions.tsx:4-10 | An action reads as undefined exactly when it is not one of the five members, or when it is the optional `download` and that is absent. |
| `Permissions.Lookup` | web/src/context/permissions.tsx:103-104 | The optional-chaining lookup is defined exactly for the roles admin and user, the four resources and the five actions. Every other key reads as undefined. |
| `Permissions.VerifyPermission` | web/src/context/permissions.tsx:99-105 | Admin is always allowed, whatever the resource or action. Any other allowed query is the user role on `export.view` or `export.download` (fail closed). |
| `Permissions.DefaultVerifyPermission` | web/src/context/permissions.tsx:92 | The default context never allows a query that the provider would deny. `DefaultContextFailsClosed` adds that it denies every query. |
| `Permissions.UserGrants` | web/src/context/permissions.tsx:60-105 | For the user role, the result is the table entry. It is true exactly for `export.view` and `export.download`, and false for every other pair of strings. |
| `Permissions.UnknownRoleDenied` | web/src/context/permissions.tsx:103-104 | A role other than admin or user is denied every resource and action, without an error. |
| `Permissions.AdminBypassAgreesWithTable` | web/src/context/permissions.tsx:30-102 | Every entry of the admin row is true, so the bypass gives the same answer as a plain table lookup. |
| `Permissions.UserRowWithinAdminRow` | web/src/context/permissions.tsx:30-89 | Every permission the table grants to the user role, it also grants to the admin role. |
| `Permissions.TableComplete` | web/src/context/permissions.tsx:29-90 | Both rows define all four resources, and each record defines all five actions, `download` included. |
| `Permissions.DefaultContextFailsClosed` | web/src/context/permissions.tsx:92 | The context's default `verifyPermission` denies every query, so it never grants what the provider would deny. |
| `Settings.IndexOf` | web/src/pages/Settings.tsx:65-68 | Returns -1 exactly when the tab is absent. Otherwise it returns the first index that holds the tab. |
| `Settings.Splice` | web/src/pages/Settings.tsx:66-69 | `splice(i, 1)` removes exactly one element. |
| `Settings.SpliceAtIndexOf` | web/src/pages/Settings.tsx:65-69 | Splicing at the index `indexOf` found removes the first occurrence of the tab and nothing else. |
| `Settings.RemoveFirstAbsent` | web/src/pages/Settings.tsx:65-69 | When `indexOf` finds nothing, skipping the splice leaves the list as it was. |
| `Settings.SpliceOut` | web/src/pages/Settings.tsx:65-69 | The find-then-splice step removes the first occurrence of the tab, if there is one. |
| `Settings.SettingsViews` | web/src/pages/Settings.tsx:61-73 | For an admin, the list is all seven tabs in declared order. For any other role, or no profile, it is the declared list without "users" and "audit logs", the rest in order. |
| `Settings.NonAdminViews` | web/src/pages/Settings.tsx:41-70 | The non-admin list is exactly the five tabs "UI settings" to "Ai Preview", in declared order. |
| `Settings.WithoutMembers` | web/src/pages/Settings.tsx:64-70 | A tab is in the filtered list exactly when it was declared and is not one of the removed tabs. |
| `Settings.HiddenTabsAreDeniedAreas` | web/src/pages/Settings.tsx:64-70 | Among the tabs that show a permission area ("users" shows users, "audit logs" shows logs), a tab is hidden from non-admins exactly when the user row denies `view` on its area. The iff relies on the other five tabs having no area; see `ConfigDeniedButCameraTabsShown`. |
| `Settings.ConfigDeniedButCameraTabsShown` | web/src/pages/Settings.tsx:64-70 | The tab list is not derived from the table. The user row denies `config.view`, yet "camera settings", "masks / zones" and "motion tuner" stay in the non-admin list. |
| `Settings.TitleRoundTrip` | web/src/pages/Settings.tsx:41-50 | Each tab is recovered from its declared string, so the seven toggle values are distinct. |
| `Settings.DashboardCameras` | web/src/pages/Settings.tsx:85 | Each camera that passes `ui.dashboard && enabled` is kept as often as it occurs. Every other camera is dropped. |
| `Settings.InsertByOrder` | web/src/pages/Settings.tsx:86 | Inserting into a list sorted by `ui.order` keeps it sorted and adds exactly that camera. |
| `Settings.SortByOrder` | web/src/pages/Settings.tsx:86 | The result is in non-decreasing `ui.order` and is a permutation of the input. |
| `Settings.Cameras` | web/src/pages/Settings.tsx:79-87 | With no config, the list is empty. Otherwise it is sorted by `ui.order` and holds exactly the configured cameras with `ui.dashboard && enabled`, with multiplicity. |
| `Settings.DefaultCamera` | web/src/pages/Settings.tsx:104-108 | The selection becomes the first camera's name only when it is "" and the list is non-empty. Otherwise it is unchanged. |
| `Settings.DefaultCameraSettles` | web/src/pages/Settings.tsx:104-108 | Re-running the effect changes nothing, for every selection and camera list. |
| `Settings.DisplayName` | web/src/pages/Settings.tsx:259 | The label has the same length as the name. Each `_` becomes a space and every other character is kept. |
| `Settings.DisplayNameClean` | web/src/pages/Settings.tsx:279 | A camera label never contains `_`. A name without `_` is shown unchanged. |
| `Settings.SettingsPage.constructor` | web/src/pages/Settings.tsx:54-89 | The page starts on "UI settings" with no camera selected, no unsaved changes and the dialog closed. |
| `Settings.SettingsPage.HandleDialog` | web/src/pages/Settings.tsx:93-102 | Whatever `save` is, the dialog closes and `unsavedChanges` becomes false. Nothing else changes. |
| `Settings.SettingsPage.SelectDefaultCamera` | web/src/pages/Settings.tsx:104-108 | The selection becomes `DefaultCamera` of the old selection and the list. Nothing else changes. |
| `Settings.SettingsPage.OnToggleValueChange` | web/src/pages/Settings.tsx:138-142 | An empty toggle value leaves the page toggle unchanged. A non-empty value selects the tab it names. |
| `Settings.SettingsPage.OnCameraCheckedChange` | web/src/pages/Settings.tsx:280-285 | Checking a camera selects it and closes the menu. Unchecking changes nothing. |
| `Settings.SettingsPage.OnCameraMenuOpenChange` | web/src/pages/Settings.tsx:317-323 | The menu takes the new open state, and the selection is kept. |
| `CreateUserDialog.MatchesUsernamePattern` | web/src/components/overlay/CreateUserDialog.tsx:41-43 | `^[A-Za-z0-9._]+$` matches exactly the non-empty strings made only of ASCII letters, digits, `.` and `_`. |
| `CreateUserDialog.SchemaIssues` | web/src/components/overlay/CreateUserDialog.tsx:37-46 | `min(1)` is reported exactly for the empty name, comes first, and is then always followed by the regex issue. The role issue is reported exactly for a role other than "user" or "admin", and comes last. |
| `CreateUserDialog.AcceptsIff` | web/src/components/overlay/CreateUserDialog.tsx:37-46 | The schema accepts iff the username is non-empty and drawn from `[A-Za-z0-9._]`, and the role is "user" or "admin". The password, the empty one included, never matters. |
| `CreateUserDialog.InvalidCharactersIff` | web/src/components/overlay/CreateUserDialog.tsx:41-43 | The regex issue is reported exactly when the name is empty or holds a character outside the class. |
| `CreateUserDialog.DefaultValuesRefused` | web/src/components/overlay/CreateUserDialog.tsx:38-55 | The default values fail validation with both username issues, `min(1)` then the regex. The default role "user" is valid. |
| `CreateUserDialog.CreateUserForm.constructor` | web/src/components/overlay/CreateUserDialog.tsx:35-56 | The form starts at its default values, not loading, with no `onCreate` call made. |
| `CreateUserDialog.CreateUserForm.Edit` | web/src/components/overlay/CreateUserDialog.tsx:74-131 | Editing the fields replaces the form values and touches nothing else. |
| `CreateUserDialog.CreateUserForm.CreateButtonDisabled` | web/src/components/overlay/CreateUserDialog.tsx:136 | The create button is disabled exactly while loading. `CallOnCreate` requires it, and `OnSubmit` states when it ends. |
| `CreateUserDialog.CreateUserForm.CallOnCreate` | web/src/components/overlay/CreateUserDialog.tsx:61 | `onCreate` receives (user, password, role) in that order. It is only called while the create button is disabled. |
| `CreateUserDialog.CreateUserForm.OnSubmit` | web/src/components/overlay/CreateUserDialog.tsx:58-64 | Exactly one `onCreate` call is made with the submitted values. If it resolves, the form is reset to its defaults and loading ends, so the button is enabled again. If it rejects, the form keeps its values and stays loading. |
| `CreateUserDialog.CreateUserForm.HandleSubmit` | web/src/components/overlay/CreateUserDialog.tsx:73 | `onSubmit` runs exactly when the schema accepts the current values. Otherwise nothing changes. After a submit, a resolved `onCreate` resets the form and ends loading. A rejected one keeps the values and leaves the form loading. |
| `CreateUserDialog.CreateUserForm.PressCreate` | web/src/components/overlay/CreateUserDialog.tsx:73-140 | While the button is disabled, a press submits nothing and changes nothing. Otherwise it is `HandleSubmit`. A rejected `onCreate` leaves the button disabled, so every later press is a no-op. |
| `ExportApi.OverlapsRange` | frigate/api/export.py:64-72 | The three-clause test as written: the segment start lies in the range, or its end does, or the range lies strictly inside the segment. Its meaning is stated by `OverlapIsClosedIntervalOverlap` and `ReversedRangeStillMatches`. |
| `ExportApi.OverlapIsClosedIntervalOverlap` | frigate/api/export.py:64-72 | For ordered intervals, the three-clause test equals `start <= e && end >= s`. |
| `ExportApi.ReversedRangeStillMatches` | frigate/api/export.py:64-72 | With a reversed requested range, the test matches a segment that the closed intervals do not share. |
| `ExportApi.CountOverlapping` | frigate/api/export.py:63-75 | The count of matching rows. Its contract gives only the trivial bound by the size of the table. `CountPositiveIff` states the positivity the guard tests. |
| `ExportApi.CountPositiveIff` | frigate/api/export.py:63-77 | The count is positive exactly when some segment of that camera passes the overlap test. |
| `ExportApi.PlaybackFactorOf` | frigate/api/export.py:113-117 | A factor string that is a member's value gives that member. Any other string falls back to `realtime`. |
| `ExportApi.PlaybackSourceOf` | frigate/api/export.py:118-122 | A source string that is a member's value gives that member. Any other string falls back to `recordings`. |
| `ExportApi.EnumFallbacksRoundTrip` | frigate/api/export.py:113-122 | Every member's value maps back to that member. |
| `ExportApi.UnknownSourceCheckedAgainstPreviews` | frigate/api/export.py:62-122 | A source string that is no member takes the previews guard, yet the job it starts has source `recordings`. |
| `ExportApi.ExportId` | frigate/api/export.py:104 | The id is the camera name, then `_`, then exactly 6 characters from `[a-z0-9]`. |
| `ExportApi.ExportIdRoundTrip` | frigate/api/export.py:104 | The id determines the camera name and the suffix it was built from. |
| `ExportApi.Trunc` | frigate/api/export.py:111-112 | `int()` on the start and end times rounds toward zero. |
| `ExportApi.Basename` | frigate/api/export.py:205-209 | `split("/")[-1]` is the suffix of the path after its last `/`, or the whole path when there is none. It holds no `/`. |
| `ExportApi.NamesUnder` | frigate/api/export.py:201-205 | The base names of one process's open files under `EXPORT_DIR`, in order. What it collects is stated by `NamesUnderIff`. |
| `ExportApi.ProcessNames` | frigate/api/export.py:197-205 | Only a process named `ffmpeg` whose open files could be read contributes names. `InUseIff` states the result. |
| `ExportApi.InUseNames` | frigate/api/export.py:197-205 | The `files_in_use` list, process by process. `InUseIff` states its members, and `FilesInUse` is proved equal to it. |
| `ExportApi.VideoInUse` | frigate/api/export.py:209 | The base name of the export's video is in `files_in_use`. `ExportDelete` answers 400 exactly in this case. |
| `ExportApi.NamesUnderIff` | frigate/api/export.py:201-205 | A name is collected from one process's open files exactly when one of them lies under `EXPORT_DIR` and has that base name. |
| `ExportApi.InUseIff` | frigate/api/export.py:196-207 | A name is in `files_in_use` exactly when some readable `ffmpeg` process holds open a file under `EXPORT_DIR` with that base name. |
| `ExportApi.FilesInUse` | frigate/api/export.py:196-207 | The nested loops build exactly `InUseNames`. Processes whose name or open files raise `psutil.Error` are skipped. |
| `ExportApi.ExportEndpoints.ValidCamera` | frigate/api/export.py:49 | The camera name is non-empty and configured. `ExportRecording` answers 404 exactly when this fails. |
| `ExportApi.ExportEndpoints.ExportRecording` | frigate/api/export.py:40-142 | An empty or unknown camera gives 404 before any other check. A "recordings" source with no overlapping recording gives 400. Any other source gives 400 only when the start is outside the current hour and no preview overlaps. On success, exactly one job starts with the fallback enums and truncated times, and exactly one "Export" audit record is added by the user. On every error, nothing changes. |
| `ExportApi.ExportEndpoints.ExportRename` | frigate/api/export.py:145-178 | A missing id gives 404 and changes nothing. Otherwise only that export's name becomes `new_name`, and exactly one "Rename Export" audit record is added. |
| `ExportApi.ExportEndpoints.DeleteExport` | frigate/api/export.py:217-230 | The video file and any non-empty thumbnail path are removed and the row is deleted. Exactly one "Delete Export" audit record is added. |
| `ExportApi.ExportEndpoints.ExportDelete` | frigate/api/export.py:181-239 | A missing id gives 404. A video whose base name is in use by `ffmpeg` gives 400. Both change nothing. Otherwise the export is deleted and audited as above. |

## Left out

- `get_exports` and `get_export` (frigate/api/export.py:34-37, 242-250): read-only database queries with no decision beyond a 404 for a missing id.
- The database, `psutil`, the file system and `RecordingExporter` are values here. The model does not cover query ordering, process enumeration races, or `unlink` raising for reasons other than a missing file. The exporter's background work is reduced to the record of the job it is started with.
- frigate/record/export.py is not part of this model. The enums are taken to have the members `realtime` and `timelapse_25x` (factor) and `recordings` and `preview` (source), each named by its value. That naming is what makes `Enum[value]` after the value test well-defined.
- The request body's `playback` and `source` are modelled as arbitrary strings. The field types of `ExportRecordingsBody` are not part of this model. If they are the enums, request validation refuses a non-member string first, and the path of `ExportApi.UnknownSourceCheckedAgainstPreviews` cannot occur.
- The tests `playback_factor in PlaybackFactorEnum.__members__.values()` and its source counterpart (frigate/api/export.py:115, 120) compare a string with enum members. The model takes them to succeed for a member's value, which holds only if the enums mix in `str`.
- frigate/const.py is not part of this model: `EXPORT_DIR` is a field of `ExportApi.ExportEndpoints`.
- `is_current_hour` is an opaque boolean, and the current time is a parameter. Timestamps are exact reals used only in comparisons and in the truncation to `int`; no float rounding is modelled.
- A `thumb_path` of `None` is merged with the empty string; both are falsy.
- Object-property lookups in `verifyPermission` cover own keys only. Inherited JavaScript prototype keys, such as an action named `toString`, are not modelled.
- `Settings.SortByOrder`: proves a sorted permutation, not the stability of `Array.prototype.sort`. The insertion it uses is stable, but that is not stated.
- `Settings.SettingsPage.OnToggleValueChange`: the `page` state follows `pageToggle` through a 100 ms debounced hook. That hook is not modelled, so `page` is left unchanged here.
- React scheduling is not modelled: effect and memo ordering, asynchronous profile and config loading, SWR caching, `scrollIntoView`, `document.title` and `console.log`.
- The "No Camera" label for an undefined selection (web/src/pages/Settings.tsx:257-258) cannot occur, because the selection state is always a string.
- The schema's rejection of non-string field values is not modelled. The form's inputs only produce strings.
- Pure rendering and plumbing are not modelled: web/src/components/menu/GeneralSettings.tsx, web/src/components/menu/AccountSettings.tsx, web/src/components/navigation/app-sidebar.tsx, web/src/views/settings/AuditLogsView.tsx, web/src/context/providers.tsx, web/src/api/index.tsx, frigate/api/audits.py and migrations/029_add_audit_table.py. Their only decisions are the same role-equals-admin test, a logout URL, an "anonymous" label, the HTTP redirect on 401/302/307 and a query ordered by timestamp.
