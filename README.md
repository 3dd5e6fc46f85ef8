# PersonalAssistant: service catalogue, settings store, application state and screen logic

A Dafny model of the sequential logic under the PersonalAssistant Android app, in both source revisions.

The newer revision is the `ru.topskiy` package. It has four parts:

- **The service catalogue** (`ServiceRegistry`). Nine services are shown in a fixed display order, looked up by id and grouped by category.
- **The preferences-backed settings store** (`DataStoreSettingsRepository`).
  - Reads are typed: unknown names are dropped, the enabled set falls back to `{DEALS}`, and every key has a default.
  - Writes are guarded: an empty enabled set is ignored, the favourite can only be an enabled service, and only known themes are stored.
  - Every call returns a `Result`.
- **The application-state view model** (`AppStateViewModel`). It covers:
  - the home-service resolution;
  - the toggle that refuses to disable the last service;
  - the pass-through setters that report save failures;
  - the three-write onboarding commit;
  - the initial load, with its fallback.
- **The decision logic of two screens**:
  - the main screen: the service on screen, Back handling with a 2000 ms double-press window, and the dock;
  - the onboarding screen: selection, favourite and the `isSaving` latch.

The older revision is the `ru.topsky` package, modelled alongside.

- Its registry is a plain list in declaration order, searched with `first { }`.
- Its repository has the same decoding, except that the theme defaults to `"system"` and `setTheme` also accepts `"system"`.
- Its repository and view model catch nothing: a failing transaction throws out of the launched coroutine.
- Its navigation file also holds:
  - a reactive bootstrap route choice;
  - an onboarding Start handler that fires three independent writes;
  - the dock's split into a left part, an optional middle item and a right part.

Modules, one per source component:

| module | file | models |
|---|---|---|
| `Wrappers`, `Seqs` | `wrappers.dfy`, `seqs.dfy` | `Option`/`Result`/`Outcome`; `filter`, `firstOrNull` and the list facts used throughout |
| `ServiceModel` | `service_model.dfy` | `ServiceId` with `name`/`valueOf`, `ServiceCategory`, `AppService` |
| `ServiceRegistry` | `service_registry.dfy` | newer `displayOrder`, `servicesById`, `all`, `groupedByCategory`, `byId` |
| `SettingsStore` | `settings_store.dfy` | newer repository: decoding, edits, transactions with faults, the repository class |
| `AppState` | `app_state.dfy` | newer view model and the bootstrap route choice |
| `MainScreen` | `main_screen.dfy` | newer `ServicesMainScreen` |
| `Onboarding` | `onboarding.dfy` | newer `OnboardingScreen` |
| `LegacyRegistry` | `legacy_registry.dfy` | older `ServiceRegistry` |
| `LegacySettingsStore` | `legacy_settings_store.dfy` | older `SettingsRepository` |
| `LegacyAppState` | `legacy_app_state.dfy` | older `AppStateViewModel` |
| `LegacyNavigation` | `legacy_navigation.dfy` | older `Navigation.kt`: home service, bootstrap, onboarding, main screen, dock |

How state and failures are represented:

- **The preferences snapshot** is `Prefs`. It has one optional raw field per key, so stale or unknown names can be stored.
- **Storage faults.** A repository holds `ioFaults`, a script of upcoming transaction outcomes.
  - Each `dataStore.edit` or `data.first()` consumes one entry; `true` means that transaction throws.
  - An empty script means every transaction succeeds.
  - A failing transaction leaves the snapshot as it was.
  - Early returns, such as an empty set or an unknown theme, consume nothing.
- **Run functions.** Every mutator has a pure function of the old state (`SetFavoriteRun`, `CompleteOnboardingRun`, …).
  - The method's postcondition equates its effect with that function.
  - The properties are proved about those functions.
- **The view model's `uiState`** is a field holding the `stateIn` cache. `Collect` delivers one emission of the combined flows. Mutators do not refresh it.
- **Messages** are a sequence field that only grows.
- **Time** is the integer argument `now`. Platform effects are observable fields:
  - `finished` for `Activity.finish`;
  - `hintsShown` for the Toast;
  - `crashed` for an exception escaping in the older revision.

## Model

Source paths are relative to the repository root.

| member | source | states |
|---|---|---|
| ServiceModel.ValueOf | app/src/main/java/ru/topskiy/personalassistant/core/datastore/SettingsRepository.kt:61-65 | a parsed id has exactly the given name; `None` only when no id has that name |
| ServiceModel.ValueOfName | app/src/main/java/ru/topskiy/personalassistant/core/model/ServiceId.kt:10-20 | `valueOf(id.name) == id`, and `valueOf(s) == id` iff `s` is `id.name` |
| ServiceModel.NameInjective | app/src/main/java/ru/topskiy/personalassistant/core/model/ServiceId.kt:10-20 | two ids with the same name are the same id |
| ServiceModel.EntriesListEveryIdOnce | app/src/main/java/ru/topskiy/personalassistant/core/model/ServiceId.kt:10-20 | `entries` has nine ids, no repeats, and contains every id |
| ServiceRegistry.ById | app/src/main/java/ru/topskiy/personalassistant/core/model/ServiceRegistry.kt:58-122 | `byId` is total and `byId(id).id == id` |
| ServiceRegistry.Descriptors | app/src/main/java/ru/topskiy/personalassistant/core/model/ServiceRegistry.kt:125 | mapping a list of ids keeps its length and puts `byId(ids[i])` at position `i` |
| ServiceRegistry.DisplayOrderIsPermutation | app/src/main/java/ru/topskiy/personalassistant/core/model/ServiceRegistry.kt:46-56 | `displayOrder` has the size of `entries`, the same set, no duplicates, and contains every id |
| ServiceRegistry.AllMatchesDisplayOrder | app/src/main/java/ru/topskiy/personalassistant/core/model/ServiceRegistry.kt:125 | `all[i].id == displayOrder[i]` and `all[i] == byId(displayOrder[i])` for every index |
| ServiceRegistry.AllIdsAreDisplayOrder | app/src/main/java/ru/topskiy/personalassistant/core/model/ServiceRegistry.kt:125 | the ids of `all`, in order, are `displayOrder` |
| ServiceRegistry.AllWrittenOut | app/src/main/java/ru/topskiy/personalassistant/core/model/ServiceRegistry.kt:58-125 | `all` is the nine descriptors with their routes and categories, in display order |
| ServiceRegistry.FirstInDisplayOrder | app/src/main/java/ru/topskiy/personalassistant/core/ui/AppStateViewModel.kt:27 | `firstOrNull { it.id in s }` finds a member of `s`, and finds none exactly when `s` is empty |
| ServiceRegistry.NoneFirstOnlyForEmpty | app/src/main/java/ru/topskiy/personalassistant/core/ui/AppStateViewModel.kt:27 | the search over `displayOrder` fails exactly for the empty set |
| ServiceRegistry.MembersAreGroupContents | app/src/main/java/ru/topskiy/personalassistant/core/model/ServiceRegistry.kt:128-131 | a service is in the concatenated groups iff it is in some group |
| ServiceRegistry.GroupByIsExact | app/src/main/java/ru/topskiy/personalassistant/core/model/ServiceRegistry.kt:128-131 | each group is a listed category with all its services, and is non-empty; every category with services has its group; groups keep category order; each member belongs to the list and has its group's category; with distinct categories no two groups share one |
| ServiceRegistry.GroupByCovers | app/src/main/java/ru/topskiy/personalassistant/core/model/ServiceRegistry.kt:128-131 | when every service's category is listed, the groups together hold exactly the services; a non-empty list yields a group |
| ServiceRegistry.EveryCategoryListed | app/src/main/java/ru/topskiy/personalassistant/core/model/ServiceCategory.kt:9-13 | every category is in `ServiceCategory.entries` |
| ServiceRegistry.GroupedByCategoryCoversAll | app/src/main/java/ru/topskiy/personalassistant/core/model/ServiceRegistry.kt:128-131 | `groupedByCategory` is non-empty and its groups together hold exactly the services of `all` |
| ServiceRegistry.AllCategoriesInBlocks | app/src/main/java/ru/topskiy/personalassistant/core/model/ServiceRegistry.kt:58-125 | in `all` the first four services are PLANNING, the next four FINANCE and the last HEALTH |
| ServiceRegistry.CategoryBlock | app/src/main/java/ru/topskiy/personalassistant/core/model/ServiceRegistry.kt:130 | filtering by a category that occupies exactly one contiguous block yields that block |
| ServiceRegistry.GroupedByCategoryWrittenOut | app/src/main/java/ru/topskiy/personalassistant/core/model/ServiceRegistry.kt:128-131 | the three groups PLANNING, FINANCE and HEALTH with their services, in display order |
| ServiceRegistry.GroupByThreeBlocks | app/src/main/java/ru/topskiy/personalassistant/core/model/ServiceRegistry.kt:128-131 | any nine services listed as four planning, four finance and one health service group into exactly those three blocks, in that order |
| ServiceRegistry.GroupsConcatenateToAll | app/src/main/java/ru/topskiy/personalassistant/core/model/ServiceRegistry.kt:46-131 | concatenating the groups reproduces `all` exactly |
| SettingsStore.NamesParse | app/src/main/java/ru/topskiy/personalassistant/core/datastore/SettingsRepository.kt:61-65 | every id's name parses back to that id |
| SettingsStore.ToServiceIdSet | app/src/main/java/ru/topskiy/personalassistant/core/datastore/SettingsRepository.kt:67 | an id is in the decoded set iff its name is in the raw set; unknown names are dropped |
| SettingsStore.NamesOf | app/src/main/java/ru/topskiy/personalassistant/core/datastore/SettingsRepository.kt:119 | the stored names are exactly those of the ids, and they decode back to the ids |
| SettingsStore.DecodeEnabled | app/src/main/java/ru/topskiy/personalassistant/core/datastore/SettingsRepository.kt:81-87 | never empty; the known names when there is one, and `{DEALS}` when the key is absent, empty or holds only unknown names |
| SettingsStore.DecodeId | app/src/main/java/ru/topskiy/personalassistant/core/datastore/SettingsRepository.kt:89-95 | decodes to `id` exactly when the stored string is `id.name`; absent or unknown gives null |
| SettingsStore.DataStoreSettingsRepository.Data | app/src/main/java/ru/topskiy/personalassistant/core/datastore/SettingsRepository.kt:75-79 | a failing read is seen as empty preferences, which decode to the defaults; otherwise the stored snapshot |
| SettingsStore.DataStoreSettingsRepository.SetServicesCatalogListView | app/src/main/java/ru/topskiy/personalassistant/core/datastore/SettingsRepository.kt:109-114 | new state and result are those of `SetServicesCatalogListViewRun` |
| SettingsStore.DataStoreSettingsRepository.SetEnabledServices | app/src/main/java/ru/topskiy/personalassistant/core/datastore/SettingsRepository.kt:116-126 | new state and result are those of `SetEnabledServicesRun` (empty set: no transaction) |
| SettingsStore.DataStoreSettingsRepository.SetFavorite | app/src/main/java/ru/topskiy/personalassistant/core/datastore/SettingsRepository.kt:128-142 | new state and result are those of `SetFavoriteRun` |
| SettingsStore.DataStoreSettingsRepository.SetLastService | app/src/main/java/ru/topskiy/personalassistant/core/datastore/SettingsRepository.kt:144-153 | new state and result are those of `SetLastServiceRun` |
| SettingsStore.DataStoreSettingsRepository.SetOnboardingDone | app/src/main/java/ru/topskiy/personalassistant/core/datastore/SettingsRepository.kt:155-160 | new state and result are those of `SetOnboardingDoneRun` |
| SettingsStore.DataStoreSettingsRepository.SetTheme | app/src/main/java/ru/topskiy/personalassistant/core/datastore/SettingsRepository.kt:162-168 | new state and result are those of `SetThemeRun` (unknown mode: no transaction) |
| SettingsStore.DataStoreSettingsRepository.EnsureThemeInitialized | app/src/main/java/ru/topskiy/personalassistant/core/datastore/SettingsRepository.kt:170-178 | new state and result are those of `EnsureThemeInitializedRun`: a read, then a write only when no theme is stored |
| SettingsStore.DataStoreSettingsRepository.GetInitialSettings | app/src/main/java/ru/topskiy/personalassistant/core/datastore/SettingsRepository.kt:180-193 | new state and result are those of `GetInitialSettingsRun` |
| SettingsStore.DefaultsWhenAbsentOrUnreadable | app/src/main/java/ru/topskiy/personalassistant/core/datastore/SettingsRepository.kt:75-107 | absent keys or a failed read give enabled `{DEALS}`, null favourite and last, onboarding false, theme `"light"`, list view true |
| SettingsStore.FailedCommitKeepsPrefs | app/src/main/java/ru/topskiy/personalassistant/core/datastore/SettingsRepository.kt:109-114 | a failing transaction keeps the snapshot and reports failure; a succeeding one installs the edit; each consumes one fault entry |
| SettingsStore.SetEnabledServicesEmptyIsNoOp | app/src/main/java/ru/topskiy/personalassistant/core/datastore/SettingsRepository.kt:117 | `setEnabledServices(∅)` succeeds and changes nothing |
| SettingsStore.EditEnabledServicesReadsBack | app/src/main/java/ru/topskiy/personalassistant/core/datastore/SettingsRepository.kt:118-124 | a non-empty set reads back as itself; the favourite key is removed exactly when it decodes to an id outside the set; other keys are untouched |
| SettingsStore.EditFavoriteStoresOnlyEnabled | app/src/main/java/ru/topskiy/personalassistant/core/datastore/SettingsRepository.kt:128-142 | the favourite reads back as `v` when `v` is in the decoded enabled set (with the `{DEALS}` fallback); otherwise it is removed; nothing else changes |
| SettingsStore.FavoriteWritersLeaveItEnabled | app/src/main/java/ru/topskiy/personalassistant/core/datastore/SettingsRepository.kt:116-142 | after either favourite-affecting write the stored favourite, if any, is enabled |
| SettingsStore.OtherWritesKeepFavoriteEnabled | app/src/main/java/ru/topskiy/personalassistant/core/datastore/SettingsRepository.kt:144-168 | the last-service, onboarding, theme and list-view writes preserve "the favourite is enabled" |
| SettingsStore.ScalarWritesReadBack | app/src/main/java/ru/topskiy/personalassistant/core/datastore/SettingsRepository.kt:109-160 | `setLastService(v)` reads back `v` (null included) and changes nothing else; the onboarding flag and list-view flag read back as written |
| SettingsStore.SetThemeOnlyAccepted | app/src/main/java/ru/topskiy/personalassistant/core/datastore/SettingsRepository.kt:162-168 | a mode other than "dark"/"light" is a successful no-op; an accepted one reads back after a successful write; no other key changes |
| SettingsStore.EnsureThemeInitializedOnlyFillsTheme | app/src/main/java/ru/topskiy/personalassistant/core/datastore/SettingsRepository.kt:170-178 | changes only the theme, only when it is absent, and then to "dark" or "light" from the system flag |
| SettingsStore.InitialSettingsAgreeWithFlows | app/src/main/java/ru/topskiy/personalassistant/core/datastore/SettingsRepository.kt:180-193 | succeeds iff the read succeeds, then decodes exactly what the flows decode, with a non-empty enabled set; the snapshot is not changed |
| AppState.HomeServiceIdResolution | app/src/main/java/ru/topskiy/personalassistant/core/ui/AppStateViewModel.kt:23-28 | the favourite if enabled, else the last service if enabled, else the first enabled service in list order, else DEALS |
| AppState.HomeServiceIsEnabled | app/src/main/java/ru/topskiy/personalassistant/core/ui/AppStateViewModel.kt:25-27 | over an order listing every id, a non-empty enabled set contains the home service |
| AppState.HomeServiceIdIsEnabled | app/src/main/java/ru/topskiy/personalassistant/core/ui/AppStateViewModel.kt:23-28 | over `ServiceRegistry.all`, a non-empty enabled set contains `homeServiceId()` |
| AppState.AppStateViewModel.constructor | app/src/main/java/ru/topskiy/personalassistant/core/ui/AppStateViewModel.kt:54-79 | initial `uiState` (∅, null, null, false), theme `"system"`, catalogue view not loaded, no messages |
| AppState.AppStateViewModel.Collect | app/src/main/java/ru/topskiy/personalassistant/core/ui/AppStateViewModel.kt:42-79 | one emission: the cached states become the decoded snapshot; no message |
| AppState.AppStateViewModel.ToggleService | app/src/main/java/ru/topskiy/personalassistant/core/ui/AppStateViewModel.kt:92-109 | store and messages follow `ToggleServiceRun` over the cached enabled set |
| AppState.AppStateViewModel.SetServicesCatalogListView | app/src/main/java/ru/topskiy/personalassistant/core/ui/AppStateViewModel.kt:81-87 | the repository write, with `settings_save_error` appended exactly on failure |
| AppState.AppStateViewModel.SetFavorite | app/src/main/java/ru/topskiy/personalassistant/core/ui/AppStateViewModel.kt:111-117 | the repository write, with `settings_save_error` appended exactly on failure |
| AppState.AppStateViewModel.SetLastService | app/src/main/java/ru/topskiy/personalassistant/core/ui/AppStateViewModel.kt:119-125 | the repository write, with `settings_save_error` appended exactly on failure |
| AppState.AppStateViewModel.SetOnboardingDone | app/src/main/java/ru/topskiy/personalassistant/core/ui/AppStateViewModel.kt:127-133 | the repository write, with `settings_save_error` appended exactly on failure |
| AppState.AppStateViewModel.SetEnabledServicesDirectly | app/src/main/java/ru/topskiy/personalassistant/core/ui/AppStateViewModel.kt:135-141 | the repository write, with `settings_save_error` appended exactly on failure |
| AppState.AppStateViewModel.SetTheme | app/src/main/java/ru/topskiy/personalassistant/core/ui/AppStateViewModel.kt:160-166 | the repository write, with `settings_save_error` appended exactly on failure |
| AppState.AppStateViewModel.CompleteOnboarding | app/src/main/java/ru/topskiy/personalassistant/core/ui/AppStateViewModel.kt:144-158 | result, store and messages follow `CompleteOnboardingRun` |
| AppState.AppStateViewModel.GetInitialState | app/src/main/java/ru/topskiy/personalassistant/core/ui/AppStateViewModel.kt:169-187 | result, store and messages follow `GetInitialStateRun` |
| AppState.ToggleOnWritesUnion | app/src/main/java/ru/topskiy/personalassistant/core/ui/AppStateViewModel.kt:95-98 | enabling writes `current ∪ {id}`, which reads back on success; `settings_save_error` exactly on failure |
| AppState.ToggleOffKeepsOneService | app/src/main/java/ru/topskiy/personalassistant/core/ui/AppStateViewModel.kt:99-107 | with at most one service enabled: `min_one_service_required` and no write; otherwise `current \ {id}` reads back on success, and a failure keeps the store and reports the error |
| AppState.SettersReportExactlyFailures | app/src/main/java/ru/topskiy/personalassistant/core/ui/AppStateViewModel.kt:111-141 | every pass-through setter keeps the repository's new state and emits one `settings_save_error` exactly on failure |
| AppState.CompleteOnboardingSuccess | app/src/main/java/ru/topskiy/personalassistant/core/ui/AppStateViewModel.kt:144-158 | on success: the selection enabled, onboarding done, `first` as last service, nothing emitted |
| AppState.CompleteOnboardingStopsAtFirstFailure | app/src/main/java/ru/topskiy/personalassistant/core/ui/AppStateViewModel.kt:144-158 | fails iff it emits one `settings_save_error`; the first failing write ends the call: a failing first write leaves the preferences unchanged, a failing second write keeps only the new enabled set and never writes `last_service`, a failing third write keeps the first two; with an empty selection the first write is skipped and a failing `onboardingDone` write changes nothing; with no faults it succeeds |
| AppState.GetInitialStateFallsBack | app/src/main/java/ru/topskiy/personalassistant/core/ui/AppStateViewModel.kt:169-187 | on success the stored settings and no message; on failure `({DEALS}, null, null, false)` and `settings_load_error`; the store is not changed |
| AppState.BootstrapFollowsStoredFlag | app/src/main/java/ru/topskiy/personalassistant/core/ui/BootstrapScreen.kt:21-27 | after `getInitialState`, the bootstrap goes to main iff the read succeeded and onboarding is stored as done, and to onboarding otherwise (an unreadable store included) |
| AppState.OnboardingThenBootstrapGoesToMain | app/src/main/java/ru/topskiy/personalassistant/core/ui/BootstrapScreen.kt:21-27 | after a successful commit and load, the bootstrap goes to main with the selection enabled and a selected home service |
| MainScreen.CurrentServiceIsEnabled | app/src/main/java/ru/topskiy/personalassistant/core/ui/ServicesMainScreen.kt:62-70 | with some service enabled, the service on screen is enabled |
| MainScreen.DockListsEnabledInOrder | app/src/main/java/ru/topskiy/personalassistant/core/ui/ServicesMainScreen.kt:90 | the dock is a subsequence of `all`, its ids are `displayOrder` restricted to the enabled set, each once, one per enabled service |
| MainScreen.DockVisibleIffSeveralEnabled | app/src/main/java/ru/topskiy/personalassistant/core/ui/ServicesMainScreen.kt:135 | the dock is shown iff more than one service is enabled |
| MainScreen.ReturnHomeLandsOnHome | app/src/main/java/ru/topskiy/personalassistant/core/ui/ServicesMainScreen.kt:85-87 | Back off home asks for the home service; once stored, it is on screen and is still home |
| MainScreen.BackOnHomeExitsOnlyWithinWindow | app/src/main/java/ru/topskiy/personalassistant/core/ui/ServicesMainScreen.kt:76-84 | on home, Back exits iff `now - lastBackPressTime < 2000`, else shows the hint; with the drawer active it is not handled |
| MainScreen.BackOffHomeReturnsHome | app/src/main/java/ru/topskiy/personalassistant/core/ui/ServicesMainScreen.kt:85-87 | off home, Back never exits and returns to the home service |
| MainScreen.DoublePressExits | app/src/main/java/ru/topskiy/personalassistant/core/ui/ServicesMainScreen.kt:77-84 | a first press shows the hint; a second exits iff it comes within 2000 ms of the first |
| MainScreen.ServicesMainScreen.OnBack | app/src/main/java/ru/topskiy/personalassistant/core/ui/ServicesMainScreen.kt:76-88 | acts on `BackDecision`: exit, or remember the time and show the hint, or `setLastService(home)`; the view model's cached state, theme and catalogue view mode stay as they were |
| MainScreen.ServicesMainScreen.SelectDockItem | app/src/main/java/ru/topskiy/personalassistant/core/ui/ServicesMainScreen.kt:139 | `setLastService(id)` with its error report; the view model's cached state, theme and catalogue view mode stay as they were |
| MainScreen.SelectedDockItemIsShown | app/src/main/java/ru/topskiy/personalassistant/core/ui/ServicesMainScreen.kt:62-70 | an enabled dock item, once stored as last service, is the service on screen |
| Onboarding.Toggled | app/src/main/java/ru/topskiy/personalassistant/core/ui/OnboardingScreen.kt:387-393 | the tapped service flips membership; no other service changes |
| Onboarding.FirstSelected | app/src/main/java/ru/topskiy/personalassistant/core/ui/OnboardingScreen.kt:276-278 | the first selected service exists iff something is selected, and is selected |
| Onboarding.FirstSelectedIsFirst | app/src/main/java/ru/topskiy/personalassistant/core/ui/OnboardingScreen.kt:276-278 | no service before it in display order is selected |
| Onboarding.FavoriteDialogGroupsAreSelection | app/src/main/java/ru/topskiy/personalassistant/core/ui/OnboardingScreen.kt:536-538 | the dialog's sections hold exactly the selected services in display order; none is empty |
| Onboarding.FavoriteDialogListsSelection | app/src/main/java/ru/topskiy/personalassistant/core/ui/OnboardingScreen.kt:500-538 | after "not set", every choice is a selected service, and every selected service is offered |
| Onboarding.OnboardingScreen.constructor | app/src/main/java/ru/topskiy/personalassistant/core/ui/OnboardingScreen.kt:74-76 | empty selection, no favourite, not saving |
| Onboarding.OnboardingScreen.OnSelectedServicesChange | app/src/main/java/ru/topskiy/personalassistant/core/ui/OnboardingScreen.kt:185-188 | new selection; favourite kept only if still selected; the favourite stays selected |
| Onboarding.OnboardingScreen.ToggleRow | app/src/main/java/ru/topskiy/personalassistant/core/ui/OnboardingScreen.kt:387-393 | the selection toggles the service, then the favourite rule applies |
| Onboarding.OnboardingScreen.Reset | app/src/main/java/ru/topskiy/personalassistant/core/ui/OnboardingScreen.kt:358 | nothing selected and no favourite |
| Onboarding.OnboardingScreen.SelectFavorite | app/src/main/java/ru/topskiy/personalassistant/core/ui/OnboardingScreen.kt:249 | a choice offered by the dialog becomes the favourite, which is then selected or null |
| Onboarding.OnboardingScreen.PressStart | app/src/main/java/ru/topskiy/personalassistant/core/ui/OnboardingScreen.kt:275-295 | with a selection and no save running: latch, commit; navigate and stay latched on success, release on failure; otherwise nothing changes; in every case the view model's cached state, theme and catalogue view mode stay as they were |
| Onboarding.StartGuardMatchesButton | app/src/main/java/ru/topskiy/personalassistant/core/ui/OnboardingScreen.kt:260-279 | the handler's guard holds exactly when the button is enabled |
| LegacyRegistry.FindFirst | app/src/main/java/ru/topsky/personalassistant/core/model/ServiceRegistry.kt:76-77 | finds nothing iff no entry has the id; otherwise the earliest entry with that id |
| LegacyRegistry.AllInDeclarationOrder | app/src/main/java/ru/topsky/personalassistant/core/model/ServiceRegistry.kt:19-74 | the ids of `all`, in order, are `ServiceId.entries` |
| LegacyRegistry.AllListsEveryIdOnce | app/src/main/java/ru/topsky/personalassistant/core/model/ServiceRegistry.kt:19-74 | nine entries, no id twice, every id present |
| LegacyRegistry.ById | app/src/main/java/ru/topsky/personalassistant/core/model/ServiceRegistry.kt:76-77 | `first { }` never throws; the entry is in `all` and has the id |
| LegacyRegistry.ByIdIsTheUniqueEntry | app/src/main/java/ru/topsky/personalassistant/core/model/ServiceRegistry.kt:76-77 | any entry with the id is the one `byId` returns |
| LegacyRegistry.RoutesAreLowercaseNames | app/src/main/java/ru/topsky/personalassistant/core/model/ServiceRegistry.kt:22-72 | every route is `"service/"` followed by the lower-cased id name |
| LegacySettingsStore.LegacySettingsRepository.SetEnabledServices | app/src/main/java/ru/topsky/personalassistant/core/datastore/SettingsRepository.kt:60-69 | the same edit and guard as the newer `SetEnabledServicesRun`; `Fail` is the exception |
| LegacySettingsStore.LegacySettingsRepository.SetFavorite | app/src/main/java/ru/topsky/personalassistant/core/datastore/SettingsRepository.kt:71-84 | the same edit as the newer `SetFavoriteRun` |
| LegacySettingsStore.LegacySettingsRepository.SetLastService | app/src/main/java/ru/topsky/personalassistant/core/datastore/SettingsRepository.kt:86-94 | the same edit as the newer `SetLastServiceRun` |
| LegacySettingsStore.LegacySettingsRepository.SetOnboardingDone | app/src/main/java/ru/topsky/personalassistant/core/datastore/SettingsRepository.kt:96-100 | the same edit as the newer `SetOnboardingDoneRun` |
| LegacySettingsStore.LegacySettingsRepository.SetTheme | app/src/main/java/ru/topsky/personalassistant/core/datastore/SettingsRepository.kt:102-107 | new state and outcome are those of `LegacySetThemeRun` |
| LegacySettingsStore.LegacyDecodingDiffersOnlyInTheme | app/src/main/java/ru/topsky/personalassistant/core/datastore/SettingsRepository.kt:35-58 | the revisions read the theme alike iff one is stored; empty preferences read `"system"` and the newer defaults for the other keys |
| LegacySettingsStore.LegacySetThemeOnlyAccepted | app/src/main/java/ru/topsky/personalassistant/core/datastore/SettingsRepository.kt:102-107 | "dark", "light" and "system" are stored (or fail with the snapshot kept); anything else returns without a transaction; no other key changes |
| LegacySettingsStore.SetThemeRevisionsAgreeExceptSystem | app/src/main/java/ru/topsky/personalassistant/core/datastore/SettingsRepository.kt:102-107 | both `setTheme`s agree on every mode but `"system"`, which only the older one stores |
| LegacyAppState.LegacyAppStateViewModel.constructor | app/src/main/java/ru/topsky/personalassistant/core/ui/AppStateViewModel.kt:38-53 | `uiState` (∅, null, null, false), theme `"system"`, no messages |
| LegacyAppState.LegacyAppStateViewModel.Collect | app/src/main/java/ru/topsky/personalassistant/core/ui/AppStateViewModel.kt:26-53 | one emission of the decoded snapshot, or a crash with the cache kept when the read throws |
| LegacyAppState.LegacyAppStateViewModel.ToggleService | app/src/main/java/ru/topsky/personalassistant/core/ui/AppStateViewModel.kt:58-71 | store, messages and crash flag follow `LegacyToggleServiceRun` |
| LegacyAppState.LegacyAppStateViewModel.SetFavorite | app/src/main/java/ru/topsky/personalassistant/core/ui/AppStateViewModel.kt:73-77 | forwards the argument unchanged; no message |
| LegacyAppState.LegacyAppStateViewModel.SetLastService | app/src/main/java/ru/topsky/personalassistant/core/ui/AppStateViewModel.kt:79-83 | forwards the argument unchanged; no message |
| LegacyAppState.LegacyAppStateViewModel.SetOnboardingDone | app/src/main/java/ru/topsky/personalassistant/core/ui/AppStateViewModel.kt:85-89 | forwards the argument unchanged; no message |
| LegacyAppState.LegacyAppStateViewModel.SetEnabledServicesDirectly | app/src/main/java/ru/topsky/personalassistant/core/ui/AppStateViewModel.kt:91-95 | forwards the argument unchanged; no message |
| LegacyAppState.LegacyAppStateViewModel.SetTheme | app/src/main/java/ru/topsky/personalassistant/core/ui/AppStateViewModel.kt:97-101 | forwards the argument unchanged; no message |
| LegacyAppState.LegacyToggleOnWritesUnion | app/src/main/java/ru/topsky/personalassistant/core/ui/AppStateViewModel.kt:61-62 | enabling writes `current ∪ {id}`, which reads back on success; crash iff the write throws |
| LegacyAppState.LegacyToggleOffKeepsOneService | app/src/main/java/ru/topsky/personalassistant/core/ui/AppStateViewModel.kt:63-68 | at most one enabled: the message and no write; otherwise `current \ {id}` reads back on success |
| LegacyAppState.TogglesWriteAlike | app/src/main/java/ru/topsky/personalassistant/core/ui/AppStateViewModel.kt:58-71 | both toggles store the same thing; the older one crashes iff the newer reports a save error, and emits its message iff the newer emits `min_one_service_required` |
| LegacyNavigation.LegacyHomeServiceResolution | app/src/main/java/ru/topsky/personalassistant/core/ui/Navigation.kt:129-136 | favourite, then last, then first enabled in declaration order, then DEALS; enabled whenever something is |
| LegacyNavigation.BootstrapNavigatesOnceToTarget | app/src/main/java/ru/topsky/personalassistant/core/ui/Navigation.kt:426-440 | navigates iff not already on the target, and then to the target; once there it does not navigate again |
| LegacyNavigation.LegacyFirstSelectedIsFirst | app/src/main/java/ru/topsky/personalassistant/core/ui/Navigation.kt:553-555 | exists iff something is selected; it is selected and no earlier service in declaration order is |
| LegacyNavigation.LegacyStartRunsEveryWrite | app/src/main/java/ru/topsky/personalassistant/core/ui/Navigation.kt:556-559 | three transactions are attempted whatever fails; crash iff one throws; each stored value survives its own successful write |
| LegacyNavigation.LegacyStartThenBootstrapGoesToMain | app/src/main/java/ru/topsky/personalassistant/core/ui/Navigation.kt:552-564 | without faults: selection enabled, onboarding done, first selected as last service, the bootstrap goes to main, the home service is selected |
| LegacyNavigation.LegacyOnboardingScreen.ClickRow | app/src/main/java/ru/topsky/personalassistant/core/ui/Navigation.kt:491-495 | the tapped service flips membership; nothing else changes |
| LegacyNavigation.LegacyOnboardingScreen.CheckedChange | app/src/main/java/ru/topsky/personalassistant/core/ui/Navigation.kt:503-507 | checked adds, unchecked removes |
| LegacyNavigation.LegacyOnboardingScreen.PressStart | app/src/main/java/ru/topsky/personalassistant/core/ui/Navigation.kt:552-569 | starts iff something is selected (the button's rule), then the three writes of `LegacyStartRun` and navigation to bootstrap; the view model's messages, cached state and theme stay as they were |
| LegacyNavigation.LegacyCurrentServiceChoice | app/src/main/java/ru/topsky/personalassistant/core/ui/Navigation.kt:756-762 | the last service when enabled, else the home service; enabled whenever something is |
| LegacyNavigation.RevisionsAgreeWhenAChoiceIsEnabled | app/src/main/java/ru/topsky/personalassistant/core/ui/Navigation.kt:129-136 | with an enabled favourite or last service, both revisions pick the same home and on-screen service |
| LegacyNavigation.LegacyDockListsEnabledInOrder | app/src/main/java/ru/topsky/personalassistant/core/ui/Navigation.kt:781 | the dock is a subsequence of `all`, its ids are the enabled ones in declaration order, one per enabled service |
| LegacyNavigation.DockSplitReassembles | app/src/main/java/ru/topsky/personalassistant/core/ui/Navigation.kt:853-935 | no dock for n ≤ 1, scrolling for n > 4; for 2..4, left ++ middle? ++ right is the dock, with sides of n/2 and a middle iff n is odd |
| LegacyNavigation.LegacyDockShownIffSeveralEnabled | app/src/main/java/ru/topsky/personalassistant/core/ui/Navigation.kt:810 | something is drawn iff more than one service is enabled |
| LegacyNavigation.LegacyServicesMainScreen.OnBack | app/src/main/java/ru/topsky/personalassistant/core/ui/Navigation.kt:764-779 | the same 2000 ms decision over the older home and current service; returning home forwards `setLastService(home)`; the view model's messages, cached state and theme stay as they were |
| LegacyNavigation.LegacyServicesMainScreen.SelectDockItem | app/src/main/java/ru/topsky/personalassistant/core/ui/Navigation.kt:814 | forwards `setLastService(id)`; the view model's messages, cached state and theme stay as they were |

## Left out

- Compose rendering and layout are not modelled: colours, shapes, animations, slide directions, typography, icons and string resources. Titles are kept as resource names (newer revision) or Russian strings (older revision).
- Drawer gestures are not modelled. Their thresholds (`TopBarDrawerGesture.kt`, and lines 112-127 of the older `Navigation.kt`) are float pixel arithmetic on pointer events. `drawerActive` is a boolean input of `OnBack`.
- Navigation back-stack mechanics are not modelled (`popUpTo`, `launchSingleTop`, `restoreState`). Only the chosen route is: `navigatedToMain` and `navigatedToBootstrap` in the screens, `BootstrapTarget` and `BootstrapNavigation`.
- Coroutines and flows are abstracted. Every launched coroutine runs to completion at once and in call order.
  - The `stateIn` caches are fields, with the source's initial values. `Collect` is one emission of the combined flows.
  - The time at which the cached state goes stale relative to a write is not modelled.
- DataStore file I/O, serialisation and crash consistency are replaced by the in-memory `Prefs` snapshot and the `ioFaults` fault script. A failing transaction is atomic, and logging is dropped.
- Platform inputs become parameters:
  - `System.currentTimeMillis` becomes `now`;
  - the `Context` night-mode flag becomes `systemIsDark`;
  - the Toast becomes the `hintsShown` counter;
  - `Activity.finish` becomes the `finished` flag.
- Foreign and framework code is out of scope: Firebase analytics, Crashlytics, Hilt wiring, `MainActivity` and `PersonalAssistantApp`.
- Presentation-only and catalogue screens are not modelled: the drawer, settings screens, the newer `DockBar`, `ManageServicesScreen` and `ServiceCatalogComponents`. The onboarding screen's dialog open/close flags are also not modelled.
- The three-argument `completeOnboarding` call is not modelled. `OnboardingScreen.kt:282-286` passes `(selectedServices, firstSelected, selectedFavorite)`, but `AppStateViewModel.kt:144` declares only two parameters, so the two do not fit together as written. The model follows the declaration.
  - As a result, the favourite chosen during onboarding is never persisted.
- SettingsRepositoryTest.kt:58-63 is not turned into a property. That test expects a fresh store to keep SUBSCRIPTIONS as favourite, but the code (`SettingsRepository.kt:128-142`) rejects it because only DEALS is enabled. The model follows the code.
- LegacyNavigation.DockSplitReassembles: the scrolling layout for more than four items is modelled only as the choice of that layout. Its centring arithmetic is float/dp geometry.
- LegacyAppState.LegacyAppStateViewModel: an exception escaping a launched coroutine is recorded in the `crashed` flag and execution carries on. The model does not capture the process ending.
- LegacyNavigation.LegacyOnboardingScreen.PressStart: in the source the three writes are separate launched coroutines. The model runs them in order before navigating, so their possible interleaving with each other is not modelled.
- Source comments that disagree with the code are resolved in favour of the code. The newer `SettingsRepository.kt:58` says the catalogue defaults to the grid; line 106 defaults to the list (`true`), and the model uses `true`.
