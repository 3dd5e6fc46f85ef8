/**
 * The preferences-backed settings repository of the older revision.
 *
 * It stores the same keys as the current one except the catalogue view flag,
 * and its decoding of the enabled set, the favourite, the last service and
 * the onboarding flag, and its edits of them, are the same; those are shared
 * with `SettingsStore`. It differs in three ways: the theme defaults to
 * `"system"`, `setTheme` also accepts `"system"`, and nothing is caught: a
 * failing read makes the flows throw, and a failing edit throws out of the
 * setter (`Fail` below).
 */
module LegacySettingsStore {
  import opened Wrappers
  import opened ServiceModel
  import opened SettingsStore

  /** `themeFlow`'s mapping: `"system"` when absent. */
  function LegacyThemeOf(p: Prefs): (r: string)
  {
    p.theme.GetOr("system")
  }

  /** The themes the older `setTheme` accepts. */
  predicate LegacyAcceptedTheme(mode: string) {
    mode == "dark" || mode == "light" || mode == "system"
  }

  /** Any other mode returns before any transaction. */
  function LegacySetThemeRun(st: Store, mode: string): (r: Written) {
    if !LegacyAcceptedTheme(mode) then Written(st, Pass) else Commit(st, EditTheme(st.prefs, mode))
  }

  /** `SettingsRepository` of the older revision over an in-memory preferences snapshot. */
  class LegacySettingsRepository {
    var prefs: Prefs
    var ioFaults: seq<bool>

    constructor(initial: Prefs, faults: seq<bool>)
      ensures prefs == initial && ioFaults == faults
    {
      prefs := initial;
      ioFaults := faults;
    }

    function State(): (r: Store)
      reads this
    {
      Store(prefs, ioFaults)
    }

    /** `dataStore.data`: the stored snapshot, or `None` where the flow throws. */
    function Data(readFails: bool): (r: Option<Prefs>)
      reads this
    {
      if readFails then None else Some(prefs)
    }

    method Apply(w: Written) returns (res: Outcome)
      modifies this
      ensures State() == w.store && res == w.outcome
    {
      prefs := w.store.prefs;
      ioFaults := w.store.ioFaults;
      res := w.outcome;
    }

    /** `setEnabledServices`; `Fail` is the exception escaping. */
    method SetEnabledServices(ids: set<ServiceId>) returns (res: Outcome)
      modifies this
      ensures Written(State(), res) == SetEnabledServicesRun(old(State()), ids)
    {
      if ids == {} {
        return Pass;
      }
      res := Apply(Commit(State(), EditEnabledServices(prefs, ids)));
    }

    method SetFavorite(value: Option<ServiceId>) returns (res: Outcome)
      modifies this
      ensures Written(State(), res) == SetFavoriteRun(old(State()), value)
    {
      res := Apply(Commit(State(), EditFavorite(prefs, value)));
    }

    method SetLastService(value: Option<ServiceId>) returns (res: Outcome)
      modifies this
      ensures Written(State(), res) == SetLastServiceRun(old(State()), value)
    {
      res := Apply(Commit(State(), EditLastService(prefs, value)));
    }

    method SetOnboardingDone(done: bool) returns (res: Outcome)
      modifies this
      ensures Written(State(), res) == SetOnboardingDoneRun(old(State()), done)
    {
      res := Apply(Commit(State(), EditOnboardingDone(prefs, done)));
    }

    method SetTheme(mode: string) returns (res: Outcome)
      modifies this
      ensures Written(State(), res) == LegacySetThemeRun(old(State()), mode)
    {
      if mode != "dark" && mode != "light" && mode != "system" {
        return Pass;
      }
      res := Apply(Commit(State(), EditTheme(prefs, mode)));
    }
  }

  // ---- properties ----

  /**
   * The two revisions decode a snapshot alike except for the theme, which they
   * read alike exactly when one is stored; with no theme stored the older one
   * reads `"system"`.
   */
  lemma LegacyDecodingDiffersOnlyInTheme(p: Prefs)
    ensures LegacyThemeOf(p) == ThemeOf(p) <==> p.theme.Some?
    ensures LegacyThemeOf(EmptyPrefs) == "system"
    ensures InitialSettingsOf(EmptyPrefs) == DefaultSettings
  {
    DefaultsWhenAbsentOrUnreadable(p, true);
  }

  /**
   * The older `setTheme(m)` changes the stored theme exactly for "dark",
   * "light" and "system"; anything else returns without a transaction. No
   * other key changes.
   */
  lemma LegacySetThemeOnlyAccepted(st: Store, mode: string)
    ensures !LegacyAcceptedTheme(mode) ==> LegacySetThemeRun(st, mode) == Written(st, Pass)
    ensures LegacyAcceptedTheme(mode) && !NextFails(st.ioFaults) ==>
      LegacyThemeOf(LegacySetThemeRun(st, mode).store.prefs) == mode && LegacySetThemeRun(st, mode).outcome == Pass
    ensures LegacyAcceptedTheme(mode) && NextFails(st.ioFaults) ==>
      LegacySetThemeRun(st, mode) == Written(Store(st.prefs, Rest(st.ioFaults)), Fail)
    ensures LegacySetThemeRun(st, mode).store.prefs.(theme := st.prefs.theme) == st.prefs
  {
  }

  /** The two revisions' `setTheme` agree except on `"system"`, which only the older one stores. */
  lemma SetThemeRevisionsAgreeExceptSystem(st: Store, mode: string)
    ensures mode != "system" ==> LegacySetThemeRun(st, mode) == SetThemeRun(st, mode)
    ensures SetThemeRun(st, "system") == Written(st, Pass)
    ensures !NextFails(st.ioFaults) ==> LegacyThemeOf(LegacySetThemeRun(st, "system").store.prefs) == "system"
  {
  }
}
