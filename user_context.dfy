/**
 * The signed-in user's profile as the web client holds it: the initial
 * load from saved state, the partial preference update and the dark-mode
 * flag.
 */
module UserContext {
  import opened Wrappers
  import opened Types

  /** A partial set of preferences: the fields given are `Some`. */
  datatype PreferencesPatch = PreferencesPatch(
    dailyGoalMinutes: Option<int>,
    notificationEnabled: Option<bool>,
    soundEnabled: Option<bool>,
    darkMode: Option<bool>,
    voiceSpeed: Option<VoiceSpeed>)

  const EmptyPatch := PreferencesPatch(None, None, None, None, None)

  function Pick<T>(given: Option<T>, current: T): T {
    if given.Some? then given.value else current
  }

  /** `{ ...prefs, ...patch }`: every field given in the patch wins. */
  function MergePreferences(prefs: UserPreferences, patch: PreferencesPatch): UserPreferences {
    UserPreferences(
      Pick(patch.dailyGoalMinutes, prefs.dailyGoalMinutes),
      Pick(patch.notificationEnabled, prefs.notificationEnabled),
      Pick(patch.soundEnabled, prefs.soundEnabled),
      Pick(patch.darkMode, prefs.darkMode),
      Pick(patch.voiceSpeed, prefs.voiceSpeed))
  }

  /** Two patches applied one after the other: the later one's fields win. */
  function Then(first: PreferencesPatch, second: PreferencesPatch): PreferencesPatch {
    PreferencesPatch(
      if second.dailyGoalMinutes.Some? then second.dailyGoalMinutes else first.dailyGoalMinutes,
      if second.notificationEnabled.Some? then second.notificationEnabled else first.notificationEnabled,
      if second.soundEnabled.Some? then second.soundEnabled else first.soundEnabled,
      if second.darkMode.Some? then second.darkMode else first.darkMode,
      if second.voiceSpeed.Some? then second.voiceSpeed else first.voiceSpeed)
  }

  /** Given fields override the old values and fields not given keep them. */
  lemma MergeOverrides(prefs: UserPreferences, patch: PreferencesPatch)
    ensures patch.dailyGoalMinutes.Some? ==> MergePreferences(prefs, patch).dailyGoalMinutes == patch.dailyGoalMinutes.value
    ensures patch.dailyGoalMinutes.None? ==> MergePreferences(prefs, patch).dailyGoalMinutes == prefs.dailyGoalMinutes
    ensures patch.notificationEnabled.Some? ==> MergePreferences(prefs, patch).notificationEnabled == patch.notificationEnabled.value
    ensures patch.notificationEnabled.None? ==> MergePreferences(prefs, patch).notificationEnabled == prefs.notificationEnabled
    ensures patch.soundEnabled.Some? ==> MergePreferences(prefs, patch).soundEnabled == patch.soundEnabled.value
    ensures patch.soundEnabled.None? ==> MergePreferences(prefs, patch).soundEnabled == prefs.soundEnabled
    ensures patch.darkMode.Some? ==> MergePreferences(prefs, patch).darkMode == patch.darkMode.value
    ensures patch.darkMode.None? ==> MergePreferences(prefs, patch).darkMode == prefs.darkMode
    ensures patch.voiceSpeed.Some? ==> MergePreferences(prefs, patch).voiceSpeed == patch.voiceSpeed.value
    ensures patch.voiceSpeed.None? ==> MergePreferences(prefs, patch).voiceSpeed == prefs.voiceSpeed
  {
  }

  /** An empty patch changes nothing, and applying a patch twice is applying it once. */
  lemma MergeIdentityAndIdempotence(prefs: UserPreferences, patch: PreferencesPatch)
    ensures MergePreferences(prefs, EmptyPatch) == prefs
    ensures MergePreferences(MergePreferences(prefs, patch), patch) == MergePreferences(prefs, patch)
  {
  }

  /** Two successive merges are one merge of the combined patch. */
  lemma MergeComposes(prefs: UserPreferences, first: PreferencesPatch, second: PreferencesPatch)
    ensures MergePreferences(MergePreferences(prefs, first), second) == MergePreferences(prefs, Then(first, second))
  {
  }

  /** The profile after a preference update: new preferences and update time, nothing else. */
  function WithPreferences(user: UserProfile, patch: PreferencesPatch, updatedAt: string): UserProfile {
    user.(preferences := MergePreferences(user.preferences, patch), updatedAt := updatedAt)
  }

  /** No profile field other than the preferences and the update time changes. */
  lemma WithPreferencesKeepsProfile(user: UserProfile, patch: PreferencesPatch, updatedAt: string)
    ensures var u := WithPreferences(user, patch, updatedAt);
      u.userId == user.userId && u.email == user.email && u.name == user.name
      && u.nativeLanguage == user.nativeLanguage && u.targetLanguage == user.targetLanguage
      && u.currentLevel == user.currentLevel && u.currentStreak == user.currentStreak
      && u.totalXp == user.totalXp && u.energy == user.energy && u.createdAt == user.createdAt
    ensures WithPreferences(user, patch, updatedAt).updatedAt == updatedAt
    ensures WithPreferences(user, EmptyPatch, user.updatedAt) == user
  {
  }

  /**
   * The demo profile used when nothing usable is saved. Both timestamps are
   * the one clock reading `now`; the source reads the clock once per field,
   * when its module is first evaluated, and reuses the profile afterwards.
   */
  function DefaultUser(now: int): (u: UserProfile)
    ensures u.userId == "demo-user" && u.currentLevel == Beginner
    ensures !u.preferences.darkMode && u.createdAt == u.updatedAt
  {
    UserProfile(
      "demo-user", "demo@lingoka.app", "Learner", "English", "Hiligaynon", Beginner,
      7, 1250, 5,
      UserPreferences(15, true, true, false, Normal),
      Timestamp(now), Timestamp(now))
  }

  /**
   * The user after loading: a missing or empty saved value, or one that
   * does not parse, gives the demo profile; otherwise the parsed value,
   * which is `None` for a saved JSON `null`.
   */
  function LoadedUser(saved: Option<string>, parse: string -> Result<Option<UserProfile>, string>, now: int): Option<UserProfile> {
    if saved.None? || saved.value == "" then Some(DefaultUser(now))
    else match parse(saved.value)
      case Ok(value) => value
      case Err(_) => Some(DefaultUser(now))
  }

  /** The three load outcomes. */
  lemma LoadOutcomes(saved: Option<string>, parse: string -> Result<Option<UserProfile>, string>, now: int)
    ensures saved.None? ==> LoadedUser(saved, parse, now) == Some(DefaultUser(now))
    ensures saved.Some? && parse(saved.value).Err? ==> LoadedUser(saved, parse, now) == Some(DefaultUser(now))
    ensures saved.Some? && saved.value != "" && parse(saved.value).Ok? ==>
      LoadedUser(saved, parse, now) == parse(saved.value).value
  {
  }

  /** Whether the document carries the `dark` class. */
  predicate DarkClass(user: Option<UserProfile>) {
    user.Some? && user.value.preferences.darkMode
  }

  /** The dark class follows a preference update that sets dark mode, and no other update moves it. */
  lemma DarkClassFollowsPatch(user: UserProfile, patch: PreferencesPatch, updatedAt: string)
    ensures patch.darkMode.Some? ==> (DarkClass(Some(WithPreferences(user, patch, updatedAt))) <==> patch.darkMode.value)
    ensures patch.darkMode.None? ==> (DarkClass(Some(WithPreferences(user, patch, updatedAt))) <==> DarkClass(Some(user)))
  {
  }

  class UserProvider {
    var user: Option<UserProfile>
    var isLoading: bool
    var error: Option<string>

    constructor()
      ensures user == None && isLoading && error == None
    {
      user := None;
      isLoading := true;
      error := None;
    }

    /** The mount effect: read the saved profile, fall back to the demo user, stop loading. */
    method Load(saved: Option<string>, parse: string -> Result<Option<UserProfile>, string>, now: int)
      modifies this
      ensures user == LoadedUser(saved, parse, now)
      ensures !isLoading && error == old(error)
    {
      if saved.Some? && saved.value != "" {
        match parse(saved.value) {
          case Ok(value) => user := value;
          case Err(_) => user := Some(DefaultUser(now));
        }
      } else {
        user := Some(DefaultUser(now));
      }
      isLoading := false;
    }

    method SetUser(u: Option<UserProfile>)
      modifies this
      ensures user == u && isLoading == old(isLoading) && error == old(error)
    {
      user := u;
    }

    /** Merge a partial preference set into the current user; nothing happens without a user. */
    method UpdatePreferences(patch: PreferencesPatch, now: int)
      modifies this
      ensures old(user).None? ==> user == None
      ensures old(user).Some? ==> user == Some(WithPreferences(old(user).value, patch, Timestamp(now)))
      ensures isLoading == old(isLoading) && error == old(error)
    {
      if user.None? {
        return;
      }
      user := Some(WithPreferences(user.value, patch, Timestamp(now)));
    }
  }
}
