/**
 * What the settings service computes from the database's answers: the
 * stored row turned into a complete settings record, and the results of
 * creating and updating a row. The queries themselves are not modelled;
 * their answers are parameters.
 */
module SettingsService {
  import opened Wrappers
  import opened Backend
  import opened UserSettings

  /**
   * A stored row as the page receives it: each column is present or
   * missing (`null` or `undefined`).
   */
  datatype Row = Row(
    theme: Option<string>,
    language: Option<string>,
    animationsReduced: Option<bool>,
    colorblindMode: Option<string>,
    fontSize: Option<string>,
    masterVolume: Option<int>,
    effectsVolume: Option<int>,
    aiVolume: Option<int>,
    aiDifficulty: Option<string>,
    aiPersonality: Option<string>,
    aiVoiceType: Option<string>,
    profileVisibility: Option<string>,
    activityStatus: Option<bool>,
    showGameActivity: Option<bool>,
    allowFriendRequests: Option<bool>,
    shareStats: Option<bool>,
    notificationsEnabled: Option<bool>,
    soundsEnabled: Option<bool>,
    animationsEnabled: Option<bool>)

  /** A row with every column missing. */
  const EmptyRow: Row := Row(
    None, None, None, None, None, None, None, None, None, None,
    None, None, None, None, None, None, None, None, None)

  /** `value || fallback` on a string column: a missing or empty string gives the fallback. */
  function OrElse(value: Option<string>, fallback: string): (r: string)
    ensures value.None? || value == Some("") ==> r == fallback
    ensures value.Some? && value.value != "" ==> r == value.value
  {
    if value.Some? && value.value != "" then value.value else fallback
  }

  /** `value ?? fallback`: only a missing value gives the fallback; 0 and false are kept. */
  function Coalesce<T>(value: Option<T>, fallback: T): (r: T)
    ensures value.None? ==> r == fallback
    ensures value.Some? ==> r == value.value
  {
    if value.Some? then value.value else fallback
  }

  /** The value a column yields is the stored one or the fallback, nothing else. */
  predicate StoredOr<T(==)>(value: Option<T>, fallback: T, r: T) {
    r == fallback || value == Some(r)
  }

  /**
   * The record fetchUserSettingsFromDB builds from a row, column by column:
   * every field is the stored value or its default, and no choice is ever
   * the empty string.
   */
  function Normalize(row: Row): (s: Settings)
    ensures StoredOr(row.theme, Defaults.theme, s.theme) && StoredOr(row.language, Defaults.language, s.language)
    ensures StoredOr(row.colorblindMode, Defaults.colorblindMode, s.colorblindMode)
    ensures StoredOr(row.fontSize, Defaults.fontSize, s.fontSize)
    ensures StoredOr(row.aiDifficulty, Defaults.aiDifficulty, s.aiDifficulty)
    ensures StoredOr(row.aiPersonality, Defaults.aiPersonality, s.aiPersonality)
    ensures StoredOr(row.aiVoiceType, Defaults.aiVoiceType, s.aiVoiceType)
    ensures StoredOr(row.profileVisibility, Defaults.profileVisibility, s.profileVisibility)
    ensures StoredOr(row.animationsReduced, Defaults.animationsReduced, s.animationsReduced)
    ensures StoredOr(row.masterVolume, Defaults.masterVolume, s.masterVolume)
    ensures StoredOr(row.effectsVolume, Defaults.effectsVolume, s.effectsVolume)
    ensures StoredOr(row.aiVolume, Defaults.aiVolume, s.aiVolume)
    ensures StoredOr(row.activityStatus, Defaults.activityStatus, s.activityStatus)
    ensures StoredOr(row.showGameActivity, Defaults.showGameActivity, s.showGameActivity)
    ensures StoredOr(row.allowFriendRequests, Defaults.allowFriendRequests, s.allowFriendRequests)
    ensures StoredOr(row.shareStats, Defaults.shareStats, s.shareStats)
    ensures StoredOr(row.notificationsEnabled, Defaults.notificationsEnabled, s.notificationsEnabled)
    ensures StoredOr(row.soundsEnabled, Defaults.soundsEnabled, s.soundsEnabled)
    ensures StoredOr(row.animationsEnabled, Defaults.animationsEnabled, s.animationsEnabled)
    ensures s.theme != "" && s.language != "" && s.colorblindMode != "" && s.fontSize != ""
    ensures s.aiDifficulty != "" && s.aiPersonality != "" && s.aiVoiceType != "" && s.profileVisibility != ""
  {
    Settings(
      OrElse(row.theme, Defaults.theme),
      OrElse(row.language, Defaults.language),
      Coalesce(row.animationsReduced, Defaults.animationsReduced),
      OrElse(row.colorblindMode, Defaults.colorblindMode),
      OrElse(row.fontSize, Defaults.fontSize),
      Coalesce(row.masterVolume, Defaults.masterVolume),
      Coalesce(row.effectsVolume, Defaults.effectsVolume),
      Coalesce(row.aiVolume, Defaults.aiVolume),
      OrElse(row.aiDifficulty, Defaults.aiDifficulty),
      OrElse(row.aiPersonality, Defaults.aiPersonality),
      OrElse(row.aiVoiceType, Defaults.aiVoiceType),
      OrElse(row.profileVisibility, Defaults.profileVisibility),
      Coalesce(row.activityStatus, Defaults.activityStatus),
      Coalesce(row.showGameActivity, Defaults.showGameActivity),
      Coalesce(row.allowFriendRequests, Defaults.allowFriendRequests),
      Coalesce(row.shareStats, Defaults.shareStats),
      Coalesce(row.notificationsEnabled, Defaults.notificationsEnabled),
      Coalesce(row.soundsEnabled, Defaults.soundsEnabled),
      Coalesce(row.animationsEnabled, Defaults.animationsEnabled))
  }

  /** The row that stores a settings record: every column present. */
  function RowOf(s: Settings): Row {
    Row(
      Some(s.theme), Some(s.language), Some(s.animationsReduced), Some(s.colorblindMode), Some(s.fontSize),
      Some(s.masterVolume), Some(s.effectsVolume), Some(s.aiVolume),
      Some(s.aiDifficulty), Some(s.aiPersonality), Some(s.aiVoiceType),
      Some(s.profileVisibility), Some(s.activityStatus), Some(s.showGameActivity),
      Some(s.allowFriendRequests), Some(s.shareStats),
      Some(s.notificationsEnabled), Some(s.soundsEnabled), Some(s.animationsEnabled))
  }

  /** A row with every column missing reads back as exactly the defaults. */
  lemma EmptyRowGivesDefaults()
    ensures Normalize(EmptyRow) == Defaults
  {
  }

  /** Storing a well-typed record and reading it back gives the same record. */
  lemma NormalizeRoundTrip(s: Settings)
    requires WellTyped(s)
    ensures Normalize(RowOf(s)) == s
  {
    assert "" !in Themes && "" !in Languages && "" !in ColorblindModes && "" !in FontSizes;
    assert "" !in AiDifficulties && "" !in AiPersonalities && "" !in AiVoiceTypes && "" !in ProfileVisibilities;
  }

  /**
   * Volumes and switches are kept whenever they are stored, 0 and false
   * included; a choice column is kept whenever it is a non-empty string,
   * whether or not it belongs to its union.
   */
  lemma NormalizeKeepsStoredValues(row: Row)
    ensures row.masterVolume.Some? ==> Normalize(row).masterVolume == row.masterVolume.value
    ensures row.effectsVolume.Some? ==> Normalize(row).effectsVolume == row.effectsVolume.value
    ensures row.aiVolume.Some? ==> Normalize(row).aiVolume == row.aiVolume.value
    ensures row.animationsReduced.Some? ==> Normalize(row).animationsReduced == row.animationsReduced.value
    ensures row.activityStatus.Some? ==> Normalize(row).activityStatus == row.activityStatus.value
    ensures row.showGameActivity.Some? ==> Normalize(row).showGameActivity == row.showGameActivity.value
    ensures row.allowFriendRequests.Some? ==> Normalize(row).allowFriendRequests == row.allowFriendRequests.value
    ensures row.shareStats.Some? ==> Normalize(row).shareStats == row.shareStats.value
    ensures row.notificationsEnabled.Some? ==> Normalize(row).notificationsEnabled == row.notificationsEnabled.value
    ensures row.soundsEnabled.Some? ==> Normalize(row).soundsEnabled == row.soundsEnabled.value
    ensures row.animationsEnabled.Some? ==> Normalize(row).animationsEnabled == row.animationsEnabled.value
    ensures row.theme.Some? && row.theme.value != "" ==> Normalize(row).theme == row.theme.value
    ensures row.language.Some? && row.language.value != "" ==> Normalize(row).language == row.language.value
    ensures row.colorblindMode.Some? && row.colorblindMode.value != "" ==> Normalize(row).colorblindMode == row.colorblindMode.value
    ensures row.fontSize.Some? && row.fontSize.value != "" ==> Normalize(row).fontSize == row.fontSize.value
    ensures row.aiDifficulty.Some? && row.aiDifficulty.value != "" ==> Normalize(row).aiDifficulty == row.aiDifficulty.value
    ensures row.aiPersonality.Some? && row.aiPersonality.value != "" ==> Normalize(row).aiPersonality == row.aiPersonality.value
    ensures row.aiVoiceType.Some? && row.aiVoiceType.value != "" ==> Normalize(row).aiVoiceType == row.aiVoiceType.value
    ensures row.profileVisibility.Some? && row.profileVisibility.value != "" ==> Normalize(row).profileVisibility == row.profileVisibility.value
  {
  }

  /**
   * A missing volume or switch takes its default; a choice column takes its
   * default when it is missing or the empty string.
   */
  lemma NormalizeFallsBack(row: Row)
    ensures row.masterVolume.None? ==> Normalize(row).masterVolume == Defaults.masterVolume
    ensures row.effectsVolume.None? ==> Normalize(row).effectsVolume == Defaults.effectsVolume
    ensures row.aiVolume.None? ==> Normalize(row).aiVolume == Defaults.aiVolume
    ensures row.animationsReduced.None? ==> Normalize(row).animationsReduced == Defaults.animationsReduced
    ensures row.activityStatus.None? ==> Normalize(row).activityStatus == Defaults.activityStatus
    ensures row.showGameActivity.None? ==> Normalize(row).showGameActivity == Defaults.showGameActivity
    ensures row.allowFriendRequests.None? ==> Normalize(row).allowFriendRequests == Defaults.allowFriendRequests
    ensures row.shareStats.None? ==> Normalize(row).shareStats == Defaults.shareStats
    ensures row.notificationsEnabled.None? ==> Normalize(row).notificationsEnabled == Defaults.notificationsEnabled
    ensures row.soundsEnabled.None? ==> Normalize(row).soundsEnabled == Defaults.soundsEnabled
    ensures row.animationsEnabled.None? ==> Normalize(row).animationsEnabled == Defaults.animationsEnabled
    ensures row.theme.None? || row.theme == Some("") ==> Normalize(row).theme == Defaults.theme
    ensures row.language.None? || row.language == Some("") ==> Normalize(row).language == Defaults.language
    ensures row.colorblindMode.None? || row.colorblindMode == Some("") ==> Normalize(row).colorblindMode == Defaults.colorblindMode
    ensures row.fontSize.None? || row.fontSize == Some("") ==> Normalize(row).fontSize == Defaults.fontSize
    ensures row.aiDifficulty.None? || row.aiDifficulty == Some("") ==> Normalize(row).aiDifficulty == Defaults.aiDifficulty
    ensures row.aiPersonality.None? || row.aiPersonality == Some("") ==> Normalize(row).aiPersonality == Defaults.aiPersonality
    ensures row.aiVoiceType.None? || row.aiVoiceType == Some("") ==> Normalize(row).aiVoiceType == Defaults.aiVoiceType
    ensures row.profileVisibility.None? || row.profileVisibility == Some("") ==> Normalize(row).profileVisibility == Defaults.profileVisibility
  {
  }

  /** A row whose choice columns are missing, empty or within their unions reads back as a well-typed record. */
  lemma NormalizeWellTyped(row: Row)
    requires row.theme.None? || row.theme.value in Themes + {""}
    requires row.language.None? || row.language.value in Languages + {""}
    requires row.colorblindMode.None? || row.colorblindMode.value in ColorblindModes + {""}
    requires row.fontSize.None? || row.fontSize.value in FontSizes + {""}
    requires row.aiDifficulty.None? || row.aiDifficulty.value in AiDifficulties + {""}
    requires row.aiPersonality.None? || row.aiPersonality.value in AiPersonalities + {""}
    requires row.aiVoiceType.None? || row.aiVoiceType.value in AiVoiceTypes + {""}
    requires row.profileVisibility.None? || row.profileVisibility.value in ProfileVisibilities + {""}
    ensures WellTyped(Normalize(row))
  {
    DefaultsAreWellTyped();
  }

  /**
   * fetchUserSettingsFromDB on the query's answer: an error other than "no
   * rows" is logged and gives null; otherwise a row gives its normalised
   * record and no row gives null.
   */
  function FetchUserSettings(response: Response<Row>): (r: Option<Settings>)
    ensures Failed(response) ==> r.None?
    ensures !Failed(response) && response.data.Some? ==> r == Some(Normalize(response.data.value))
    ensures response.data.None? ==> r.None?
  {
    if Failed(response) then None
    else if response.data.Some? then Some(Normalize(response.data.value))
    else None
  }

  /** createDefaultSettingsInDB given the insert's error: the defaults on success, null on failure. */
  function CreateDefaultSettings(error: Option<string>): (r: Option<Settings>)
    ensures r.Some? <==> error.None?
    ensures r.Some? ==> r.value == Defaults && WellTyped(r.value)
  {
    DefaultsAreWellTyped();
    if error.Some? then None else Some(Defaults)
  }

  /** updateUserSettingsInDB given the update's error: true exactly when there was none. */
  function UpdateUserSettings(error: Option<string>): (ok: bool)
    ensures ok <==> error.None?
  {
    error.None?
  }
}
