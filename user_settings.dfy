/**
 * The user's settings record and its defaults. The choice fields hold the
 * string values the database stores; the unions of allowed values are
 * predicates, because nothing on the way from the database checks them.
 */
module UserSettings {

  datatype Settings = Settings(
    // Theme & Appearance
    theme: string,
    language: string,
    animationsReduced: bool,
    colorblindMode: string,
    fontSize: string,
    // Audio
    masterVolume: int,
    effectsVolume: int,
    aiVolume: int,
    // AI
    aiDifficulty: string,
    aiPersonality: string,
    aiVoiceType: string,
    // Privacy
    profileVisibility: string,
    activityStatus: bool,
    showGameActivity: bool,
    allowFriendRequests: bool,
    shareStats: bool,
    // System
    notificationsEnabled: bool,
    soundsEnabled: bool,
    animationsEnabled: bool)

  const Themes: set<string> := {"dark", "light", "system"}
  const Languages: set<string> := {"ar", "en", "es", "zh", "ja", "fr"}
  const ColorblindModes: set<string> := {"none", "protanopia", "deuteranopia", "tritanopia", "achromatopsia"}
  const FontSizes: set<string> := {"small", "medium", "large"}
  const AiDifficulties: set<string> := {"easy", "medium", "hard", "expert"}
  const AiPersonalities: set<string> := {"aggressive", "competitive", "friendly", "strategic", "fun"}
  const AiVoiceTypes: set<string> := {"male", "female", "neutral"}
  const ProfileVisibilities: set<string> := {"public", "friends", "private"}

  /** Every choice field holds a value of its declared union. */
  predicate WellTyped(s: Settings) {
    && s.theme in Themes && s.language in Languages && s.colorblindMode in ColorblindModes
    && s.fontSize in FontSizes && s.aiDifficulty in AiDifficulties && s.aiPersonality in AiPersonalities
    && s.aiVoiceType in AiVoiceTypes && s.profileVisibility in ProfileVisibilities
  }

  /** DEFAULT_USER_SETTINGS. */
  const Defaults: Settings := Settings(
    "dark", "ar", false, "none", "medium",
    100, 100, 100,
    "medium", "friendly", "neutral",
    "public", true, true, true, true,
    true, true, true)

  /**
   * The defaults: a dark theme in Arabic, every volume at 100, the medium
   * opponent, every switch on except reduced animations, and every choice
   * within its union.
   */
  lemma DefaultsAreWellTyped()
    ensures WellTyped(Defaults)
    ensures Defaults.theme == "dark" && Defaults.language == "ar"
    ensures Defaults.masterVolume == 100 && Defaults.effectsVolume == 100 && Defaults.aiVolume == 100
    ensures Defaults.aiDifficulty == "medium"
    ensures !Defaults.animationsReduced
    ensures Defaults.activityStatus && Defaults.showGameActivity && Defaults.allowFriendRequests
    ensures Defaults.shareStats && Defaults.notificationsEnabled && Defaults.soundsEnabled
    ensures Defaults.animationsEnabled
  {
  }
}
