/** App settings and preferences (src/stores/settingsStore.ts). */
module SettingsStore {
  import opened Types

  /** `Math.max(0, Math.min(1, volume))`. */
  function ClampVolume(volume: real): (r: real)
    ensures 0.0 <= r <= 1.0
    ensures 0.0 <= volume <= 1.0 ==> r == volume
    ensures volume < 0.0 ==> r == 0.0
    ensures volume > 1.0 ==> r == 1.0
  {
    var atMostOne := if volume < 1.0 then volume else 1.0;
    if atMostOne > 0.0 then atMostOne else 0.0
  }

  datatype SettingsState = SettingsState(
    themeMode: ThemeMode,
    notificationsEnabled: bool,
    hapticFeedbackEnabled: bool,
    autoPlayNext: bool,
    volume: real,
    language: string,
    soundEffectsEnabled: bool)
  {
    function SetThemeMode(mode: ThemeMode): (r: SettingsState)
      ensures r.themeMode == mode && r == this.(themeMode := r.themeMode)
    {
      this.(themeMode := mode)
    }

    function ToggleNotifications(): (r: SettingsState)
      ensures r.notificationsEnabled != notificationsEnabled
      ensures r == this.(notificationsEnabled := r.notificationsEnabled)
    {
      this.(notificationsEnabled := !notificationsEnabled)
    }

    function ToggleHapticFeedback(): (r: SettingsState)
      ensures r.hapticFeedbackEnabled != hapticFeedbackEnabled
      ensures r == this.(hapticFeedbackEnabled := r.hapticFeedbackEnabled)
    {
      this.(hapticFeedbackEnabled := !hapticFeedbackEnabled)
    }

    function ToggleAutoPlayNext(): (r: SettingsState)
      ensures r.autoPlayNext != autoPlayNext
      ensures r == this.(autoPlayNext := r.autoPlayNext)
    {
      this.(autoPlayNext := !autoPlayNext)
    }

    function ToggleSoundEffects(): (r: SettingsState)
      ensures r.soundEffectsEnabled != soundEffectsEnabled
      ensures r == this.(soundEffectsEnabled := r.soundEffectsEnabled)
    {
      this.(soundEffectsEnabled := !soundEffectsEnabled)
    }

    /** `setVolume`: the clamped volume, the rest untouched. */
    function SetVolume(volume': real): (r: SettingsState)
      ensures 0.0 <= r.volume <= 1.0
      ensures 0.0 <= volume' <= 1.0 ==> r.volume == volume'
      ensures r == this.(volume := r.volume)
    {
      this.(volume := ClampVolume(volume'))
    }

    function SetLanguage(language': string): (r: SettingsState)
      ensures r.language == language' && r == this.(language := r.language)
    {
      this.(language := language')
    }
  }

  /** The initial settings, also what `resetSettings` restores. */
  const Initial := SettingsState(Dark, true, true, false, 0.8, "en", true)

  /** Each toggle undoes itself. */
  lemma TogglesAreInvolutions(s: SettingsState)
    ensures s.ToggleNotifications().ToggleNotifications() == s
    ensures s.ToggleHapticFeedback().ToggleHapticFeedback() == s
    ensures s.ToggleAutoPlayNext().ToggleAutoPlayNext() == s
    ensures s.ToggleSoundEffects().ToggleSoundEffects() == s
  {
  }

  /** Once in range, the volume stays in range under every action. */
  lemma VolumeStaysInRange(s: SettingsState, v: real, m: ThemeMode, lang: string)
    requires 0.0 <= s.volume <= 1.0
    ensures 0.0 <= s.SetVolume(v).volume <= 1.0
    ensures s.SetThemeMode(m).volume == s.volume && s.SetLanguage(lang).volume == s.volume
    ensures s.ToggleNotifications().volume == s.volume && s.ToggleHapticFeedback().volume == s.volume
    ensures s.ToggleAutoPlayNext().volume == s.volume && s.ToggleSoundEffects().volume == s.volume
  {
  }

  /** Setting the volume is idempotent. */
  lemma SetVolumeIdempotent(s: SettingsState, v: real)
    ensures s.SetVolume(v).SetVolume(v) == s.SetVolume(v)
  {
  }

  /** The zustand store. */
  class Store {
    var themeMode: ThemeMode
    var notificationsEnabled: bool
    var hapticFeedbackEnabled: bool
    var autoPlayNext: bool
    var volume: real
    var language: string
    var soundEffectsEnabled: bool

    function State(): SettingsState
      reads this
    {
      SettingsState(themeMode, notificationsEnabled, hapticFeedbackEnabled, autoPlayNext, volume, language,
                    soundEffectsEnabled)
    }

    constructor ()
      ensures State() == Initial
    {
      themeMode, notificationsEnabled, hapticFeedbackEnabled, autoPlayNext := Dark, true, true, false;
      volume, language, soundEffectsEnabled := 0.8, "en", true;
    }

    method SetThemeMode(mode: ThemeMode)
      modifies this
      ensures State() == old(State()).SetThemeMode(mode)
    {
      themeMode := mode;
    }

    method ToggleNotifications()
      modifies this
      ensures State() == old(State()).ToggleNotifications()
    {
      notificationsEnabled := !notificationsEnabled;
    }

    method ToggleHapticFeedback()
      modifies this
      ensures State() == old(State()).ToggleHapticFeedback()
    {
      hapticFeedbackEnabled := !hapticFeedbackEnabled;
    }

    method ToggleAutoPlayNext()
      modifies this
      ensures State() == old(State()).ToggleAutoPlayNext()
    {
      autoPlayNext := !autoPlayNext;
    }

    method SetVolume(volume': real)
      modifies this
      ensures State() == old(State()).SetVolume(volume')
    {
      volume := ClampVolume(volume');
    }

    method SetLanguage(language': string)
      modifies this
      ensures State() == old(State()).SetLanguage(language')
    {
      language := language';
    }

    method ToggleSoundEffects()
      modifies this
      ensures State() == old(State()).ToggleSoundEffects()
    {
      soundEffectsEnabled := !soundEffectsEnabled;
    }

    method ResetSettings()
      modifies this
      ensures State() == Initial
    {
      themeMode, notificationsEnabled, hapticFeedbackEnabled, autoPlayNext := Dark, true, true, false;
      volume, language, soundEffectsEnabled := 0.8, "en", true;
    }
  }
}
