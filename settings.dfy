/** The settings page: seven preferences edited in place, applied to the
    document root as they change, and saved to browser storage on request. */
module Settings {
  import opened Prelude
  import opened Navigation

  datatype SettingsData = SettingsData(
    darkMode: bool,
    fontSize: int,
    highContrast: bool,
    reducedMotion: bool,
    colorBlindMode: string,
    soundEnabled: bool,
    language: string)

  /** The initial state and what Reset installs. */
  const Defaults := SettingsData(false, 16, false, false, "none", true, "en")

  /** The key of `SettingsData` that an `updateSetting` call names. */
  datatype Key = DarkMode | FontSize | HighContrast | ReducedMotion | ColorBlindMode | SoundEnabled | Language

  /** A value of the type that key holds. */
  datatype Value = Flag(on: bool) | Number(n: int) | Text(s: string)

  /** One `updateSetting(key, value)` call, key and value type checked together. */
  datatype Update =
    | SetDarkMode(darkMode: bool)
    | SetFontSize(fontSize: int)
    | SetHighContrast(highContrast: bool)
    | SetReducedMotion(reducedMotion: bool)
    | SetColorBlindMode(colorBlindMode: string)
    | SetSoundEnabled(soundEnabled: bool)
    | SetLanguage(language: string)

  function KeyOf(u: Update): Key
  {
    match u
    case SetDarkMode(_) => DarkMode
    case SetFontSize(_) => FontSize
    case SetHighContrast(_) => HighContrast
    case SetReducedMotion(_) => ReducedMotion
    case SetColorBlindMode(_) => ColorBlindMode
    case SetSoundEnabled(_) => SoundEnabled
    case SetLanguage(_) => Language
  }

  function ValueOf(u: Update): Value
  {
    match u
    case SetDarkMode(b) => Flag(b)
    case SetFontSize(n) => Number(n)
    case SetHighContrast(b) => Flag(b)
    case SetReducedMotion(b) => Flag(b)
    case SetColorBlindMode(m) => Text(m)
    case SetSoundEnabled(b) => Flag(b)
    case SetLanguage(l) => Text(l)
  }

  /** `settings[key]`. */
  function Get(s: SettingsData, k: Key): Value
  {
    match k
    case DarkMode => Flag(s.darkMode)
    case FontSize => Number(s.fontSize)
    case HighContrast => Flag(s.highContrast)
    case ReducedMotion => Flag(s.reducedMotion)
    case ColorBlindMode => Text(s.colorBlindMode)
    case SoundEnabled => Flag(s.soundEnabled)
    case Language => Text(s.language)
  }

  /** `{ ...settings, [key]: value }`: the named field takes the new value
      and every other field keeps its old one. */
  function With(s: SettingsData, u: Update): (r: SettingsData)
    ensures Get(r, KeyOf(u)) == ValueOf(u)
    ensures forall k :: k != KeyOf(u) ==> Get(r, k) == Get(s, k)
  {
    match u
    case SetDarkMode(b) => s.(darkMode := b)
    case SetFontSize(n) => s.(fontSize := n)
    case SetHighContrast(b) => s.(highContrast := b)
    case SetReducedMotion(b) => s.(reducedMotion := b)
    case SetColorBlindMode(m) => s.(colorBlindMode := m)
    case SetSoundEnabled(b) => s.(soundEnabled := b)
    case SetLanguage(l) => s.(language := l)
  }

  /** Two settings records with the same value under every key are the same. */
  lemma {:induction false} SameValuesSameSettings(s: SettingsData, t: SettingsData)
    requires forall k :: Get(s, k) == Get(t, k)
    ensures s == t
  {
    assert Get(s, DarkMode) == Get(t, DarkMode) && Get(s, FontSize) == Get(t, FontSize);
    assert Get(s, HighContrast) == Get(t, HighContrast) && Get(s, ReducedMotion) == Get(t, ReducedMotion);
    assert Get(s, ColorBlindMode) == Get(t, ColorBlindMode) && Get(s, SoundEnabled) == Get(t, SoundEnabled);
    assert Get(s, Language) == Get(t, Language);
  }

  /** Setting a field to the value it already has changes nothing. */
  lemma WithCurrentValue(s: SettingsData, u: Update)
    requires Get(s, KeyOf(u)) == ValueOf(u)
    ensures With(s, u) == s
  {
    SameValuesSameSettings(With(s, u), s);
  }

  /** A later update of the same key overrides an earlier one. */
  lemma WithTwiceSameKey(s: SettingsData, u: Update, v: Update)
    requires KeyOf(u) == KeyOf(v)
    ensures With(With(s, u), v) == With(s, v)
  {
    SameValuesSameSettings(With(With(s, u), v), With(s, v));
  }

  /** The settings the page starts from once it has mounted: the stored ones
      if there are any, else the defaults, with dark mode turned on when the
      system prefers it. */
  function InitialSettings(stored: Option<SettingsData>, prefersDark: bool): (s: SettingsData)
    ensures stored.Some? ==> s == stored.value
    ensures stored.None? ==> forall k :: k != DarkMode ==> Get(s, k) == Get(Defaults, k)
    ensures stored.None? ==> s.darkMode == prefersDark
  {
    if stored.Some? then stored.value
    else if prefersDark then Defaults.(darkMode := true)
    else Defaults
  }

  /** The three class names the page manages on the document root. */
  const Managed: set<string> := {"dark", "high-contrast", "reduced-motion"}

  function Switch(classes: set<string>, name: string, on: bool): set<string>
  {
    if on then classes + {name} else classes - {name}
  }

  /** The class list after `applySettings`. */
  function ClassesAfter(classes: set<string>, s: SettingsData): (r: set<string>)
    ensures "dark" in r <==> s.darkMode
    ensures "high-contrast" in r <==> s.highContrast
    ensures "reduced-motion" in r <==> s.reducedMotion
    ensures forall c :: c !in Managed ==> (c in r <==> c in classes)
  {
    Switch(Switch(Switch(classes, "dark", s.darkMode), "high-contrast", s.highContrast), "reduced-motion", s.reducedMotion)
  }

  /** Applying the same settings twice is the same as applying them once. */
  lemma ApplyIdempotent(classes: set<string>, s: SettingsData)
    ensures ClassesAfter(ClassesAfter(classes, s), s) == ClassesAfter(classes, s)
  {
    var once := ClassesAfter(classes, s);
    var twice := ClassesAfter(once, s);
    forall c ensures c in twice <==> c in once {
      if c !in Managed {
      }
    }
  }

  /** Applying settings leaves no trace of earlier ones: the result depends
      only on the classes the page does not manage. */
  lemma ApplyForgetsEarlier(classes: set<string>, s: SettingsData, t: SettingsData)
    ensures ClassesAfter(ClassesAfter(classes, t), s) == ClassesAfter(classes, s)
  {
    var direct := ClassesAfter(classes, s);
    var via := ClassesAfter(ClassesAfter(classes, t), s);
    forall c ensures c in via <==> c in direct {
      if c !in Managed {
      }
    }
  }

  /** `document.documentElement`, as far as the page touches it. */
  class Root {
    var classList: set<string>
    /** The font size in `root.style.fontSize`, in pixels. */
    var fontSize: int
    /** The `data-color-blind-mode` attribute. */
    var colorBlindMode: string

    constructor(classes: set<string>, fontSize: int, colorBlindMode: string)
      ensures classList == classes && this.fontSize == fontSize && this.colorBlindMode == colorBlindMode
    {
      classList := classes;
      this.fontSize := fontSize;
      this.colorBlindMode := colorBlindMode;
    }

    /** `applySettings`: each managed class present iff its flag is set,
        the font size and the colour-blind attribute copied over. */
    method Apply(s: SettingsData)
      modifies this
      ensures classList == ClassesAfter(old(classList), s)
      ensures fontSize == s.fontSize && colorBlindMode == s.colorBlindMode
    {
      if s.darkMode {
        classList := classList + {"dark"};
      } else {
        classList := classList - {"dark"};
      }
      fontSize := s.fontSize;
      if s.highContrast {
        classList := classList + {"high-contrast"};
      } else {
        classList := classList - {"high-contrast"};
      }
      if s.reducedMotion {
        classList := classList + {"reduced-motion"};
      } else {
        classList := classList - {"reduced-motion"};
      }
      colorBlindMode := s.colorBlindMode;
    }
  }

  /** The page's Back and Cancel target: back to the investments page with
      its saved state when opened from there, else `from`, else home. */
  function SettingsReferrer(from: Option<string>, saved: Option<InvestmentState>): (d: Destination)
    ensures d.PathWithState? <==> from == Some("/investments") && saved.Some?
    ensures from.None? ==> d == Path("/")
  {
    Referrer(from, saved, "/")
  }

  class Page {
    var settings: SettingsData
    var hasChanges: bool
    /** `localStorage.appSettings`. */
    var stored: Option<SettingsData>
    const root: Root
    const referrer: Destination

    /** Exactly one of Cancel and Save can be pressed: Cancel while nothing
        is unsaved, Save while something is. */
    function SaveDisabled(): (r: bool)
      reads this
    {
      !hasChanges
    }

    function CancelDisabled(): (r: bool)
      reads this
      ensures r <==> !SaveDisabled()
    {
      hasChanges
    }

    /** Mounting: the defaults are rendered, then the load effect installs
        and applies the stored settings, or turns dark mode on when the
        system prefers it; with neither, nothing is applied. */
    constructor(stored: Option<SettingsData>, prefersDark: bool, root: Root,
                from: Option<string>, savedInvestment: Option<InvestmentState>)
      modifies root
      ensures this.stored == stored && this.root == root
      ensures settings == InitialSettings(stored, prefersDark) && !hasChanges
      ensures stored.Some? || prefersDark ==>
        root.classList == ClassesAfter(old(root.classList), settings)
        && root.fontSize == settings.fontSize && root.colorBlindMode == settings.colorBlindMode
      ensures stored.None? && !prefersDark ==>
        root.classList == old(root.classList) && root.fontSize == old(root.fontSize)
        && root.colorBlindMode == old(root.colorBlindMode)
      ensures referrer == SettingsReferrer(from, savedInvestment)
    {
      this.stored := stored;
      this.root := root;
      this.referrer := SettingsReferrer(from, savedInvestment);
      hasChanges := false;
      settings := Defaults;
      new;
      if stored.Some? {
        settings := stored.value;
        root.Apply(settings);
      } else if prefersDark {
        settings := settings.(darkMode := true);
        root.Apply(settings);
      }
    }

    /** `updateSetting`: one field changes, the change is marked unsaved,
        and the new settings are applied at once. */
    method UpdateSetting(u: Update)
      modifies this, root
      ensures settings == With(old(settings), u)
      ensures hasChanges && stored == old(stored)
      ensures root.classList == ClassesAfter(old(root.classList), settings)
      ensures root.fontSize == settings.fontSize && root.colorBlindMode == settings.colorBlindMode
      ensures !SaveDisabled() && CancelDisabled()
    {
      settings := With(settings, u);
      hasChanges := true;
      root.Apply(settings);
    }

    /** `saveSettings`: the current settings are stored and nothing is unsaved. */
    method SaveSettings()
      modifies this
      ensures stored == Some(settings) && settings == old(settings)
      ensures !hasChanges
      ensures SaveDisabled() && !CancelDisabled()
    {
      stored := Some(settings);
      hasChanges := false;
    }

    /** `resetSettings`: the defaults are installed and applied, and marked
        unsaved; storage keeps the old settings until Save. */
    method ResetSettings()
      modifies this, root
      ensures settings == Defaults && hasChanges && stored == old(stored)
      ensures root.classList == ClassesAfter(old(root.classList), Defaults)
      ensures "dark" !in root.classList && "high-contrast" !in root.classList && "reduced-motion" !in root.classList
      ensures root.fontSize == 16 && root.colorBlindMode == "none"
    {
      settings := Defaults;
      root.Apply(settings);
      hasChanges := true;
    }

    /** Back always leads to the referrer. */
    method Back() returns (d: Destination)
      ensures d == referrer
    {
      d := referrer;
    }

    /** Cancel leads to the referrer, but only while nothing is unsaved. */
    method Cancel() returns (d: Option<Destination>)
      ensures d.Some? <==> !hasChanges
      ensures d.Some? ==> d.value == referrer
    {
      if !CancelDisabled() {
        d := Some(referrer);
      } else {
        d := None;
      }
    }
  }
}
