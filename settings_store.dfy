/** The settings store of `settingsStore.ts`: the current theme, the
    language, two switches and the default model, with the four built-in
    themes. Choosing a theme also writes the theme's mode into the class of
    the document's root element, modelled as an object of its own. */
module SettingsStore {
  import opened Wrappers
  import Sequences

  datatype Mode = Light | Dark

  /** The class name a mode is written as. */
  function ModeName(m: Mode): (r: string)
    ensures r == "light" <==> m == Light
    ensures r == "dark" <==> m == Dark
  {
    match m
    case Light => "light"
    case Dark => "dark"
  }

  datatype Palette = Palette(primary: string, secondary: string, accent: string,
                             background: string, surface: string, text: string)

  datatype Theme = Theme(id: string, name: string, colors: Palette, mode: Mode)

  const LightTheme := Theme("light", "Light",
    Palette("#3b82f6", "#6b7280", "#8b5cf6", "#ffffff", "#f9fafb", "#111827"), Light)
  const DarkTheme := Theme("dark", "Dark",
    Palette("#3b82f6", "#9ca3af", "#8b5cf6", "#030712", "#111827", "#f9fafb"), Dark)
  const BlueTheme := Theme("blue", "Ocean Blue",
    Palette("#0ea5e9", "#64748b", "#06b6d4", "#0f172a", "#1e293b", "#f1f5f9"), Dark)
  const PurpleTheme := Theme("purple", "Purple Rain",
    Palette("#8b5cf6", "#6b7280", "#a855f7", "#1a0b2e", "#2d1b69", "#f3f4f6"), Dark)

  const AvailableThemes: seq<Theme> := [LightTheme, DarkTheme, BlueTheme, PurpleTheme]

  const DefaultLanguage := "en"
  const DefaultModel := "gpt-3.5-turbo"

  /** No two built-in themes share an id, so a lookup by id is unambiguous. */
  lemma AvailableThemeIdsDistinct()
    ensures forall i, j :: 0 <= i < j < |AvailableThemes| ==> AvailableThemes[i].id != AvailableThemes[j].id
  {
  }

  /** `availableThemes.find((t) => t.id === themeId)`. */
  function ThemeById(themeId: string): (r: Option<Theme>)
    ensures r.Some? <==> themeId in ["light", "dark", "blue", "purple"]
    ensures r.Some? ==> r.value in AvailableThemes && r.value.id == themeId
  {
    var ids := ["light", "dark", "blue", "purple"];
    assert forall j :: 0 <= j < 4 ==> AvailableThemes[j].id == ids[j];
    assert themeId in ids <==> exists j :: 0 <= j < 4 && ids[j] == themeId;
    Sequences.Find(AvailableThemes, (t: Theme) => t.id == themeId)
  }

  /** Every built-in theme is found by its own id. */
  lemma {:induction false} ThemeByIdOfAvailable(i: nat)
    requires i < |AvailableThemes|
    ensures ThemeById(AvailableThemes[i].id) == Some(AvailableThemes[i])
  {
    AvailableThemeIdsDistinct();
  }

  /** The theme `toggleTheme` switches to: a light theme becomes the dark
      theme and every dark-mode theme becomes the light theme. */
  function Toggled(t: Theme): (r: Theme)
    ensures r in AvailableThemes && r.mode != t.mode
    ensures r.id == ModeName(r.mode)
  {
    if t.mode == Light then DarkTheme else LightTheme
  }

  /** Toggling twice gives the starting theme back exactly for the plain
      light and dark themes: the other dark-mode themes come back as the
      plain dark theme. */
  lemma ToggleTwice(t: Theme)
    requires t in AvailableThemes
    ensures Toggled(Toggled(t)) == t <==> t == LightTheme || t == DarkTheme
    ensures Toggled(Toggled(t)) == (if t.mode == Light then LightTheme else DarkTheme)
  {
  }

  lemma BlueById()
    ensures ThemeById("blue") == Some(BlueTheme)
  {
    assert AvailableThemes[2] == BlueTheme;
    ThemeByIdOfAvailable(2);
  }

  lemma ToggleTwiceFromBlue()
    ensures Toggled(Toggled(BlueTheme)) == DarkTheme != BlueTheme
  {
    ToggleTwice(BlueTheme);
  }

  /** The values the store holds. */
  datatype Settings = Settings(theme: Theme, language: string, notifications: bool,
                               autoSave: bool, defaultModel: string)

  const DefaultSettings := Settings(LightTheme, DefaultLanguage, true, true, DefaultModel)

  /** `document.documentElement`, reduced to its class attribute. */
  class DocumentElement {
    var className: string

    constructor ()
      ensures className == ""
    {
      className := "";
    }
  }

  class SettingsStore {
    var theme: Theme
    var language: string
    var notifications: bool
    var autoSave: bool
    var defaultModel: string
    var availableThemes: seq<Theme>
    const document: DocumentElement

    /** The initial state; the document is not touched until a theme is
        chosen. */
    constructor (doc: DocumentElement)
      ensures State() == DefaultSettings
      ensures availableThemes == AvailableThemes && document == doc
    {
      theme := LightTheme;
      language := DefaultLanguage;
      notifications := true;
      autoSave := true;
      defaultModel := DefaultModel;
      availableThemes := AvailableThemes;
      document := doc;
    }

    function State(): (s: Settings)
      reads this
      ensures s.theme == theme && s.language == language && s.notifications == notifications
      ensures s.autoSave == autoSave && s.defaultModel == defaultModel
    {
      Settings(theme, language, notifications, autoSave, defaultModel)
    }

    /** The document's class is the current theme's mode. */
    predicate ClassMatchesTheme()
      reads this, document
    {
      document.className == ModeName(theme.mode)
    }

    method SetTheme(t: Theme)
      modifies this, document
      ensures State() == old(State()).(theme := t)
      ensures availableThemes == old(availableThemes)
      ensures document.className == ModeName(t.mode) && ClassMatchesTheme()
    {
      theme := t;
      document.className := ModeName(t.mode);
    }

    /** Applies the built-in theme with that id; an unknown id changes
        nothing, not even the document. */
    method SetThemeById(themeId: string)
      modifies this, document
      ensures availableThemes == old(availableThemes)
      ensures ThemeById(themeId).Some? ==>
                State() == old(State()).(theme := ThemeById(themeId).value) && ClassMatchesTheme()
      ensures ThemeById(themeId).None? ==>
                State() == old(State()) && document.className == old(document.className)
    {
      var found := ThemeById(themeId);
      if found.Some? {
        SetTheme(found.value);
      }
    }

    method ToggleTheme()
      modifies this, document
      ensures State() == old(State()).(theme := Toggled(old(theme)))
      ensures availableThemes == old(availableThemes)
      ensures theme.mode != old(theme).mode && ClassMatchesTheme()
    {
      var newTheme := if theme.mode == Light then DarkTheme else LightTheme;
      SetTheme(newTheme);
    }

    method SetLanguage(l: string)
      modifies this
      ensures State() == old(State()).(language := l)
      ensures availableThemes == old(availableThemes)
    {
      language := l;
    }

    method SetNotifications(enabled: bool)
      modifies this
      ensures State() == old(State()).(notifications := enabled)
      ensures availableThemes == old(availableThemes)
    {
      notifications := enabled;
    }

    method SetAutoSave(enabled: bool)
      modifies this
      ensures State() == old(State()).(autoSave := enabled)
      ensures availableThemes == old(availableThemes)
    {
      autoSave := enabled;
    }

    method SetDefaultModel(model: string)
      modifies this
      ensures State() == old(State()).(defaultModel := model)
      ensures availableThemes == old(availableThemes)
    {
      defaultModel := model;
    }

    /** Restores the five defaults and the light class; the theme list
        stays. */
    method ResetSettings()
      modifies this, document
      ensures State() == DefaultSettings
      ensures availableThemes == old(availableThemes)
      ensures document.className == "light" && ClassMatchesTheme()
    {
      theme := LightTheme;
      language := DefaultLanguage;
      notifications := true;
      autoSave := true;
      defaultModel := DefaultModel;
      document.className := "light";
    }

    /** Rehydration from storage: the stored values, when there are any,
        replace the current ones, and the stored theme's mode is then
        written to the document. The stored state also holds the theme
        list; it is taken here to be the built-in list the app wrote. */
    method Rehydrate(stored: Option<Settings>)
      modifies this, document
      ensures stored.Some? ==> State() == stored.value && ClassMatchesTheme()
      ensures stored.None? ==> State() == old(State()) && document.className == old(document.className)
      ensures availableThemes == old(availableThemes)
    {
      if stored.Some? {
        theme := stored.value.theme;
        language := stored.value.language;
        notifications := stored.value.notifications;
        autoSave := stored.value.autoSave;
        defaultModel := stored.value.defaultModel;
        document.className := ModeName(theme.mode);
      }
    }
  }

  /** A fresh store switched to the blue theme and toggled twice ends on the
      plain dark theme, with the document's class "dark". */
  method BlueToggledTwice() returns (final: Theme, cls: string)
    ensures final == DarkTheme && cls == "dark"
  {
    var doc := new DocumentElement();
    var store := new SettingsStore(doc);
    BlueById();
    store.SetThemeById("blue");
    store.ToggleTheme();
    store.ToggleTheme();
    ToggleTwiceFromBlue();
    final := store.theme;
    cls := doc.className;
  }
}
