/** The settings store: the Google AI credentials and model choice, the panel's visibility and the
    colour theme. */
module SettingsStore {
  import opened Wrappers
  import opened Text

  datatype Theme = Light | Dark | System

  /** One entry of the model catalogue. */
  datatype ModelRecord = ModelRecord(key: string, id: string, name: string, description: string,
                                     provider: string, baseUrl: string, maxTokens: int)

  const DEFAULT_BASE_URL := "https://generativelanguage.googleapis.com"
  const DEFAULT_MODEL := "gemini-2.5-flash-image"

  /** `AVAILABLE_MODELS`: the one supported model, "Nano Banana". */
  const AVAILABLE_MODELS: seq<ModelRecord> :=
    [ModelRecord("nano-banana", DEFAULT_MODEL, "Nano Banana", "Google AI vision model with image generation",
                 "google", DEFAULT_BASE_URL, 4096)]

  /** The slice written to local storage under the key `canvas-vision-settings`. */
  datatype PersistedSettings = PersistedSettings(apiKey: string, baseUrl: string, model: string, theme: Theme)

  const STORAGE_KEY := "canvas-vision-settings"

  class Settings {
    var apiKey: string
    var baseUrl: string
    var model: string
    var showSettings: bool
    var theme: Theme

    /** The default values. */
    constructor()
      ensures apiKey == "" && baseUrl == DEFAULT_BASE_URL && model == DEFAULT_MODEL
      ensures !showSettings && theme == System
      ensures !IsConfigured()
    {
      apiKey := "";
      baseUrl := DEFAULT_BASE_URL;
      model := DEFAULT_MODEL;
      showSettings := false;
      theme := System;
    }

    method SetApiKey(value: string)
      modifies this
      ensures apiKey == value
      ensures baseUrl == old(baseUrl) && model == old(model)
      ensures showSettings == old(showSettings) && theme == old(theme)
    {
      apiKey := value;
    }

    method SetBaseUrl(value: string)
      modifies this
      ensures baseUrl == value
      ensures apiKey == old(apiKey) && model == old(model)
      ensures showSettings == old(showSettings) && theme == old(theme)
    {
      baseUrl := value;
    }

    method SetModel(value: string)
      modifies this
      ensures model == value
      ensures apiKey == old(apiKey) && baseUrl == old(baseUrl)
      ensures showSettings == old(showSettings) && theme == old(theme)
    {
      model := value;
    }

    /** `toggleSettings`: flips the panel's visibility, so two toggles restore it. */
    method ToggleSettings()
      modifies this
      ensures showSettings == !old(showSettings)
      ensures apiKey == old(apiKey) && baseUrl == old(baseUrl) && model == old(model) && theme == old(theme)
    {
      showSettings := !showSettings;
    }

    method SetShowSettings(show: bool)
      modifies this
      ensures showSettings == show
      ensures apiKey == old(apiKey) && baseUrl == old(baseUrl) && model == old(model) && theme == old(theme)
    {
      showSettings := show;
    }

    method SetTheme(value: Theme)
      modifies this
      ensures theme == value
      ensures apiKey == old(apiKey) && baseUrl == old(baseUrl) && model == old(model)
      ensures showSettings == old(showSettings)
    {
      theme := value;
    }

    /** `clearSettings`: every persisted field back to its default; the panel stays as it is. */
    method ClearSettings()
      modifies this
      ensures apiKey == "" && baseUrl == DEFAULT_BASE_URL && model == DEFAULT_MODEL && theme == System
      ensures showSettings == old(showSettings)
      ensures !IsConfigured()
    {
      apiKey := "";
      baseUrl := DEFAULT_BASE_URL;
      model := DEFAULT_MODEL;
      theme := System;
    }

    /** `isConfigured`: both the key and the base URL have non-whitespace content. */
    function IsConfigured(): (r: bool)
      reads this
      ensures r <==> HasContent(apiKey) && HasContent(baseUrl)
    {
      Trim(apiKey) != "" && Trim(baseUrl) != ""
    }

    /** `partialize`: the persisted slice, without `showSettings`. */
    function Partialize(): (r: PersistedSettings)
      reads this
      ensures r.apiKey == apiKey && r.baseUrl == baseUrl && r.model == model && r.theme == theme
    {
      PersistedSettings(apiKey, baseUrl, model, theme)
    }

    /** Restoring the persisted slice; the panel's visibility is not part of it. */
    method Rehydrate(saved: PersistedSettings)
      modifies this
      ensures Partialize() == saved
      ensures showSettings == old(showSettings)
    {
      apiKey := saved.apiKey;
      baseUrl := saved.baseUrl;
      model := saved.model;
      theme := saved.theme;
    }
  }

  /** Toggling twice, as two consecutive actions, restores the visibility and changes nothing else. */
  method ToggleTwice(s: Settings)
    modifies s
    ensures s.showSettings == old(s.showSettings)
    ensures s.Partialize() == old(s.Partialize())
  {
    s.ToggleSettings();
    s.ToggleSettings();
  }
}
