/** The settings panel: the draft values it edits, the two validators, and the gating of save. The
    URL parser is a parameter: it gives the parsed URL's protocol, or nothing when parsing throws. */
module SettingsPanelView {
  import opened Wrappers
  import opened Text
  import opened CanvasTypes
  import opened SettingsStore

  const KEY_REQUIRED := "API key is required."
  const KEY_FORMAT := "Google AI API keys usually start with \"AIza\" – double-check the value."
  const URL_EMPTY := "Base URL cannot be empty."
  const URL_INSECURE := "Use an https:// URL for secure requests."
  const URL_INVALID := "Enter a valid URL such as https://generativelanguage.googleapis.com"
  const KEY_PREFIX := "AIza"
  /** The least number of key characters after the prefix. */
  const KEY_BODY_MIN := 30

  /** One character of the class `[0-9A-Za-z-_]`. */
  predicate KeyChar(c: char) {
    ('0' <= c <= '9') || ('A' <= c <= 'Z') || ('a' <= c <= 'z') || c == '-' || c == '_'
  }

  /** The whole string matches `^AIza[0-9A-Za-z-_]{30,}$`. */
  predicate KeyShaped(s: string) {
    |s| >= |KEY_PREFIX| + KEY_BODY_MIN && s[..|KEY_PREFIX|] == KEY_PREFIX &&
    forall i :: |KEY_PREFIX| <= i < |s| ==> KeyChar(s[i])
  }

  /** `validateApiKey`: required first, then the key shape of the trimmed value; no error is `None`. */
  function ValidateApiKey(value: string): (r: Option<string>)
    ensures r == Some(KEY_REQUIRED) <==> !HasContent(value)
    ensures r.None? <==> HasContent(value) && KeyShaped(Trim(value))
    ensures r.Some? ==> r.value == KEY_REQUIRED || r.value == KEY_FORMAT
  {
    if !HasContent(value) then Some(KEY_REQUIRED)
    else if !KeyShaped(Trim(value)) then Some(KEY_FORMAT)
    else None
  }

  /** A shaped key has no whitespace at all, in particular none to trim. */
  lemma KeyShapedHasNoWhitespace(s: string)
    requires KeyShaped(s)
    ensures forall i :: 0 <= i < |s| ==> !IsWhitespace(s[i])
  {
    forall i | 0 <= i < |s|
      ensures !IsWhitespace(s[i])
    {
      if i < |KEY_PREFIX| {
        assert s[i] == KEY_PREFIX[i];
      } else {
        assert KeyChar(s[i]);
      }
    }
  }

  /** Trimming does not change whether a value has content. */
  lemma TrimKeepsContent(s: string)
    ensures HasContent(Trim(s)) <==> HasContent(s)
  {
    var t := Trim(s);
    if t != [] {
      assert !IsWhitespace(t[0]);
    }
  }

  /** The saved key is the trimmed draft, and it validates exactly as the draft did. */
  lemma SavedKeyValidatesAlike(value: string)
    ensures ValidateApiKey(Trim(value)) == ValidateApiKey(value)
  {
    TrimKeepsContent(value);
    TrimIdempotent(value);
  }

  /** `validateBaseUrl`: not empty, parsable, and `https:`; `parseProtocol` stands for `new URL`. */
  function ValidateBaseUrl(value: string, parseProtocol: string -> Option<string>): (r: Option<string>)
    ensures r == Some(URL_EMPTY) <==> !HasContent(value)
    ensures r.None? <==> HasContent(value) && parseProtocol(value) == Some("https:")
    ensures r == Some(URL_INVALID) <==> HasContent(value) && parseProtocol(value).None?
    ensures r == Some(URL_INSECURE) <==>
      HasContent(value) && parseProtocol(value).Some? && parseProtocol(value).value != "https:"
  {
    if !HasContent(value) then Some(URL_EMPTY)
    else match parseProtocol(value)
      case None => Some(URL_INVALID)
      case Some(protocol) => if protocol != "https:" then Some(URL_INSECURE) else None
  }

  /** The guard of `handleSave` on the validators' messages: it stops exactly when some validator
      reports an error. */
  lemma SaveDecision(key: string, url: string, parseProtocol: string -> Option<string>)
    ensures (Truthy(ValidateApiKey(key)) || Truthy(ValidateBaseUrl(url, parseProtocol))) <==>
            !(ValidateApiKey(key).None? && ValidateBaseUrl(url, parseProtocol).None?)
  {
  }

  /** A save that passed both validators leaves the store configured. */
  lemma ConfiguredAfterSave(settings: Settings, key: string, url: string, parseProtocol: string -> Option<string>)
    requires ValidateApiKey(key).None? && ValidateBaseUrl(url, parseProtocol).None?
    requires settings.apiKey == Trim(key) && settings.baseUrl == Trim(url)
    ensures settings.IsConfigured()
  {
    TrimKeepsContent(key);
    TrimKeepsContent(url);
  }

  class SettingsPanel {
    var tempApiKey: string
    var tempBaseUrl: string
    var tempModel: string
    var saveSuccess: bool
    var apiKeyError: Option<string>
    var baseUrlError: Option<string>

    /** The panel as first rendered: drafts copied from the store, no errors yet. */
    constructor(settings: Settings)
      ensures tempApiKey == settings.apiKey && tempBaseUrl == settings.baseUrl && tempModel == settings.model
      ensures !saveSuccess && apiKeyError.None? && baseUrlError.None?
    {
      tempApiKey := settings.apiKey;
      tempBaseUrl := settings.baseUrl;
      tempModel := settings.model;
      saveSuccess := false;
      apiKeyError := None;
      baseUrlError := None;
    }

    /** The effect that copies the store's values into the drafts whenever they change. */
    method SyncFromStore(settings: Settings)
      modifies this
      ensures tempApiKey == settings.apiKey && tempBaseUrl == settings.baseUrl && tempModel == settings.model
      ensures saveSuccess == old(saveSuccess) && apiKeyError == old(apiKeyError) && baseUrlError == old(baseUrlError)
    {
      tempApiKey := settings.apiKey;
      tempBaseUrl := settings.baseUrl;
      tempModel := settings.model;
    }

    /** The effect that revalidates the key draft when it changes. */
    method RevalidateApiKey()
      modifies this
      ensures apiKeyError == ValidateApiKey(tempApiKey)
      ensures tempApiKey == old(tempApiKey) && tempBaseUrl == old(tempBaseUrl) && tempModel == old(tempModel)
      ensures baseUrlError == old(baseUrlError) && saveSuccess == old(saveSuccess)
    {
      apiKeyError := ValidateApiKey(tempApiKey);
    }

    /** The effect that revalidates the base URL draft when it changes. */
    method RevalidateBaseUrl(parseProtocol: string -> Option<string>)
      modifies this
      ensures baseUrlError == ValidateBaseUrl(tempBaseUrl, parseProtocol)
      ensures tempApiKey == old(tempApiKey) && tempBaseUrl == old(tempBaseUrl) && tempModel == old(tempModel)
      ensures apiKeyError == old(apiKeyError) && saveSuccess == old(saveSuccess)
    {
      baseUrlError := ValidateBaseUrl(tempBaseUrl, parseProtocol);
    }

    /** `handleApiKeyChange`: edits the key draft only. */
    method HandleApiKeyChange(value: string)
      modifies this
      ensures tempApiKey == value
      ensures tempBaseUrl == old(tempBaseUrl) && tempModel == old(tempModel) && saveSuccess == old(saveSuccess)
      ensures apiKeyError == old(apiKeyError) && baseUrlError == old(baseUrlError)
    {
      tempApiKey := value;
    }

    /** `handleSave`: validates both drafts and shows the errors; when both pass, stores the
        trimmed key and base URL and the model and flags the success, which leaves the store
        configured. When either fails the store is left untouched. */
    method HandleSave(settings: Settings, parseProtocol: string -> Option<string>) returns (saved: bool)
      modifies this, settings
      ensures apiKeyError == ValidateApiKey(old(tempApiKey))
      ensures baseUrlError == ValidateBaseUrl(old(tempBaseUrl), parseProtocol)
      ensures saved <==> apiKeyError.None? && baseUrlError.None?
      ensures !saved ==> unchanged(settings) && saveSuccess == old(saveSuccess)
      ensures saved ==> settings.apiKey == Trim(tempApiKey) && settings.baseUrl == Trim(tempBaseUrl) &&
                        settings.model == tempModel && saveSuccess
      ensures settings.showSettings == old(settings.showSettings) && settings.theme == old(settings.theme)
      ensures tempApiKey == old(tempApiKey) && tempBaseUrl == old(tempBaseUrl) && tempModel == old(tempModel)
    {
      var keyError := ValidateApiKey(tempApiKey);
      var urlError := ValidateBaseUrl(tempBaseUrl, parseProtocol);
      SaveDecision(tempApiKey, tempBaseUrl, parseProtocol);
      apiKeyError := keyError;
      baseUrlError := urlError;
      if Truthy(keyError) || Truthy(urlError) {
        return false;
      }
      WriteDrafts(settings, Trim(tempApiKey), Trim(tempBaseUrl));
      return true;
    }

    /** The writing half of `handleSave`: the trimmed drafts and the model go to the store. */
    method WriteDrafts(settings: Settings, key: string, url: string)
      modifies this, settings
      ensures settings.apiKey == key && settings.baseUrl == url && settings.model == tempModel
      ensures settings.showSettings == old(settings.showSettings) && settings.theme == old(settings.theme)
      ensures saveSuccess
      ensures tempApiKey == old(tempApiKey) && tempBaseUrl == old(tempBaseUrl) && tempModel == old(tempModel)
      ensures apiKeyError == old(apiKeyError) && baseUrlError == old(baseUrlError)
    {
      settings.SetApiKey(key);
      settings.SetBaseUrl(url);
      settings.SetModel(tempModel);
      saveSuccess := true;
    }

    /** The timer a second after a successful save: the success flag drops and the panel closes. */
    method SaveTimerElapsed(settings: Settings)
      modifies this, settings
      ensures !saveSuccess && !settings.showSettings
      ensures settings.apiKey == old(settings.apiKey) && settings.baseUrl == old(settings.baseUrl)
      ensures settings.model == old(settings.model) && settings.theme == old(settings.theme)
      ensures tempApiKey == old(tempApiKey) && tempBaseUrl == old(tempBaseUrl) && tempModel == old(tempModel)
      ensures apiKeyError == old(apiKeyError) && baseUrlError == old(baseUrlError)
    {
      saveSuccess := false;
      settings.SetShowSettings(false);
    }

    /** `handleClear`: clears the store, resets the drafts to the defaults and flags the now missing key. */
    method HandleClear(settings: Settings)
      modifies this, settings
      ensures !settings.IsConfigured() && settings.showSettings == old(settings.showSettings)
      ensures settings.apiKey == "" && settings.baseUrl == DEFAULT_BASE_URL && settings.model == DEFAULT_MODEL
      ensures tempApiKey == "" && tempBaseUrl == DEFAULT_BASE_URL && tempModel == AVAILABLE_MODELS[0].id
      ensures apiKeyError == Some(KEY_REQUIRED) && baseUrlError.None?
      ensures apiKeyError == ValidateApiKey(tempApiKey)
      ensures saveSuccess == old(saveSuccess)
    {
      settings.ClearSettings();
      tempApiKey := "";
      tempBaseUrl := DEFAULT_BASE_URL;
      tempModel := AVAILABLE_MODELS[0].id;
      apiKeyError := Some(KEY_REQUIRED);
      baseUrlError := None;
    }

    /** `saveDisabled`: some error is showing and no save has just succeeded. */
    function SaveDisabled(): (r: bool)
      reads this
      ensures r ==> !saveSuccess && (apiKeyError.Some? || baseUrlError.Some?)
    {
      (Truthy(apiKeyError) || Truthy(baseUrlError)) && !saveSuccess
    }
  }

  /** Once the errors reflect the drafts, save is disabled exactly when no save has just succeeded
      and a save would be refused: an enabled button always leads to a write. */
  lemma SaveGateMatchesSave(p: SettingsPanel, parseProtocol: string -> Option<string>)
    requires p.apiKeyError == ValidateApiKey(p.tempApiKey)
    requires p.baseUrlError == ValidateBaseUrl(p.tempBaseUrl, parseProtocol)
    ensures p.SaveDisabled() <==>
      !p.saveSuccess && !(ValidateApiKey(p.tempApiKey).None? && ValidateBaseUrl(p.tempBaseUrl, parseProtocol).None?)
  {
  }
}
