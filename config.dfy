/**
 * The module's stored preferences (`getPreference` with a default), read once
 * per check. Every preference is a string; the flags are "on" only when they
 * are exactly "1".
 */
module Config {

  /** The preference store as the handler sees it: setting name to stored string. */
  type Settings = map<string, string>

  const SettingApiKey: string := "API_KEY"
  const SettingEnabled: string := "API_ENABLED"
  const SettingLogRequests: string := "LOG_REQUESTS"

  /** `$this->getPreference($name, $default)`. */
  function Preference(settings: Settings, name: string, default: string): string
  {
    if name in settings then settings[name] else default
  }

  /** The API answers only when API_ENABLED is exactly "1" (default "0"). */
  predicate ApiEnabled(settings: Settings)
  {
    Preference(settings, SettingEnabled, "0") == "1"
  }

  /** Requests are logged only when LOG_REQUESTS is exactly "1" (default "0"). */
  predicate LogRequests(settings: Settings)
  {
    Preference(settings, SettingLogRequests, "0") == "1"
  }

  /** The configured secret, "" when none was ever generated. */
  function StoredKey(settings: Settings): string
  {
    Preference(settings, SettingApiKey, "")
  }
}
