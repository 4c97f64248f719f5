/**
 * app/settings/page.tsx: one settings record, every control of the page
 * writing one key with `handleSettingChange`.
 */
module SettingsPage {
  import opened Wrappers
  import Numbers

  /** The kinds of value the page stores: text, a switch, or `parseInt`'s result (None for NaN). */
  datatype SettingValue = Text(text: string) | Flag(on: bool) | Number(n: Option<int>)

  type Settings = map<string, SettingValue>

  /** The record the page starts from. */
  function InitialSettings(): Settings {
    map[
      "schoolName" := Text("TeacherHub Music Academy"),
      "schoolEmail" := Text("admin@teacherhub.com"),
      "schoolPhone" := Text("(416) 555-0100"),
      "schoolAddress" := Text("123 Education Street, Toronto, ON"),
      "timezone" := Text("America/Toronto"),
      "currency" := Text("CAD"),
      "emailNotifications" := Flag(true),
      "smsNotifications" := Flag(false),
      "pushNotifications" := Flag(true),
      "weeklyReports" := Flag(true),
      "twoFactorAuth" := Flag(false),
      "sessionTimeout" := Number(Some(30)),
      "passwordExpiry" := Number(Some(90)),
      "theme" := Text("light"),
      "language" := Text("en"),
      "dateFormat" := Text("MM/DD/YYYY"),
      "timeFormat" := Text("12h")
    ]
  }

  /** The defaults the page documents for security and notifications. */
  lemma InitialDefaults()
    ensures InitialSettings()["sessionTimeout"] == Number(Some(30))
    ensures InitialSettings()["passwordExpiry"] == Number(Some(90))
    ensures InitialSettings()["twoFactorAuth"] == Flag(false)
    ensures InitialSettings()["emailNotifications"] == Flag(true) && InitialSettings()["smsNotifications"] == Flag(false)
    ensures InitialSettings()["theme"] == Text("light") && InitialSettings()["currency"] == Text("CAD")
  {
  }

  /** `{ ...prev, [key]: value }` */
  function SetSetting(s: Settings, key: string, value: SettingValue): (r: Settings)
    ensures key in r && r[key] == value
    ensures forall k :: k in s && k != key ==> k in r && r[k] == s[k]
    ensures r.Keys == s.Keys + {key}
  {
    s[key := value]
  }

  /** A second write to the same key replaces the first; repeating a write changes nothing more. */
  lemma LastWriteWins(s: Settings, key: string, a: SettingValue, b: SettingValue)
    ensures SetSetting(SetSetting(s, key, a), key, b) == SetSetting(s, key, b)
    ensures SetSetting(SetSetting(s, key, a), key, a) == SetSetting(s, key, a)
  {
  }

  /** Writes to different keys do not interfere. */
  lemma DifferentKeysCommute(s: Settings, k1: string, v1: SettingValue, k2: string, v2: SettingValue)
    requires k1 != k2
    ensures SetSetting(SetSetting(s, k1, v1), k2, v2) == SetSetting(SetSetting(s, k2, v2), k1, v1)
  {
  }

  /** The number boxes store `Number.parseInt(e.target.value)` as it comes, with no clamping or fallback. */
  function NumberInput(text: string): (v: SettingValue)
    ensures v.Number? && v.n == Numbers.ParseInt(text)
  {
    Number(Numbers.ParseInt(text))
  }

  /**
   * Clearing the box stores NaN, and a typed integer is stored as itself, even
   * 0 or a negative timeout.
   */
  lemma NumberInputUnclamped(n: int)
    ensures NumberInput("") == Number(None)
    ensures NumberInput(Numbers.IntString(n)) == Number(Some(n))
  {
    Numbers.ParseIntString(n);
  }

  class SettingsView {
    var settings: Settings

    constructor ()
      ensures settings == InitialSettings()
    {
      settings := InitialSettings();
    }

    /** `handleSettingChange(key, value)` */
    method HandleSettingChange(key: string, value: SettingValue)
      modifies this`settings
      ensures settings == SetSetting(old(settings), key, value)
    {
      settings := settings[key := value];
    }

    /** A session-timeout or password-expiry box: the parsed number goes to its key. */
    method HandleNumberInput(key: string, text: string)
      modifies this`settings
      ensures settings == SetSetting(old(settings), key, NumberInput(text))
    {
      HandleSettingChange(key, NumberInput(text));
    }
  }

  /** Every control writes one of the page's own keys, so the record never gains a key. */
  lemma KnownKeyKeepsShape(s: Settings, key: string, value: SettingValue)
    requires key in InitialSettings() && s.Keys == InitialSettings().Keys
    ensures SetSetting(s, key, value).Keys == InitialSettings().Keys
  {
  }
}
