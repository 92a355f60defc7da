/**
  IoT hybrid-mode settings: compiled Kconfig defaults overlaid field by field
  with the values persisted in the "iot" NVS namespace. Empty strings and the
  integer -1 stand for "not stored". Each setter updates one field and writes
  it through to NVS.
*/
module Settings {
  import opened Wrappers

  /** The six settings, as one value. */
  datatype Config = Config(
    enabled: bool,
    serverUrl: string,
    apiKey: string,
    timeoutMs: int,
    ttsEnabled: bool,
    fallbackEnabled: bool)

  /** The compile-time symbols that may be defined; None = not defined. Boolean
      symbols are integers that C converts to bool (non-zero = true). */
  datatype Kconfig = Kconfig(
    iotEnabled: Option<int>,
    iotServer: Option<string>,
    iotApiKey: Option<string>,
    iotTimeoutMs: Option<int>,
    iotEnableTts: Option<int>,
    iotFallbackToXiaozhi: Option<int>)

  const NoSymbols := Kconfig(None, None, None, None, None, None)

  /** The field initialisers of the settings object, before Initialize runs. */
  const Unloaded := Config(false, "", "", 5000, true, true)

  /** A value persisted in NVS. */
  datatype NvsValue = NvsInt(i: int) | NvsStr(s: string)

  type NvsEntries = map<string, NvsValue>

  const ServerKey := "server"
  const ApiKeyKey := "api_key"
  const EnabledKey := "enabled"
  const TimeoutKey := "timeout"
  const TtsKey := "tts"
  const FallbackKey := "fallback"

  /** Reading a string from NVS: "" when the key is absent or holds an integer. */
  function StoredString(nvs: NvsEntries, key: string): string {
    if key in nvs && nvs[key].NvsStr? then nvs[key].s else ""
  }

  /** Reading an integer from NVS with a default for an absent key (or one
      holding a string). */
  function StoredInt(nvs: NvsEntries, key: string, default: int): int {
    if key in nvs && nvs[key].NvsInt? then nvs[key].i else default
  }

  /** How a boolean is persisted. */
  function FlagInt(b: bool): int { if b then 1 else 0 }

  /** A stored string replaces the field unless it is empty. */
  function OverrideString(current: string, stored: string): string {
    if stored != "" then stored else current
  }

  /** A stored flag replaces the field unless it is the sentinel -1; only 1 means true. */
  function OverrideFlag(current: bool, stored: int): bool {
    if stored != -1 then stored == 1 else current
  }

  /** A stored integer replaces the field unless it is the sentinel -1. */
  function OverrideInt(current: int, stored: int): int {
    if stored != -1 then stored else current
  }

  /** The settings after loading the compiled defaults. */
  function KconfigDefaults(k: Kconfig): (c: Config)
    ensures k.iotEnabled.None? ==> !c.enabled
    ensures k.iotServer.None? ==> c.serverUrl == ""
    ensures k.iotApiKey.None? ==> c.apiKey == ""
    ensures k.iotTimeoutMs.None? ==> c.timeoutMs == 5000
    ensures k.iotEnableTts.None? ==> c.ttsEnabled
    ensures k.iotFallbackToXiaozhi.None? ==> c.fallbackEnabled
    ensures k.iotServer.Some? ==> c.serverUrl == k.iotServer.value
    ensures k.iotApiKey.Some? ==> c.apiKey == k.iotApiKey.value
    ensures k.iotTimeoutMs.Some? ==> c.timeoutMs == k.iotTimeoutMs.value
    ensures k.iotEnabled.Some? ==> (c.enabled <==> k.iotEnabled.value != 0)
    ensures k.iotEnableTts.Some? ==> (c.ttsEnabled <==> k.iotEnableTts.value != 0)
    ensures k.iotFallbackToXiaozhi.Some? ==> (c.fallbackEnabled <==> k.iotFallbackToXiaozhi.value != 0)
  {
    Config(
      if k.iotEnabled.Some? then k.iotEnabled.value != 0 else false,
      k.iotServer.GetOr(""),
      k.iotApiKey.GetOr(""),
      k.iotTimeoutMs.GetOr(5000),
      if k.iotEnableTts.Some? then k.iotEnableTts.value != 0 else true,
      if k.iotFallbackToXiaozhi.Some? then k.iotFallbackToXiaozhi.value != 0 else true)
  }

  /** The settings `c` after loading the NVS overrides. */
  function MergeNvs(c: Config, nvs: NvsEntries): (r: Config)
    ensures nvs == map[] ==> r == c
    ensures StoredString(nvs, ServerKey) == "" ==> r.serverUrl == c.serverUrl
    ensures StoredString(nvs, ApiKeyKey) == "" ==> r.apiKey == c.apiKey
    ensures StoredInt(nvs, EnabledKey, -1) == -1 ==> r.enabled == c.enabled
    ensures StoredInt(nvs, TimeoutKey, -1) == -1 ==> r.timeoutMs == c.timeoutMs
    ensures StoredInt(nvs, TtsKey, -1) == -1 ==> r.ttsEnabled == c.ttsEnabled
    ensures StoredInt(nvs, FallbackKey, -1) == -1 ==> r.fallbackEnabled == c.fallbackEnabled
  {
    Config(
      OverrideFlag(c.enabled, StoredInt(nvs, EnabledKey, -1)),
      OverrideString(c.serverUrl, StoredString(nvs, ServerKey)),
      OverrideString(c.apiKey, StoredString(nvs, ApiKeyKey)),
      OverrideInt(c.timeoutMs, StoredInt(nvs, TimeoutKey, -1)),
      OverrideFlag(c.ttsEnabled, StoredInt(nvs, TtsKey, -1)),
      OverrideFlag(c.fallbackEnabled, StoredInt(nvs, FallbackKey, -1)))
  }

  /** Settings whose every field is overridden from `nvs` as the loader does
      it are the merge of the previous settings with `nvs`. */
  lemma OverridesAreMerge(c: Config, nvs: NvsEntries, r: Config)
    requires r.enabled == OverrideFlag(c.enabled, StoredInt(nvs, EnabledKey, -1))
    requires r.serverUrl == OverrideString(c.serverUrl, StoredString(nvs, ServerKey))
    requires r.apiKey == OverrideString(c.apiKey, StoredString(nvs, ApiKeyKey))
    requires r.timeoutMs == OverrideInt(c.timeoutMs, StoredInt(nvs, TimeoutKey, -1))
    requires r.ttsEnabled == OverrideFlag(c.ttsEnabled, StoredInt(nvs, TtsKey, -1))
    requires r.fallbackEnabled == OverrideFlag(c.fallbackEnabled, StoredInt(nvs, FallbackKey, -1))
    ensures r == MergeNvs(c, nvs)
  {
  }

  /** What Initialize loads: Kconfig first, then NVS. */
  function Boot(k: Kconfig, nvs: NvsEntries): Config {
    MergeNvs(KconfigDefaults(k), nvs)
  }

  /** Any value NVS actually supplies wins over the compiled default: the
      field comes out the same whatever the Kconfig symbols are. */
  lemma NvsWinsOverKconfig(k1: Kconfig, k2: Kconfig, nvs: NvsEntries)
    ensures StoredString(nvs, ServerKey) != "" ==> Boot(k1, nvs).serverUrl == Boot(k2, nvs).serverUrl
    ensures StoredString(nvs, ApiKeyKey) != "" ==> Boot(k1, nvs).apiKey == Boot(k2, nvs).apiKey
    ensures StoredInt(nvs, EnabledKey, -1) != -1 ==> Boot(k1, nvs).enabled == Boot(k2, nvs).enabled
    ensures StoredInt(nvs, TimeoutKey, -1) != -1 ==> Boot(k1, nvs).timeoutMs == Boot(k2, nvs).timeoutMs
    ensures StoredInt(nvs, TtsKey, -1) != -1 ==> Boot(k1, nvs).ttsEnabled == Boot(k2, nvs).ttsEnabled
    ensures StoredInt(nvs, FallbackKey, -1) != -1 ==> Boot(k1, nvs).fallbackEnabled == Boot(k2, nvs).fallbackEnabled
  {
  }

  /** With nothing stored, booting gives the compiled defaults; with no symbols
      defined either, the field initialisers. */
  lemma EmptyNvsBootsDefaults(k: Kconfig)
    ensures Boot(k, map[]) == KconfigDefaults(k)
    ensures Boot(NoSymbols, map[]) == Unloaded
  {
  }

  /** Any stored flag other than -1 and 1 (0, 2, 7, ...) reads as false. */
  lemma StoredFlagOnlyOneIsTrue(c: Config, nvs: NvsEntries, v: int)
    requires v != -1
    ensures MergeNvs(c, nvs[EnabledKey := NvsInt(v)]).enabled == (v == 1)
    ensures MergeNvs(c, nvs[TtsKey := NvsInt(v)]).ttsEnabled == (v == 1)
    ensures MergeNvs(c, nvs[FallbackKey := NvsInt(v)]).fallbackEnabled == (v == 1)
  {
  }

  /** Writing a flag through and booting again gives the flag that was set,
      and the other fields are what they would have been anyway. */
  lemma FlagSettersSurviveReboot(k: Kconfig, nvs: NvsEntries, b: bool)
    ensures Boot(k, nvs[EnabledKey := NvsInt(FlagInt(b))]) == Boot(k, nvs).(enabled := b)
    ensures Boot(k, nvs[TtsKey := NvsInt(FlagInt(b))]) == Boot(k, nvs).(ttsEnabled := b)
    ensures Boot(k, nvs[FallbackKey := NvsInt(FlagInt(b))]) == Boot(k, nvs).(fallbackEnabled := b)
  {
  }

  /** A non-empty URL or key and any timeout but -1 survive a reboot. */
  lemma ValueSettersSurviveReboot(k: Kconfig, nvs: NvsEntries, s: string, t: int)
    requires s != "" && t != -1
    ensures Boot(k, nvs[ServerKey := NvsStr(s)]) == Boot(k, nvs).(serverUrl := s)
    ensures Boot(k, nvs[ApiKeyKey := NvsStr(s)]) == Boot(k, nvs).(apiKey := s)
    ensures Boot(k, nvs[TimeoutKey := NvsInt(t)]) == Boot(k, nvs).(timeoutMs := t)
  {
  }

  /** Clearing the URL or key, or storing a timeout of -1, does not survive a
      reboot: the compiled default comes back instead. */
  lemma SentinelValuesAreNotReloaded(k: Kconfig, nvs: NvsEntries)
    ensures Boot(k, nvs[ServerKey := NvsStr("")]).serverUrl == KconfigDefaults(k).serverUrl
    ensures Boot(k, nvs[ApiKeyKey := NvsStr("")]).apiKey == KconfigDefaults(k).apiKey
    ensures Boot(k, nvs[TimeoutKey := NvsInt(-1)]).timeoutMs == KconfigDefaults(k).timeoutMs
  {
  }

  /** A concrete case: a URL compiled in, then cleared at run time, is back after a reboot. */
  lemma ClearedServerUrlComesBack()
    ensures var k := NoSymbols.(iotServer := Some("http://meilin.local:5000"));
      Boot(k, map[ServerKey := NvsStr("")]).serverUrl == "http://meilin.local:5000"
  {
  }

  /** The persisted key-value store of one namespace. */
  class NvsStore {
    var entries: NvsEntries

    constructor (initial: NvsEntries)
      ensures entries == initial
    {
      entries := initial;
    }

    method SetInt(key: string, v: int)
      modifies this
      ensures entries == old(entries)[key := NvsInt(v)]
    {
      entries := entries[key := NvsInt(v)];
    }

    method SetString(key: string, s: string)
      modifies this
      ensures entries == old(entries)[key := NvsStr(s)]
    {
      entries := entries[key := NvsStr(s)];
    }
  }

  /** The settings object: one field per setting. */
  class IoTSettings {
    var enabled: bool
    var serverUrl: string
    var apiKey: string
    var timeoutMs: int
    var ttsEnabled: bool
    var fallbackEnabled: bool

    /** The six fields as one value. */
    function Current(): Config reads this {
      Config(enabled, serverUrl, apiKey, timeoutMs, ttsEnabled, fallbackEnabled)
    }

    constructor ()
      ensures Current() == Unloaded
    {
      enabled := false;
      serverUrl := "";
      apiKey := "";
      timeoutMs := 5000;
      ttsEnabled := true;
      fallbackEnabled := true;
    }

    function IsEnabled(): bool reads this { enabled }
    function GetServerUrl(): string reads this { serverUrl }
    function GetApiKey(): string reads this { apiKey }
    function GetTimeoutMs(): int reads this { timeoutMs }
    function IsTtsEnabled(): bool reads this { ttsEnabled }
    function IsFallbackEnabled(): bool reads this { fallbackEnabled }

    /** Usable for IoT operation: enabled, with a server URL and an API key. */
    predicate IsConfigured() reads this {
      enabled && serverUrl != "" && apiKey != ""
    }

    /** The getters read back exactly the stored settings. */
    lemma GettersReadFields()
      ensures Current() == Config(IsEnabled(), GetServerUrl(), GetApiKey(),
                                  GetTimeoutMs(), IsTtsEnabled(), IsFallbackEnabled())
    {
    }

    lemma ConfiguredImpliesEnabled()
      ensures IsConfigured() ==> IsEnabled()
      ensures IsConfigured() <==> IsEnabled() && |GetServerUrl()| > 0 && |GetApiKey()| > 0
    {
    }

    /** Kconfig defaults first, then NVS overrides. */
    method Initialize(k: Kconfig, store: NvsStore)
      modifies this
      ensures Current() == Boot(k, store.entries)
    {
      LoadFromKconfig(k);
      LoadFromNvs(store);
    }

    method LoadFromKconfig(k: Kconfig)
      modifies this
      ensures Current() == KconfigDefaults(k)
    {
      if k.iotEnabled.Some? { enabled := k.iotEnabled.value != 0; } else { enabled := false; }
      if k.iotServer.Some? { serverUrl := k.iotServer.value; } else { serverUrl := ""; }
      if k.iotApiKey.Some? { apiKey := k.iotApiKey.value; } else { apiKey := ""; }
      if k.iotTimeoutMs.Some? { timeoutMs := k.iotTimeoutMs.value; } else { timeoutMs := 5000; }
      if k.iotEnableTts.Some? { ttsEnabled := k.iotEnableTts.value != 0; } else { ttsEnabled := true; }
      if k.iotFallbackToXiaozhi.Some? {
        fallbackEnabled := k.iotFallbackToXiaozhi.value != 0;
      } else {
        fallbackEnabled := true;
      }
    }

    method LoadFromNvs(store: NvsStore)
      modifies this
      ensures Current() == MergeNvs(old(Current()), store.entries)
    {
      var nvs := store.entries;
      var nvsServer := StoredString(nvs, ServerKey);
      serverUrl := if nvsServer != "" then nvsServer else serverUrl;
      var nvsApiKey := StoredString(nvs, ApiKeyKey);
      apiKey := if nvsApiKey != "" then nvsApiKey else apiKey;
      var nvsEnabled := StoredInt(nvs, EnabledKey, -1);
      enabled := if nvsEnabled != -1 then nvsEnabled == 1 else enabled;
      var nvsTimeout := StoredInt(nvs, TimeoutKey, -1);
      timeoutMs := if nvsTimeout != -1 then nvsTimeout else timeoutMs;
      var nvsTts := StoredInt(nvs, TtsKey, -1);
      ttsEnabled := if nvsTts != -1 then nvsTts == 1 else ttsEnabled;
      var nvsFallback := StoredInt(nvs, FallbackKey, -1);
      fallbackEnabled := if nvsFallback != -1 then nvsFallback == 1 else fallbackEnabled;
      OverridesAreMerge(old(Current()), nvs, Current());
    }

    method SetEnabled(b: bool, store: NvsStore)
      modifies this, store
      ensures Current() == old(Current()).(enabled := b)
      ensures store.entries == old(store.entries)[EnabledKey := NvsInt(FlagInt(b))]
    {
      enabled := b;
      store.SetInt(EnabledKey, if b then 1 else 0);
    }

    method SetServerUrl(url: string, store: NvsStore)
      modifies this, store
      ensures Current() == old(Current()).(serverUrl := url)
      ensures store.entries == old(store.entries)[ServerKey := NvsStr(url)]
    {
      serverUrl := url;
      store.SetString(ServerKey, url);
    }

    method SetApiKey(key: string, store: NvsStore)
      modifies this, store
      ensures Current() == old(Current()).(apiKey := key)
      ensures store.entries == old(store.entries)[ApiKeyKey := NvsStr(key)]
    {
      apiKey := key;
      store.SetString(ApiKeyKey, key);
    }

    method SetTimeoutMs(timeout: int, store: NvsStore)
      modifies this, store
      ensures Current() == old(Current()).(timeoutMs := timeout)
      ensures store.entries == old(store.entries)[TimeoutKey := NvsInt(timeout)]
    {
      timeoutMs := timeout;
      store.SetInt(TimeoutKey, timeout);
    }

    method SetTtsEnabled(b: bool, store: NvsStore)
      modifies this, store
      ensures Current() == old(Current()).(ttsEnabled := b)
      ensures store.entries == old(store.entries)[TtsKey := NvsInt(FlagInt(b))]
    {
      ttsEnabled := b;
      store.SetInt(TtsKey, if b then 1 else 0);
    }

    method SetFallbackEnabled(b: bool, store: NvsStore)
      modifies this, store
      ensures Current() == old(Current()).(fallbackEnabled := b)
      ensures store.entries == old(store.entries)[FallbackKey := NvsInt(FlagInt(b))]
    {
      fallbackEnabled := b;
      store.SetInt(FallbackKey, if b then 1 else 0);
    }
  }
}
