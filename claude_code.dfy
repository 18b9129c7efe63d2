/** The Claude Code integration: its names, and how `set_config` merges the r9s
    settings into `~/.claude/settings.json` (held here as a decoded JSON object). */
module ClaudeCode {
  import opened Wrappers
  import opened Json

  const PrimaryName := "claude-code"
  const Aliases: seq<string> := ["claude-code", "claude", "claude_code"]

  /** The settings file: absent, unreadable (an OSError), not UTF-8 text, or read and
      passed to `json.load`. */
  datatype SettingsFile = Absent | Unreadable | NotUtf8 | Present(parsed: Parsed)

  /** `_read_settings`: the decoded object, or {} for a missing, unreadable, malformed or
      non-object file. `None` is the UnicodeDecodeError of a file that is not UTF-8, which
      neither of its handlers catches. */
  function ReadSettings(f: SettingsFile): (r: Option<map<string, Json>>)
    ensures r.None? <==> f.NotUtf8?
    ensures f.Present? && f.parsed.Decoded? && f.parsed.value.Obj? ==> r == Some(f.parsed.value.fields)
    ensures !f.NotUtf8? && !(f.Present? && f.parsed.Decoded? && f.parsed.value.Obj?) ==> r == Some(map[])
  {
    if f.NotUtf8? then None
    else if f.Present? && f.parsed.Decoded? && f.parsed.value.Obj? then Some(f.parsed.value.fields)
    else Some(map[])
  }

  const EnvKeys: set<string> := {
    "ANTHROPIC_BASE_URL", "ANTHROPIC_AUTH_TOKEN", "API_TIMEOUT_MS",
    "CLAUDE_CODE_DISABLE_NONESSENTIAL_TRAFFIC", "ANTHROPIC_MODEL", "ANTHROPIC_SMALL_FAST_MODEL"}

  /** The entries `set_config` writes into `env`. */
  function R9sEnv(baseUrl: string, apiKey: string, model: string): (r: map<string, Json>)
    ensures r.Keys == EnvKeys
  {
    map[
      "ANTHROPIC_BASE_URL" := Str(baseUrl),
      "ANTHROPIC_AUTH_TOKEN" := Str(apiKey),
      "API_TIMEOUT_MS" := Str("3000000"),
      "CLAUDE_CODE_DISABLE_NONESSENTIAL_TRAFFIC" := Num(1),
      "ANTHROPIC_MODEL" := Str(model),
      "ANTHROPIC_SMALL_FAST_MODEL" := Str(model)]
  }

  /** The existing `env` object, or {} when it is missing or not an object. */
  function EnvOf(data: map<string, Json>): (r: map<string, Json>)
    ensures "env" in data && data["env"].Obj? ==> r == data["env"].fields
    ensures !("env" in data && data["env"].Obj?) ==> r == map[]
  {
    if "env" in data && data["env"].Obj? then data["env"].fields else map[]
  }

  /** The settings `set_config` writes, stated on values. */
  function Configured(data: map<string, Json>, baseUrl: string, apiKey: string, model: string): (r: map<string, Json>)
    ensures r.Keys == data.Keys + {"env"}
    ensures r["env"].Obj? && EnvKeys <= r["env"].fields.Keys
  {
    data["env" := Obj(EnvOf(data) + R9sEnv(baseUrl, apiKey, model))]
  }

  class ClaudeCodeIntegration {
    var settings: SettingsFile

    constructor(settings: SettingsFile)
      ensures this.settings == settings
    {
      this.settings := settings;
    }

    /** `set_config`: read the settings, update `env` in place, store `env` back and write the
      file. A settings file that is not UTF-8 stops it before anything is written. */
    method SetConfig(baseUrl: string, apiKey: string, model: string) returns (written: bool)
      modifies this
      ensures written <==> !old(settings).NotUtf8?
      ensures written ==> settings == Present(Decoded(Obj(Configured(ReadSettings(old(settings)).value, baseUrl, apiKey, model))))
      ensures !written ==> settings == old(settings)
    {
      var read := ReadSettings(settings);
      if read.None? {
        return false;
      }
      var data := read.value;
      var env: map<string, Json> := map[];
      if "env" in data && data["env"].Obj? {
        env := data["env"].fields;
      }
      env := env + R9sEnv(baseUrl, apiKey, model);
      data := data["env" := Obj(env)];
      settings := Present(Decoded(Obj(data)));
      written := true;
    }
  }

  /** After `set_config`, `env` holds exactly the r9s values under the six keys. */
  lemma ConfiguredEnv(data: map<string, Json>, baseUrl: string, apiKey: string, model: string)
    ensures var r := Configured(data, baseUrl, apiKey, model);
      && "env" in r && r["env"].Obj?
      && r["env"].fields["ANTHROPIC_BASE_URL"] == Str(baseUrl)
      && r["env"].fields["ANTHROPIC_AUTH_TOKEN"] == Str(apiKey)
      && r["env"].fields["ANTHROPIC_MODEL"] == Str(model)
      && r["env"].fields["ANTHROPIC_SMALL_FAST_MODEL"] == Str(model)
      && r["env"].fields["API_TIMEOUT_MS"] == Str("3000000")
      && r["env"].fields["CLAUDE_CODE_DISABLE_NONESSENTIAL_TRAFFIC"] == Num(1)
  {
  }

  /** Nothing else changes: other top-level keys keep their values, and so do other `env` keys
      when `env` was an object; a non-object `env` is replaced. */
  lemma ConfiguredPreserves(data: map<string, Json>, baseUrl: string, apiKey: string, model: string)
    ensures var r := Configured(data, baseUrl, apiKey, model);
      && r.Keys == data.Keys + {"env"}
      && (forall k :: k in data && k != "env" ==> r[k] == data[k])
      && r["env"].fields.Keys == EnvOf(data).Keys + EnvKeys
      && (forall k :: k in EnvOf(data) && k !in EnvKeys ==> r["env"].fields[k] == EnvOf(data)[k])
      && (!("env" in data && data["env"].Obj?) ==> r["env"].fields == R9sEnv(baseUrl, apiKey, model))
  {
    var r := Configured(data, baseUrl, apiKey, model);
    if !("env" in data && data["env"].Obj?) {
      assert map[] + R9sEnv(baseUrl, apiKey, model) == R9sEnv(baseUrl, apiKey, model);
    }
  }

  /** Applying the same configuration twice gives the settings applying it once gives. */
  lemma ConfiguredIdempotent(data: map<string, Json>, baseUrl: string, apiKey: string, model: string)
    ensures Configured(Configured(data, baseUrl, apiKey, model), baseUrl, apiKey, model) == Configured(data, baseUrl, apiKey, model)
  {
    var once := Configured(data, baseUrl, apiKey, model);
    var e := R9sEnv(baseUrl, apiKey, model);
    assert EnvOf(once) == EnvOf(data) + e;
    assert (EnvOf(data) + e) + e == EnvOf(data) + e;
  }

  /** A written settings file reads back as what was written, so a second `set_config` changes nothing. */
  lemma SetConfigTwice(f: SettingsFile, baseUrl: string, apiKey: string, model: string)
    ensures ReadSettings(f).Some? ==>
      var once := Configured(ReadSettings(f).value, baseUrl, apiKey, model);
      && ReadSettings(Present(Decoded(Obj(once)))) == Some(once)
      && Configured(ReadSettings(Present(Decoded(Obj(once)))).value, baseUrl, apiKey, model) == once
  {
    if ReadSettings(f).Some? {
      ConfiguredIdempotent(ReadSettings(f).value, baseUrl, apiKey, model);
    }
  }
}
