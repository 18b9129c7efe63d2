/** Bot configurations: named presets stored as `<name>.json` under `~/.r9s/bots`,
    their path, the validation and normalisation applied when one is loaded, the
    payload written when one is saved, and the listing of stored bots. */
module Bots {
  import opened Wrappers
  import opened Text
  import opened Json
  import opened Paths
  import opened SessionStore

  datatype BotConfig = BotConfig(
    name: string,
    model: string,
    baseUrl: Option<string>,
    systemPrompt: Option<string>,
    systemPromptFile: Option<string>,
    lang: Option<string>,
    extensions: Option<seq<string>>)

  /** Why `bot_path` or `load_bot` failed: a blank name (ValueError), no file at the path
      (FileNotFoundError), a file that exists but cannot be read (any other OSError), text
      that is not JSON, or content that is not a usable configuration (ValueError). */
  datatype BotError =
    | BadName(message: string)
    | NotFound(path: string)
    | ReadError(path: string)
    | BadJson(message: string)
    | Invalid(message: string)

  const EmptyNameMessage := "bot name cannot be empty"

  function InvalidMessage(path: string): string
  {
    "invalid bot config: " + path
  }

  function MissingModelMessage(path: string): string
  {
    "bot config missing 'model': " + path
  }

  /** `bots_root()`, for the home directory `home`. */
  function BotsRoot(home: string): string
  {
    Join(Join(home, ".r9s"), "bots")
  }

  /** `bot_path`: the stripped name plus ".json" under the bots root; a blank name is refused. */
  function BotPath(home: string, name: string): (r: Result<string, BotError>)
    ensures r.Err? <==> IsBlank(name)
    ensures r.Err? ==> r.error == BadName(EmptyNameMessage)
    ensures r.Ok? ==> r.value == Join(BotsRoot(home), Strip(name) + ".json")
  {
    var safe := Strip(name);
    if safe == "" then Err(BadName(EmptyNameMessage)) else Ok(Join(BotsRoot(home), safe + ".json"))
  }

  /** Padding around a name does not change its file. */
  lemma BotPathOfStripped(home: string, name: string)
    ensures BotPath(home, Strip(name)) == BotPath(home, name)
  {
    StripIdempotent(name);
  }

  /** The stem of a bot's file is the stripped name, so listing gives the name back. */
  lemma BotPathStem(home: string, name: string)
    requires !IsBlank(name) && '/' !in name
    ensures BotPath(home, name).Ok?
    ensures Stem(Name(BotPath(home, name).value)) == Strip(name)
  {
    var safe := Strip(name);
    StripSubstring(name);
    assert '/' !in safe + ".json";
    NameOfJoin(BotsRoot(home), safe + ".json");
    StemOfJsonName(safe);
  }

  /** `load_bot`'s optional path-like fields: the stripped value of a non-empty string, else None. */
  function StrippedField(fields: map<string, Json>, key: string): (r: Option<string>)
    ensures r.Some? <==> key in fields && fields[key].Str? && fields[key].s != ""
    ensures r.Some? ==> r.value == Strip(fields[key].s)
  {
    if key in fields && fields[key].Str? && fields[key].s != "" then Some(Strip(fields[key].s)) else None
  }

  /** `load_bot`'s `system_prompt`: a non-empty string, kept as it is, else None. */
  function TextField(fields: map<string, Json>, key: string): (r: Option<string>)
    ensures r.Some? <==> key in fields && fields[key].Str? && fields[key].s != ""
    ensures r.Some? ==> r.value == fields[key].s
  {
    if key in fields && fields[key].Str? && fields[key].s != "" then Some(fields[key].s) else None
  }

  /** `load_bot`'s `extensions`: the list when every entry is a string, else None. */
  function ExtensionsField(fields: map<string, Json>): (r: Option<seq<string>>)
    ensures r.Some? <==> "extensions" in fields && fields["extensions"].Arr? && AllStrings(fields["extensions"].items)
    ensures r.Some? ==> JsonStrings(r.value) == fields["extensions"].items
  {
    if "extensions" in fields && fields["extensions"].Arr? && AllStrings(fields["extensions"].items)
    then Some(StringsOf(fields["extensions"].items))
    else None
  }

  /** A usable `model` entry: a string that is not blank. */
  predicate HasModel(fields: map<string, Json>)
  {
    "model" in fields && fields["model"].Str? && !IsBlank(fields["model"].s)
  }

  /** The bot file exists, was read, and holds a JSON object. */
  predicate DecodedObj(file: Option<StoredFile>)
  {
    file.Some? && file.value.Stored? && file.value.parsed.Decoded? && file.value.parsed.value.Obj?
  }

  /** `load_bot(name)` given what reading the bot's file yields: `None` when no file is there. */
  function LoadBot(home: string, name: string, file: Option<StoredFile>): (r: Result<BotConfig, BotError>)
    ensures IsBlank(name) ==> r == Err(BadName(EmptyNameMessage))
    ensures !IsBlank(name) && file.None? ==> r == Err(NotFound(BotPath(home, name).value))
    ensures !IsBlank(name) && file == Some(Unreadable) ==> r == Err(ReadError(BotPath(home, name).value))
    ensures !IsBlank(name) && file.Some? && file.value.Stored? && file.value.parsed.Malformed? ==>
      r == Err(BadJson(file.value.parsed.message))
    ensures !IsBlank(name) && file.Some? && file.value.Stored? && file.value.parsed.Decoded? && !file.value.parsed.value.Obj? ==>
      r == Err(Invalid(InvalidMessage(BotPath(home, name).value)))
    ensures !IsBlank(name) && DecodedObj(file) && !HasModel(file.value.parsed.value.fields) ==>
      r == Err(Invalid(MissingModelMessage(BotPath(home, name).value)))
    ensures r.Ok? ==> DecodedObj(file) && HasModel(file.value.parsed.value.fields)
    ensures r.Ok? ==>
      var f := file.value.parsed.value.fields;
      && r.value.model == Strip(f["model"].s) && r.value.model != ""
      && r.value.name == PyStr(GetOr(f, "name", Str(name)))
      && r.value.baseUrl == StrippedField(f, "base_url")
      && r.value.systemPrompt == TextField(f, "system_prompt")
      && r.value.systemPromptFile == StrippedField(f, "system_prompt_file")
      && r.value.lang == StrippedField(f, "lang")
      && r.value.extensions == ExtensionsField(f)
  {
    match BotPath(home, name)
    case Err(e) => Err(e)
    case Ok(path) =>
      match file
      case None => Err(NotFound(path))
      case Some(Unreadable) => Err(ReadError(path))
      case Some(Stored(Malformed(message))) => Err(BadJson(message))
      case Some(Stored(Decoded(data))) =>
        if !data.Obj? then Err(Invalid(InvalidMessage(path)))
        else if !HasModel(data.fields) then Err(Invalid(MissingModelMessage(path)))
        else
          var f := data.fields;
          Ok(BotConfig(
            PyStr(GetOr(f, "name", Str(name))),
            Strip(f["model"].s),
            StrippedField(f, "base_url"),
            TextField(f, "system_prompt"),
            StrippedField(f, "system_prompt_file"),
            StrippedField(f, "lang"),
            ExtensionsField(f)))
  }

  /** A missing or empty `name` entry falls back to the name the bot was asked for. */
  lemma LoadBotNameDefault(home: string, name: string, fields: map<string, Json>)
    requires !IsBlank(name) && HasModel(fields)
    requires !("name" in fields && Truthy(fields["name"]))
    ensures LoadBot(home, name, Some(Stored(Decoded(Obj(fields))))) == Ok(LoadBot(home, name, Some(Stored(Decoded(Obj(fields))))).value)
    ensures LoadBot(home, name, Some(Stored(Decoded(Obj(fields))))).value.name == name
  {
  }

  function OptionalStr(v: Option<string>): Json
  {
    if v.Some? then Str(v.value) else Null
  }

  /** `asdict(bot)` as `save_bot` writes it: every field, None as null. */
  function BotJson(b: BotConfig): (r: Json)
    ensures r.Obj? && r.fields.Keys == {"name", "model", "base_url", "system_prompt", "system_prompt_file", "lang", "extensions"}
  {
    Obj(map[
      "name" := Str(b.name),
      "model" := Str(b.model),
      "base_url" := OptionalStr(b.baseUrl),
      "system_prompt" := OptionalStr(b.systemPrompt),
      "system_prompt_file" := OptionalStr(b.systemPromptFile),
      "lang" := OptionalStr(b.lang),
      "extensions" := if b.extensions.Some? then Arr(JsonStrings(b.extensions.value)) else Null])
  }

  /** `save_bot`: where the bot is written, and what. */
  function SaveBot(home: string, b: BotConfig): (r: Result<(string, Json), BotError>)
    ensures r.Err? <==> IsBlank(b.name)
    ensures r.Ok? ==> r.value.0 == BotPath(home, b.name).value && r.value.1 == BotJson(b)
  {
    match BotPath(home, b.name)
    case Err(e) => Err(e)
    case Ok(path) => Ok((path, BotJson(b)))
  }

  /** A path-like optional field survives saving and loading when it is absent, or non-empty and unpadded. */
  predicate CleanOptional(v: Option<string>)
  {
    v.None? || (v.value != "" && Strip(v.value) == v.value)
  }

  /** The bots `load_bot` gives back unchanged: everything it normalises is already normal. */
  predicate NormalBot(b: BotConfig)
  {
    && b.name != ""
    && b.model != "" && Strip(b.model) == b.model
    && CleanOptional(b.baseUrl)
    && (b.systemPrompt.None? || b.systemPrompt.value != "")
    && CleanOptional(b.systemPromptFile)
    && CleanOptional(b.lang)
  }

  /** Saving a normal bot and loading it back by the name it was saved under gives the same bot. */
  lemma SaveLoadBot(home: string, b: BotConfig)
    requires NormalBot(b) && !IsBlank(b.name)
    ensures SaveBot(home, b).Ok?
    ensures LoadBot(home, b.name, Some(Stored(Decoded(SaveBot(home, b).value.1)))) == Ok(b)
  {
    var f := BotJson(b).fields;
    assert !IsBlank(b.model) by {
      assert Strip(b.model) != [];
    }
    assert HasModel(f);
    OptionalSurvives(f, "base_url", b.baseUrl);
    OptionalSurvives(f, "system_prompt_file", b.systemPromptFile);
    OptionalSurvives(f, "lang", b.lang);
    var r := LoadBot(home, b.name, Some(Stored(Decoded(BotJson(b)))));
    assert r.value.systemPrompt == b.systemPrompt;
    assert r.value.extensions == b.extensions;
    assert r.value.name == b.name;
  }

  lemma OptionalSurvives(f: map<string, Json>, key: string, v: Option<string>)
    requires key in f && f[key] == OptionalStr(v) && CleanOptional(v)
    ensures StrippedField(f, key) == v
  {
  }

  /** The names `root.glob("*.json")` matches among the entries of the bots directory. */
  function JsonNames(entries: set<string>): (r: set<string>)
    ensures forall n :: n in r <==> n in entries && EndsWith(n, ".json")
  {
    set n | n in entries && EndsWith(n, ".json")
  }

  function Stems(names: seq<string>): (r: seq<string>)
    ensures |r| == |names| && forall i :: 0 <= i < |names| ==> r[i] == Stem(names[i])
  {
    seq(|names|, i requires 0 <= i < |names| => Stem(names[i]))
  }

  /** `list_bots`, stated on values: the stems of the matched names, in sorted name order. */
  function BotNames(rootExists: bool, entries: set<string>): (r: seq<string>)
    ensures !rootExists ==> r == []
    ensures rootExists ==> r == Stems(SortedStrings(JsonNames(entries)))
  {
    if !rootExists then [] else Stems(SortedStrings(JsonNames(entries)))
  }

  /** `list_bots`: one stem appended per matched file, in sorted order. */
  method ListBots(rootExists: bool, entries: set<string>) returns (out: seq<string>)
    ensures out == BotNames(rootExists, entries)
  {
    if !rootExists {
      return [];
    }
    var names := SortedStrings(JsonNames(entries));
    out := AppendStems(names);
  }

  method AppendStems(names: seq<string>) returns (out: seq<string>)
    ensures out == Stems(names)
  {
    out := [];
    for i := 0 to |names|
      invariant |out| == i
      invariant forall j :: 0 <= j < i ==> out[j] == Stem(names[j])
    {
      out := out + [Stem(names[i])];
    }
  }

  /** A bot saved under a name without '/' is listed under its stripped name. */
  lemma SavedBotListed(home: string, name: string, entries: set<string>)
    requires !IsBlank(name) && '/' !in name
    requires Name(BotPath(home, name).value) in entries
    ensures Strip(name) in BotNames(true, entries)
  {
    BotPathStem(home, name);
    var file := Name(BotPath(home, name).value);
    var safe := Strip(name);
    NameOfStripped(home, name);
    assert EndsWith(file, ".json") by {
      assert file[|file| - 5..] == ".json";
    }
    assert file in JsonNames(entries);
    var names := SortedStrings(JsonNames(entries));
    var k :| 0 <= k < |names| && names[k] == file;
    assert BotNames(true, entries)[k] == safe;
  }

  lemma NameOfStripped(home: string, name: string)
    requires !IsBlank(name) && '/' !in name
    ensures BotPath(home, name).Ok? && Name(BotPath(home, name).value) == Strip(name) + ".json"
  {
    StripSubstring(name);
    assert '/' !in Strip(name) + ".json";
    NameOfJoin(BotsRoot(home), Strip(name) + ".json");
  }

  /** Listing orders by file name, not by bot name: "a-b.json" sorts before "a.json"
      because '-' precedes '.', although "a" sorts before "a-b". */
  lemma ListOrderIsByFileName()
    ensures BotNames(true, {"a.json", "a-b.json"}) == ["a-b", "a"]
    ensures LexLe("a", "a-b") && !LexLe("a-b", "a")
  {
    TwoJsonNames();
    SortedPair();
    PairStems();
    assert "a"[1..] == [] && "a-b"[1..] == "-b";
  }

  lemma PairStems()
    ensures Stems(["a-b.json", "a.json"]) == ["a-b", "a"]
  {
    StemOfJsonName("a-b");
    StemOfJsonName("a");
    assert "a-b" + ".json" == "a-b.json" && "a" + ".json" == "a.json";
  }

  lemma TwoJsonNames()
    ensures JsonNames({"a.json", "a-b.json"}) == {"a.json", "a-b.json"}
  {
    assert EndsWith("a.json", ".json") by { assert "a.json"[1..] == ".json"; }
    assert EndsWith("a-b.json", ".json") by { assert "a-b.json"[3..] == ".json"; }
  }

  lemma SortedPair()
    ensures SortedStrings({"a.json", "a-b.json"}) == ["a-b.json", "a.json"]
  {
    var names := SortedStrings({"a.json", "a-b.json"});
    assert !LexLe("a.json", "a-b.json") by {
      assert "a.json"[0] == "a-b.json"[0];
      assert "a.json"[1..][0] == '.' && "a-b.json"[1..][0] == '-';
    }
    assert names[0] in names && names[1] in names;
    assert names[0] != names[1];
    assert SortedLex(names);
  }
}
