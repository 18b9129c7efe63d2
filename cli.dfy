/** The `r9s` command line's tool-configuration helpers: the tool registry, key masking,
    numbered and yes/no prompts, the model-list payload, base URL and API key resolution,
    and the choice of a backup to restore. Prompts take the lines typed in answer. */
module ToolCli {
  import opened Wrappers
  import opened Text
  import opened Json
  import opened Terminal
  import ClaudeCode

  /** A tool integration, as the registry sees it. */
  datatype Tool = Tool(primaryName: string, aliases: seq<string>)

  const ClaudeTool := Tool(ClaudeCode.PrimaryName, ClaudeCode.Aliases)

  /** `name.lower().replace("_", "-")`. */
  function NormalizedToolName(name: string): string
  {
    ReplaceChar(Lower(name), '_', '-')
  }

  class ToolRegistry {
    var registry: map<string, Tool>

    constructor()
      ensures registry == map[]
    {
      registry := map[];
    }

    /** `register`: the entry for `name` is (over)written; no other entry changes. */
    method Register(name: string, tool: Tool)
      modifies this
      ensures registry == old(registry)[name := tool]
      ensures forall k :: k in old(registry) && k != name ==> k in registry && registry[k] == old(registry)[k]
    {
      registry := registry[name := tool];
    }

    function Get(name: string): (r: Option<Tool>)
      reads this
      ensures r.Some? <==> name in registry
      ensures r.Some? ==> r.value == registry[name]
    {
      if name in registry then Some(registry[name]) else None
    }

    /** `primary_names`: each registered tool's primary name once, sorted. */
    function PrimaryNames(): (r: seq<string>)
      reads this
      ensures SortedLex(r)
      ensures forall i, j :: 0 <= i < j < |r| ==> r[i] != r[j]
      ensures forall n :: n in r <==> exists k :: k in registry && registry[k].primaryName == n
    {
      SortedStrings(set k | k in registry :: registry[k].primaryName)
    }

    /** `resolve`: the exact name first, then its normalised spelling. */
    function Resolve(name: string): (r: Option<Tool>)
      reads this
      ensures name in registry ==> r == Some(registry[name])
      ensures name !in registry ==> r == Get(NormalizedToolName(name))
    {
      if name in registry then Some(registry[name]) else Get(NormalizedToolName(name))
    }
  }

  /** Every alias registered for one tool. */
  function AliasRegistry(names: seq<string>, tool: Tool): (r: map<string, Tool>)
    ensures forall k :: k in r <==> k in names
    ensures forall k :: k in r ==> r[k] == tool
  {
    map k | k in names :: tool
  }

  /** The module-level `TOOLS`: the Claude Code integration under each of its aliases. */
  method NewTools() returns (tools: ToolRegistry)
    ensures fresh(tools)
    ensures tools.registry == AliasRegistry(ClaudeCode.Aliases, ClaudeTool)
  {
    tools := new ToolRegistry();
    var aliases := ClaudeCode.Aliases;
    for i := 0 to |aliases|
      invariant tools.registry == AliasRegistry(aliases[..i], ClaudeTool)
    {
      assert aliases[..i + 1] == aliases[..i] + [aliases[i]];
      tools.Register(aliases[i], ClaudeTool);
    }
    assert aliases[..|aliases|] == aliases;
  }

  /** Any casing of "claude_code", "claude-code" or "claude" resolves to the Claude Code integration. */
  lemma ResolveClaudeAnyCase(tools: ToolRegistry, name: string)
    requires tools.registry == AliasRegistry(ClaudeCode.Aliases, ClaudeTool)
    requires Lower(name) in {"claude_code", "claude-code", "claude"}
    ensures tools.Resolve(name) == Some(ClaudeTool)
  {
    if name !in tools.registry {
      var l := Lower(name);
      if l == "claude_code" {
        assert NormalizedToolName(name) == "claude-code" by { ReplaceAt("claude_code", 6); }
      } else if l == "claude-code" {
        ReplaceAbsent("claude-code", '_', '-');
      } else {
        ReplaceAbsent("claude", '_', '-');
      }
    }
  }

  /** Replacing the single '_' of `s`, at index `k`. */
  lemma ReplaceAt(s: string, k: nat)
    requires k < |s| && s[k] == '_' && '_' !in s[..k] && '_' !in s[k + 1..]
    ensures ReplaceChar(s, '_', '-') == s[..k] + "-" + s[k + 1..]
  {
    var r := ReplaceChar(s, '_', '-');
    forall i | 0 <= i < |s| ensures r[i] == (s[..k] + "-" + s[k + 1..])[i] {
      if i < k {
        assert s[i] in s[..k];
      } else if i > k {
        assert s[i] in s[k + 1..];
      }
    }
  }

  /** The three aliases name one tool, so the tool menu offers one entry. */
  lemma OnePrimaryName(tools: ToolRegistry)
    requires tools.registry == AliasRegistry(ClaudeCode.Aliases, ClaudeTool)
    ensures tools.PrimaryNames() == [ClaudeCode.PrimaryName]
  {
    var names := set k | k in tools.registry :: tools.registry[k].primaryName;
    assert "claude" in tools.registry;
    assert names == {ClaudeCode.PrimaryName};
    var r := tools.PrimaryNames();
    assert |r| == 1 && r[0] in r;
  }

  // ---------------------------------------------------------------- masked_key

  /** Python's `s[:k]`. */
  function PyPrefix(s: string, k: int): (r: string)
    ensures |r| <= |s| && r == s[..|r|]
    ensures 0 <= k <= |s| ==> |r| == k
  {
    if k >= 0 then (if k <= |s| then s[..k] else s)
    else if |s| + k >= 0 then s[..|s| + k] else []
  }

  /** Python's `s[k:]`. */
  function PySuffix(s: string, k: int): (r: string)
    ensures |r| <= |s| && r == s[|s| - |r|..]
    ensures 0 <= k <= |s| ==> |r| == |s| - k
    ensures -|s| <= k < 0 ==> |r| == -k
  {
    if k >= 0 then (if k <= |s| then s[k..] else [])
    else if |s| + k >= 0 then s[|s| + k..] else s
  }

  function Stars(n: nat): (r: string)
    ensures |r| == n && forall i :: 0 <= i < n ==> r[i] == '*'
  {
    seq(n, i requires 0 <= i < n => '*')
  }

  /** `masked_key(key, visible)`. */
  function MaskedKey(key: string, visible: int): (r: string)
    ensures |key| <= visible ==> r == Stars(|key|)
    ensures 1 <= visible < |key| ==>
      && |r| == 2 * visible + 3
      && r[..visible] == key[..visible]
      && r[visible..visible + 3] == "***"
      && r[visible + 3..] == key[|key| - visible..]
  {
    if |key| <= visible then Stars(|key|)
    else
      var r := PyPrefix(key, visible) + "***" + PySuffix(key, -visible);
      assert 1 <= visible < |key| ==> r[visible + 3..] == PySuffix(key, -visible);
      r
  }

  /** With `visible` 0 the whole key shows after the stars, since `key[-0:]` is all of it. */
  lemma MaskedKeyZeroVisible(key: string)
    requires key != ""
    ensures MaskedKey(key, 0) == "***" + key
  {
  }

  // ---------------------------------------------------------------- prompts

  /** The option one answer to a numbered prompt selects, if any. */
  function Pick(options: seq<string>, answer: string): (r: Option<string>)
    ensures r.Some? <==> ChoiceIndex(PromptText(answer), |options|).Some?
    ensures r.Some? ==> r.value == options[ChoiceIndex(PromptText(answer), |options|).value]
  {
    match ChoiceIndex(PromptText(answer), |options|)
    case Some(k) => Some(options[k])
    case None => None
  }

  /** `prompt_choice(prompt, options)`: re-prompt until an answer is the number of an option;
      `asked` is how many answers were read. `None` means input ended first. */
  method PromptChoice(options: seq<string>, answers: seq<string>) returns (r: Option<string>, asked: nat)
    ensures asked <= |answers|
    ensures r.Some? ==> 1 <= asked && r == Pick(options, answers[asked - 1])
    ensures r.Some? ==> forall k :: 0 <= k < asked - 1 ==> Pick(options, answers[k]).None?
    ensures r.None? ==> asked == |answers| && forall k :: 0 <= k < |answers| ==> Pick(options, answers[k]).None?
  {
    asked := 0;
    while asked < |answers|
      invariant 0 <= asked <= |answers|
      invariant forall k :: 0 <= k < asked ==> Pick(options, answers[k]).None?
    {
      var choice := Pick(options, answers[asked]);
      if choice.Some? {
        return choice, asked + 1;
      }
      assert forall k :: 0 <= k < asked + 1 ==> Pick(options, answers[k]).None? by {
        forall k | 0 <= k < asked + 1 ensures Pick(options, answers[k]).None? {
          if k == asked { assert answers[k] == answers[asked]; }
        }
      }
      asked := asked + 1;
    }
    return None, asked;
  }

  /** Named options restrict what a numbered prompt can return. */
  lemma PromptChoiceInOptions(options: seq<string>, answer: string)
    requires Pick(options, answer).Some?
    ensures Pick(options, answer).value in options
  {
  }

  /** `prompt_yes_no(prompt, default_no)`. */
  function PromptYesNo(answer: string, defaultNo: bool): (r: bool)
    ensures IsBlank(answer) ==> r == !defaultNo
    ensures !IsBlank(answer) ==> (r <==> Lower(PromptText(answer)) in {"y", "yes"})
  {
    var a := Lower(PromptText(answer));
    if a == "" then !defaultNo else a == "y" || a == "yes"
  }

  /** The default only decides an empty answer. */
  lemma YesNoDefaultOnlyForBlank(answer: string)
    requires !IsBlank(answer)
    ensures PromptYesNo(answer, true) == PromptYesNo(answer, false)
  {
  }

  /** An answer that accepts with the default "no" accepts with the default "yes" too. */
  lemma YesNoMonotone(answer: string)
    ensures PromptYesNo(answer, true) ==> PromptYesNo(answer, false)
  {
  }

  // ---------------------------------------------------------------- fetch_models

  /** What the model-list request yields: a network error or timeout, or a body passed to `json.loads`. */
  datatype ModelsResponse = Unreachable | Body(parsed: Parsed)

  const ModelsPath := "/models"

  /** The model-list URL: the base URL without trailing '/', then `path`. */
  function ModelsUrl(baseUrl: string, path: string): string
  {
    RStripChar(baseUrl, '/') + path
  }

  /** Trailing slashes on the base URL do not change the URL requested. */
  lemma ModelsUrlTrailingSlash(baseUrl: string, path: string)
    ensures ModelsUrl(baseUrl + "/", path) == ModelsUrl(baseUrl, path)
  {
    assert (baseUrl + "/")[..|baseUrl|] == baseUrl;
  }

  /** One item of a `{"data": [...]}` payload: an object's stringified `id`, a bare string, or nothing. */
  function ModelOfItem(item: Json): (r: Option<string>)
    ensures item.Obj? && "id" in item.fields ==> r == Some(PyStr(item.fields["id"]))
    ensures item.Str? ==> r == Some(item.s)
    ensures !(item.Obj? && "id" in item.fields) && !item.Str? ==> r.None?
  {
    if item.Obj? && "id" in item.fields then Some(PyStr(item.fields["id"]))
    else if item.Str? then Some(item.s)
    else None
  }

  function ModelsOfItems(items: seq<Json>): (r: seq<string>)
    ensures |r| <= |items|
  {
    if items == [] then []
    else
      var init := ModelsOfItems(items[..|items| - 1]);
      match ModelOfItem(items[|items| - 1])
      case Some(m) => init + [m]
      case None => init
  }

  /** The three payload shapes: a list of strings as it is, `{"data": list}` item by item, else []. */
  function PayloadModels(data: Json): seq<string>
  {
    if data.Arr? && AllStrings(data.items) then StringsOf(data.items)
    else if data.Obj? && "data" in data.fields && data.fields["data"].Arr? then ModelsOfItems(data.fields["data"].items)
    else []
  }

  /** The loop over `data["data"]`. */
  method CollectModels(items: seq<Json>) returns (models: seq<string>)
    ensures models == ModelsOfItems(items)
  {
    models := [];
    for i := 0 to |items|
      invariant models == ModelsOfItems(items[..i])
    {
      assert items[..i + 1][..i] == items[..i];
      var m := ModelOfItem(items[i]);
      if m.Some? {
        models := models + [m.value];
      }
    }
    assert items[..|items|] == items;
  }

  /** `fetch_models`, given the response: the URL it requests and the models it returns. */
  method FetchModels(baseUrl: string, path: string, response: ModelsResponse) returns (url: string, models: seq<string>)
    ensures url == ModelsUrl(baseUrl, path)
    ensures response.Unreachable? ==> models == []
    ensures response.Body? && response.parsed.Malformed? ==> models == []
    ensures response.Body? && response.parsed.Decoded? ==> models == PayloadModels(response.parsed.value)
  {
    url := ModelsUrl(baseUrl, path);
    if response.Unreachable? || response.parsed.Malformed? {
      return url, [];
    }
    var data := response.parsed.value;
    if data.Arr? && AllStrings(data.items) {
      return url, StringsOf(data.items);
    }
    if data.Obj? && "data" in data.fields && data.fields["data"].Arr? {
      models := CollectModels(data.fields["data"].items);
      return;
    }
    models := [];
  }

  /** A list of strings gives the same models bare or wrapped in `{"data": ...}`. */
  lemma {:induction false} WrappedStringsAgree(xs: seq<Json>)
    requires AllStrings(xs)
    ensures ModelsOfItems(xs) == StringsOf(xs)
    ensures PayloadModels(Obj(map["data" := Arr(xs)])) == PayloadModels(Arr(xs))
  {
    if xs != [] {
      var init := xs[..|xs| - 1];
      WrappedStringsAgree(init);
      assert StringsOf(xs) == StringsOf(init) + [xs[|xs| - 1].s];
    }
  }

  /** Objects with string ids give their ids, in order. */
  lemma {:induction false} IdsInOrder(ids: seq<string>)
    ensures ModelsOfItems(seq(|ids|, i requires 0 <= i < |ids| => Obj(map["id" := Str(ids[i])]))) == ids
  {
    if ids != [] {
      var init := ids[..|ids| - 1];
      var items := seq(|ids|, i requires 0 <= i < |ids| => Obj(map["id" := Str(ids[i])]));
      assert items[..|items| - 1] == seq(|init|, i requires 0 <= i < |init| => Obj(map["id" := Str(init[i])]));
      IdsInOrder(init);
    }
  }

  /** A top-level list holding anything but strings is no model list at all. */
  lemma MixedListIsNoList(xs: seq<Json>)
    requires !AllStrings(xs)
    ensures PayloadModels(Arr(xs)) == []
  {
  }

  // ---------------------------------------------------------------- resolution

  const DefaultBaseUrl := "https://api.r9s.ai"

  /** `resolve_base_url`: the argument, else the environment value, else the default. */
  function ResolveBaseUrl(arg: Option<string>, env: Option<string>): (r: string)
    ensures r != ""
    ensures arg.Some? && arg.value != "" ==> r == arg.value
    ensures !(arg.Some? && arg.value != "") && env.Some? && env.value != "" ==> r == env.value
    ensures !(arg.Some? && arg.value != "") && !(env.Some? && env.value != "") ==> r == DefaultBaseUrl
  {
    if arg.Some? && arg.value != "" then arg.value
    else if env.Some? && env.value != "" then env.value
    else DefaultBaseUrl
  }

  /** `resolve_api_key`: the environment value, else the argument, else prompt for a secret
      until one is non-empty. `asked` counts the prompts answered. */
  method ResolveApiKey(env: Option<string>, preset: Option<string>, secrets: seq<string>) returns (r: Option<string>, asked: nat)
    ensures r.Some? ==> r.value != ""
    ensures env.Some? && env.value != "" ==> r == env && asked == 0
    ensures !(env.Some? && env.value != "") && preset.Some? && preset.value != "" ==> r == preset && asked == 0
    ensures !(env.Some? && env.value != "") && !(preset.Some? && preset.value != "") ==>
      match FirstNonEmpty(secrets)
      case Some(k) => r == Some(secrets[k]) && asked == k + 1
      case None => r.None? && asked == |secrets|
  {
    if env.Some? && env.value != "" {
      return env, 0;
    }
    if preset.Some? && preset.value != "" {
      return preset, 0;
    }
    asked := 0;
    while asked < |secrets|
      invariant 0 <= asked <= |secrets|
      invariant forall j :: 0 <= j < asked ==> secrets[j] == ""
    {
      if secrets[asked] != "" {
        assert FirstNonEmpty(secrets) == Some(asked);
        return Some(secrets[asked]), asked + 1;
      }
      asked := asked + 1;
    }
    return None, asked;
  }

  /** `choose_model`: the preset, else a numbered choice among the fetched models, else a
      name typed until it is non-empty. `asked` counts the answers read; `None` means input
      ended first. */
  method ChooseModel(preset: Option<string>, models: seq<string>, answers: seq<string>) returns (r: Option<string>, asked: nat)
    ensures asked <= |answers|
    ensures preset.Some? && preset.value != "" ==> r == preset && asked == 0
    ensures !(preset.Some? && preset.value != "") && models != [] ==>
      && (r.Some? ==> 1 <= asked && r == Pick(models, answers[asked - 1]) && r.value in models)
      && (r.Some? ==> forall k :: 0 <= k < asked - 1 ==> Pick(models, answers[k]).None?)
      && (r.None? ==> asked == |answers| && forall k :: 0 <= k < |answers| ==> Pick(models, answers[k]).None?)
    ensures !(preset.Some? && preset.value != "") && models == [] ==>
      && (r.None? <==> forall k :: 0 <= k < |answers| ==> IsBlank(answers[k]))
      && (r.None? ==> asked == |answers|)
      && (r.Some? ==> 1 <= asked && r == Some(PromptText(answers[asked - 1])) && r.value != "" && Strip(r.value) == r.value)
      && (r.Some? ==> forall k :: 0 <= k < asked - 1 ==> IsBlank(answers[k]))
  {
    if preset.Some? && preset.value != "" {
      return preset, 0;
    }
    if models != [] {
      r, asked := PromptChoice(models, answers);
      if r.Some? {
        PromptChoiceInOptions(models, answers[asked - 1]);
      }
      return;
    }
    asked := 0;
    while asked < |answers|
      invariant 0 <= asked <= |answers|
      invariant forall k :: 0 <= k < asked ==> IsBlank(answers[k])
    {
      var manual := PromptText(answers[asked]);
      if manual != "" {
        PromptTextStripped(answers[asked]);
        return Some(manual), asked + 1;
      }
      asked := asked + 1;
    }
    return None, asked;
  }

  // ---------------------------------------------------------------- reset

  /** The backup `handle_reset` restores: the latest unless, with several backups offered,
      the answer is the number of another. None when there is no backup. */
  function SelectBackup(backups: seq<string>, answer: string): (r: Option<string>)
    ensures r.None? <==> backups == []
    ensures r.Some? ==> r.value in backups
    ensures |backups| == 1 ==> r == Some(backups[0])
    ensures |backups| > 1 && ChoiceIndex(PromptText(answer), |backups|).Some? ==>
      r == Some(backups[ChoiceIndex(PromptText(answer), |backups|).value])
    ensures |backups| > 1 && ChoiceIndex(PromptText(answer), |backups|).None? ==> r == Some(backups[|backups| - 1])
  {
    if backups == [] then None
    else if |backups| > 1 then
      match ChoiceIndex(PromptText(answer), |backups|)
      case Some(k) => Some(backups[k])
      case None => Some(backups[|backups| - 1])
    else Some(backups[0])
  }

  /** An empty answer keeps the latest backup. */
  lemma EmptyAnswerKeepsLatest(backups: seq<string>)
    requires backups != []
    ensures SelectBackup(backups, "") == Some(backups[|backups| - 1])
  {
  }
}
