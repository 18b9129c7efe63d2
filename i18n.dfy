/** The interface language: resolving a requested language tag, and looking up
    message templates with fallbacks. */
module I18n {
  import opened Wrappers
  import opened Text

  /** The two supported languages, English and Simplified Chinese. */
  predicate Supported(lang: string)
  {
    lang == "en" || lang == "zh-CN"
  }

  /** Normalised tags and the language each stands for. */
  const Aliases: map<string, string> := map[
    "en" := "en",
    "en-us" := "en",
    "en_us" := "en",
    "zh" := "zh-CN",
    "zh-cn" := "zh-CN",
    "zh_cn" := "zh-CN",
    "cn" := "zh-CN"
  ]

  /** Lowercase, drop spaces, and turn '_' into '-'. */
  function Normalize(raw: string): (r: string)
    ensures '_' !in r && ' ' !in r
  {
    ReplaceChar(RemoveChar(Lower(raw), ' '), '_', '-')
  }

  /** `resolve_lang`, with `env` the value of `R9S_LANG`. */
  function ResolveLang(value: Option<string>, env: Option<string>): (r: string)
    ensures Supported(r)
    ensures IsBlank(OrElse(value, OrElse(env, ""))) ==> r == "en"
    ensures !IsBlank(OrElse(value, OrElse(env, ""))) ==> r == AliasOf(Normalize(Strip(OrElse(value, OrElse(env, "")))))
  {
    var raw := Strip(OrElse(value, OrElse(env, "")));
    if raw == "" then "en"
    else
      AliasOf(Normalize(raw))
  }

  /** The language a normalised tag stands for; unknown tags mean English. */
  function AliasOf(n: string): (r: string)
    ensures Supported(r)
    ensures n in Aliases ==> r == Aliases[n]
    ensures n !in Aliases ==> r == "en"
  {
    if n in Aliases then Aliases[n] else "en"
  }

  /** An explicit non-empty value decides alone; the environment is not consulted. */
  lemma ExplicitLangWins(value: string, env1: Option<string>, env2: Option<string>)
    requires value != ""
    ensures ResolveLang(Some(value), env1) == ResolveLang(Some(value), env2)
  {
  }

  /** Resolving a resolved language gives it back. */
  lemma ResolveLangIdempotent(value: Option<string>, env: Option<string>, env2: Option<string>)
    ensures ResolveLang(Some(ResolveLang(value, env)), env2) == ResolveLang(value, env)
  {
    ResolveSupported(ResolveLang(value, env), env2);
  }

  /** Each supported language resolves to itself. */
  lemma ResolveSupported(lang: string, env: Option<string>)
    requires Supported(lang)
    ensures ResolveLang(Some(lang), env) == lang
  {
    if lang == "en" {
      ResolveEn(env);
    } else {
      ResolveZh(env);
    }
  }

  /** An explicit tag that is already stripped goes through the alias table alone. */
  lemma ResolveOfTag(s: string, env: Option<string>)
    requires s != "" && Strip(s) == s
    ensures ResolveLang(Some(s), env) == AliasOf(Normalize(s))
  {
  }

  lemma ResolveEn(env: Option<string>)
    ensures ResolveLang(Some("en"), env) == "en"
  {
    EnTag();
    ResolveOfTag("en", env);
    AliasEn();
  }

  lemma EnTag()
    ensures Strip("en") == "en" && Normalize("en") == "en"
  {
    StripOfUnpadded("en");
    NormalizeTag("en", "en", "en");
  }

  lemma ResolveZh(env: Option<string>)
    ensures ResolveLang(Some("zh-CN"), env) == "zh-CN"
  {
    ZhTag();
    ResolveOfTag("zh-CN", env);
    AliasZh();
  }

  lemma ZhTag()
    ensures Strip("zh-CN") == "zh-CN" && Normalize("zh-CN") == "zh-cn"
  {
    StripOfUnpadded("zh-CN");
    NormalizeTag("zh-CN", "zh-cn", "zh-cn");
  }

  lemma AliasEn()
    ensures AliasOf("en") == "en"
  {
  }

  lemma AliasZh()
    ensures AliasOf("zh-cn") == "zh-CN"
  {
  }

  /** The normal form of a tag `s` without spaces whose lowercase form is `lower`. */
  lemma NormalizeTag(s: string, lower: string, normalized: string)
    requires ' ' !in s
    requires |lower| == |s| && forall i :: 0 <= i < |s| ==> LowerChar(s[i]) == lower[i]
    requires |normalized| == |s| && forall i :: 0 <= i < |s| ==> normalized[i] == (if lower[i] == '_' then '-' else lower[i])
    ensures Normalize(s) == normalized
  {
    assert Lower(s) == lower;
    LowerKeepsNoSpace(s);
    assert RemoveChar(lower, ' ') == lower;
  }

  lemma LowerKeepsNoSpace(s: string)
    requires ' ' !in s
    ensures ' ' !in Lower(s)
  {
  }

  /** '_' counts as '-' and case does not matter: "ZH_cn" is Simplified Chinese. */
  lemma ResolveUnderscoreTag(env: Option<string>)
    ensures ResolveLang(Some("ZH_cn"), env) == "zh-CN"
  {
    UnderscoreTag();
    ResolveOfTag("ZH_cn", env);
    AliasZh();
  }

  lemma UnderscoreTag()
    ensures Strip("ZH_cn") == "ZH_cn" && Normalize("ZH_cn") == "zh-cn"
  {
    StripOfUnpadded("ZH_cn");
    NormalizeTag("ZH_cn", "zh_cn", "zh-cn");
  }

  /** A space inside the tag is removed, not turned into '-', so "zh cn" is unknown. */
  lemma ResolveSpacedTag(env: Option<string>)
    ensures ResolveLang(Some("zh cn"), env) == "en"
  {
    SpacedTag();
    ResolveOfTag("zh cn", env);
    AliasLengths();
    assert |"zhcn"| == 4;
  }

  /** Every alias key has two or five characters. */
  lemma AliasLengths()
    ensures forall k :: k in Aliases ==> |k| == 2 || |k| == 5
  {
  }

  lemma SpacedTag()
    ensures Strip("zh cn") == "zh cn" && Normalize("zh cn") == "zhcn"
  {
    StripOfUnpadded("zh cn");
    SpacedNormal();
  }

  lemma SpacedNormal()
    ensures Normalize("zh cn") == "zhcn"
  {
    SpacedLower();
    RemoveSpace();
    ReplaceAbsent("zhcn", '_', '-');
  }

  lemma SpacedLower()
    ensures Lower("zh cn") == "zh cn"
  {
  }

  lemma RemoveSpace()
    ensures RemoveChar("zh cn", ' ') == "zhcn"
  {
    assert "zh cn" == "zh" + [' '] + "cn";
    RemoveInner("zh", "cn", ' ');
  }

  lemma RemoveInner(a: string, b: string, c: char)
    requires c !in a && c !in b
    ensures RemoveChar(a + [c] + b, c) == a + b
  {
    RemoveCharConcat(a + [c], b, c);
    RemoveCharConcat(a, [c], c);
    assert [c][1..] == [];
    assert RemoveChar([c], c) == [];
    assert RemoveChar(a, c) == a && RemoveChar(b, c) == b;
    assert RemoveChar(a + [c], c) == a;
  }

  /** The alias keys spelled with '_' can never match, since '_' is replaced first. */
  lemma UnderscoreAliasesUnreachable(raw: string)
    ensures Normalize(raw) != "en_us" && Normalize(raw) != "zh_cn"
  {
    assert "en_us"[2] == '_' && "zh_cn"[2] == '_';
  }

  const EnStrings: map<string, string> := map[
    "cli.title" := "r9s CLI",
    "cli.tagline" := "Chat with r9s, manage bots, or configure local dev tools to use r9s.",
    "cli.examples.title" := "Common usage examples:",
    "cli.examples.chat_interactive" := "  # Chat (interactive)\n  r9s chat --model \"$R9S_MODEL\"",
    "cli.examples.chat_pipe" := "  # Chat (pipe stdin)\n  echo \"hello\" | r9s chat --model \"$R9S_MODEL\"",
    "cli.examples.resume" := "  # Resume a session\n  r9s chat resume",
    "cli.examples.bots" := "  # Bots\n  r9s bot create mybot --model \"$R9S_MODEL\" --system-prompt \"You are a helpful assistant\"\n  r9s chat --bot mybot\n  r9s bot list",
    "cli.examples.configure" := "  # Configure a tool\n  r9s set claude-code\n  r9s reset claude-code",
    "cli.examples.more" := "Run 'r9s -h' to see all options.",
    "chat.title" := "r9s chat",
    "chat.base_url" := "base_url",
    "chat.model" := "model",
    "chat.system_prompt_set" := "system_prompt: (set)",
    "chat.extensions" := "extensions",
    "chat.commands.title" := "Commands:",
    "chat.commands.exit" := "  /exit   Exit",
    "chat.commands.clear" := "  /clear  Clear session history (does not delete history-file)",
    "chat.commands.help" := "  /help   Show help",
    "chat.prompt.user" := "You> ",
    "chat.prompt.assistant" := "Assistant> ",
    "chat.msg.history_cleared" := "Session history cleared.",
    "chat.err.unknown_command" := "Unknown command: {cmd} (try /help)",
    "chat.err.missing_api_key" := "Missing API key: set R9S_API_KEY or pass --api-key",
    "chat.err.missing_model" := "Missing model: set R9S_MODEL or pass --model",
    "chat.err.history_not_json" := "History file is not valid JSON: {path} ({err})",
    "chat.err.history_not_array" := "History file must be a JSON array: {path}",
    "chat.err.ext_load_file" := "Failed to load extension file: {path}",
    "chat.err.ext_contract" := "Extension must provide one of: register(registry) / get_extension() / EXTENSION / extension",
    "chat.err.resume_requires_tty" := "Resume requires an interactive TTY (no stdin piping).",
    "chat.resume.none" := "No saved sessions found in: {dir}",
    "chat.resume.select" := "Select a session to resume (enter number): ",
    "chat.resume.invalid" := "Invalid selection, try again."
  ]

  const ZhStrings: map<string, string> := map[
    "cli.title" := "r9s CLI",
    "cli.tagline" := "与 r9s 对话、管理 bot，或配置本地开发工具接入 r9s。",
    "cli.examples.title" := "常用用法示例：",
    "cli.examples.chat_interactive" := "  # 对话（交互）\n  r9s chat --model \"$R9S_MODEL\"",
    "cli.examples.chat_pipe" := "  # 对话（stdin 管道）\n  echo \"hello\" | r9s chat --model \"$R9S_MODEL\"",
    "cli.examples.resume" := "  # 恢复对话\n  r9s chat resume",
    "cli.examples.bots" := "  # Bots\n  r9s bot create mybot --model \"$R9S_MODEL\" --system-prompt \"你是一个严谨的助手\"\n  r9s chat --bot mybot\n  r9s bot list",
    "cli.examples.configure" := "  # 配置工具\n  r9s set claude-code\n  r9s reset claude-code",
    "cli.examples.more" := "运行 'r9s -h' 查看全部选项。",
    "chat.title" := "r9s chat",
    "chat.base_url" := "base_url",
    "chat.model" := "model",
    "chat.system_prompt_set" := "system_prompt：（已设置）",
    "chat.extensions" := "extensions",
    "chat.commands.title" := "快捷命令：",
    "chat.commands.exit" := "  /exit   退出",
    "chat.commands.clear" := "  /clear  清空本次会话历史（不删除 history-file）",
    "chat.commands.help" := "  /help   帮助",
    "chat.prompt.user" := "You> ",
    "chat.prompt.assistant" := "Assistant> ",
    "chat.msg.history_cleared" := "已清空本次会话历史。",
    "chat.err.unknown_command" := "未知命令: {cmd}（可用 /help）",
    "chat.err.missing_api_key" := "缺少 API key：请设置 R9S_API_KEY 或传入 --api-key",
    "chat.err.missing_model" := "缺少 model：请设置 R9S_MODEL 或传入 --model",
    "chat.err.history_not_json" := "history 文件不是合法 JSON: {path} ({err})",
    "chat.err.history_not_array" := "history 文件必须是 JSON array: {path}",
    "chat.err.ext_load_file" := "无法加载扩展文件: {path}",
    "chat.err.ext_contract" := "扩展必须提供 register(registry) / get_extension() / EXTENSION / extension 之一",
    "chat.err.resume_requires_tty" := "resume 需要交互式终端（不能通过 stdin 管道）。",
    "chat.resume.none" := "在此目录未找到可恢复会话: {dir}",
    "chat.resume.select" := "选择要恢复的会话（输入编号）：",
    "chat.resume.invalid" := "选择无效，请重试。"
  ]

  const Strings: map<string, map<string, string>> := map["en" := EnStrings, "zh-CN" := ZhStrings]

  /** The template `t` formats: the language's table, or the English one for an unknown
      language; within it the key, else the English entry, else the key itself. */
  function Template(key: string, lang: string): (r: string)
    ensures lang in Strings && key in Strings[lang] && Strings[lang][key] != "" ==> r == Strings[lang][key]
    ensures lang !in Strings ==> r == (if key in EnStrings && EnStrings[key] != "" then EnStrings[key] else key)
    ensures key !in EnStrings && key !in ZhStrings ==> r == key
    ensures key != "" ==> r != ""
  {
    var table := if lang in Strings && Strings[lang] != map[] then Strings[lang] else EnStrings;
    if key in table && table[key] != "" then table[key]
    else if key in EnStrings && EnStrings[key] != "" then EnStrings[key]
    else key
  }

  /** `t`: the template formatted by `format`, or the template itself when formatting fails. */
  function T(key: string, lang: string, format: string -> Option<string>): (r: string)
    ensures format(Template(key, lang)).None? ==> r == Template(key, lang)
    ensures format(Template(key, lang)).Some? ==> r == format(Template(key, lang)).value
  {
    match format(Template(key, lang))
    case Some(s) => s
    case None => Template(key, lang)
  }

  /** Both tables cover the same keys, so no lookup in either falls back to the key. */
  lemma TablesCoverSameKeys()
    ensures EnStrings.Keys == ZhStrings.Keys
  {
  }
}
