/** `r9s chat`: how the settings of a chat are resolved from arguments, environment,
    a bot and a resumed session; the interactive loop over input lines; and the piped
    one-shot turn. The network client is a `Server` value and the clock a parameter. */
module ChatRepl {
  import opened Wrappers
  import opened Text
  import opened Json
  import opened SessionStore
  import opened Extensions
  import opened Console
  import opened ChatTurn
  import opened Bots
  import I18n
  import ToolCli
  import opened Terminal

  // ---------------------------------------------------------------- resolution

  /** The environment variables the chat reads. */
  datatype Env = Env(
    apiKey: Option<string>,       // R9S_API_KEY
    baseUrl: Option<string>,      // R9S_BASE_URL
    model: Option<string>,        // R9S_MODEL
    systemPrompt: Option<string>, // R9S_SYSTEM_PROMPT
    lang: Option<string>,         // R9S_LANG
    extensions: string)           // R9S_CHAT_EXTENSIONS, "" when unset

  /** `_resolve_api_key`: the environment value before the argument. */
  function ResolveApiKey(env: Option<string>, arg: Option<string>): (r: string)
    ensures r == "" <==> !(env.Some? && env.value != "") && !(arg.Some? && arg.value != "")
    ensures env.Some? && env.value != "" ==> r == env.value
    ensures r != "" ==> Some(r) == env || Some(r) == arg
  {
    OrElse(env, OrElse(arg, ""))
  }

  const DefaultBaseUrl := "https://api.r9s.ai"

  /** `_resolve_base_url`: the argument, the environment value, the default. */
  function ResolveBaseUrl(arg: Option<string>, env: Option<string>): (r: string)
    ensures r != ""
  {
    assert DefaultBaseUrl != "";
    OrElse(arg, OrElse(env, DefaultBaseUrl))
  }

  /** The chat and the tool setup resolve the base URL alike, so it is never empty. */
  lemma BaseUrlAgreesWithToolSetup(arg: Option<string>, env: Option<string>)
    ensures ResolveBaseUrl(arg, env) == ToolCli.ResolveBaseUrl(arg, env)
  {
  }

  /** `_resolve_model`: the stripped argument or environment value, whichever is non-empty first. */
  function ResolveModel(arg: Option<string>, env: Option<string>): (r: string)
    ensures Strip(r) == r
    ensures arg.Some? && arg.value != "" ==> r == Strip(arg.value)
    ensures !(arg.Some? && arg.value != "") ==> r == Strip(OrElse(env, ""))
  {
    StripIdempotent(OrElse(arg, OrElse(env, "")));
    Strip(OrElse(arg, OrElse(env, "")))
  }

  /** A blank `--model` still shadows `R9S_MODEL`: it is non-empty, so it is chosen, then stripped to nothing. */
  lemma BlankModelArgShadowsEnv(env: Option<string>)
    ensures ResolveModel(Some(" "), env) == ""
  {
    assert IsBlank(" ");
  }

  /** `_resolve_system_prompt`: the text argument as given; else the stripped prompt file,
      `None` when blank; else the stripped environment value. `fileText` is the file's content. */
  function ResolveSystemPrompt(arg: Option<string>, file: Option<string>, fileText: string, env: Option<string>): (r: Option<string>)
    ensures arg.Some? && arg.value != "" ==> r == arg
    ensures !(arg.Some? && arg.value != "") && file.Some? && file.value != "" ==>
      r == (if IsBlank(fileText) then None else Some(Strip(fileText)))
    ensures !(arg.Some? && arg.value != "") && !(file.Some? && file.value != "") ==>
      r == (if env.Some? && env.value != "" then Some(Strip(env.value)) else None)
    ensures r.Some? && r.value == "" ==> env.Some? && IsBlank(env.value)
  {
    if arg.Some? && arg.value != "" then arg
    else if file.Some? && file.value != "" then (if IsBlank(fileText) then None else Some(Strip(fileText)))
    else if env.Some? && env.value != "" then Some(Strip(env.value))
    else None
  }

  /** A whitespace-only `R9S_SYSTEM_PROMPT` gives an empty prompt, which is no prompt for the request. */
  lemma BlankEnvPromptSendsNone(history: seq<Message>)
    ensures ResolveSystemPrompt(None, None, "", Some(" ")) == Some("")
    ensures BuildMessages(Some(""), history) == history
  {
    assert IsBlank(" ");
  }

  // ---------------------------------------------------------------- bot defaults

  /** The `chat` arguments `handle_chat` reads. */
  datatype ChatArgs = ChatArgs(
    lang: Option<string>,
    apiKey: Option<string>,
    baseUrl: Option<string>,
    model: Option<string>,
    bot: Option<string>,
    systemPrompt: Option<string>,
    systemPromptFile: Option<string>,
    historyFile: Option<string>,
    noHistory: bool,
    ext: seq<string>,
    noStream: bool,
    resume: bool)

  predicate Given(v: Option<string>)
  {
    v.Some? && v.value != ""
  }

  /** A bot default for an argument: used only when the argument was not passed at all. */
  function BotDefault(arg: Option<string>, default: Option<string>): (r: Option<string>)
    ensures arg.Some? ==> r == arg
    ensures arg.None? ==> r == (if Given(default) then default else None)
  {
    if arg.None? && Given(default) then default else arg
  }

  /** The system prompt arguments (text, file) with a bot's defaults: only when neither was
      passed, and the bot's prompt file before its prompt text. */
  function BotPrompt(args: ChatArgs, bot: BotConfig): (r: (Option<string>, Option<string>))
    ensures args.systemPrompt.Some? || args.systemPromptFile.Some? ==> r == (args.systemPrompt, args.systemPromptFile)
    ensures args.systemPrompt.None? && args.systemPromptFile.None? && Given(bot.systemPromptFile) ==> r == (None, bot.systemPromptFile)
    ensures args.systemPrompt.None? && args.systemPromptFile.None? && !Given(bot.systemPromptFile) ==>
      r == (if Given(bot.systemPrompt) then bot.systemPrompt else None, None)
  {
    if args.systemPrompt.Some? || args.systemPromptFile.Some? then (args.systemPrompt, args.systemPromptFile)
    else if Given(bot.systemPromptFile) then (None, bot.systemPromptFile)
    else if Given(bot.systemPrompt) then (bot.systemPrompt, None)
    else (None, None)
  }

  /** The extension specs with a bot's: the bot's first, then those of the command line. */
  function BotExtensions(ext: seq<string>, bot: BotConfig): (r: seq<string>)
    ensures bot.extensions.Some? ==> r == bot.extensions.value + ext
    ensures bot.extensions.None? ==> r == ext
  {
    if bot.extensions.Some? && bot.extensions.value != [] then bot.extensions.value + ext else ext
  }

  /** The arguments with the bot's defaults applied; nothing else changes. */
  function WithBot(args: ChatArgs, bot: BotConfig): (r: ChatArgs)
    ensures r.baseUrl == BotDefault(args.baseUrl, bot.baseUrl)
    ensures r.model == BotDefault(args.model, Some(bot.model))
    ensures (r.systemPrompt, r.systemPromptFile) == BotPrompt(args, bot)
    ensures r.ext == BotExtensions(args.ext, bot)
    ensures r.lang == args.lang && r.apiKey == args.apiKey && r.bot == args.bot && r.historyFile == args.historyFile
    ensures r.noHistory == args.noHistory && r.noStream == args.noStream && r.resume == args.resume
  {
    var prompt := BotPrompt(args, bot);
    args.(baseUrl := BotDefault(args.baseUrl, bot.baseUrl), model := BotDefault(args.model, Some(bot.model)),
      systemPrompt := prompt.0, systemPromptFile := prompt.1, ext := BotExtensions(args.ext, bot))
  }

  /** The UI language: `--lang`, else `R9S_LANG`; a bot's language replaces it when `--lang` was not passed. */
  function ChatLang(args: ChatArgs, bot: Option<BotConfig>, env: Env): (r: string)
    ensures I18n.Supported(r)
    ensures args.lang.Some? || bot.None? || !Given(bot.value.lang) ==> r == I18n.ResolveLang(args.lang, env.lang)
    ensures args.lang.None? && bot.Some? && Given(bot.value.lang) ==> r == I18n.ResolveLang(bot.value.lang, None)
  {
    if args.lang.None? && bot.Some? && Given(bot.value.lang) then I18n.ResolveLang(bot.value.lang, env.lang)
    else I18n.ResolveLang(args.lang, env.lang)
  }

  // ---------------------------------------------------------------- session record

  /** Why `handle_chat` exits before the first prompt: a localised message (by key, with its
      one argument, or with the history path and the decode error), a bot that cannot be
      loaded, end of input at the resume prompt (the `EOFError` of `input()`, which nothing
      up to the entry point catches), or an exception it lets through. */
  datatype Abort =
    | Localized(key: string, detail: string)
    | LocalizedPathErr(key: string, path: string, err: string)
    | EndOfInput
    | BotNotFound(name: string)
    | BotFailed(name: string, botError: BotError)
    | HistoryUnreadable(path: string)
    | Reraised(extError: ExtError)

  /** What the chat runs with. */
  datatype Settings = Settings(baseUrl: string, model: string, systemPrompt: Option<string>)

  /** The history path: none with `--no-history`, else `--history-file`, else a fresh default path. */
  function HistoryPath(noHistory: bool, historyFile: Option<string>, defaultPath: string): (r: Option<string>)
    ensures r.None? <==> noHistory
    ensures r.Some? && Given(historyFile) ==> r.value == historyFile.value
    ensures !noHistory && !Given(historyFile) ==> r == Some(defaultPath)
  {
    if noHistory then None else Some(OrElse(historyFile, defaultPath))
  }

  /** The record of a new session: named after the history file when there is one. */
  function NewRecord(historyPath: Option<string>, freshId: string, now: string, s: Settings): (r: SessionRecord)
    ensures r.messages == [] && r.meta.createdAt == now && r.meta.updatedAt == now
    ensures r.meta.baseUrl == s.baseUrl && r.meta.model == s.model && r.meta.systemPrompt == s.systemPrompt
    ensures r.meta.sessionId == (if Given(historyPath) then PathStem(historyPath.value) else freshId)
  {
    SessionRecord(SessionMeta(
      if Given(historyPath) then PathStem(historyPath.value) else freshId,
      now, now, s.baseUrl, s.model, s.systemPrompt), [])
  }

  /** The settings after resuming, as written: each one that is empty (the prompt: `None`)
      is taken from the saved meta. */
  function Adopted(s: Settings, meta: SessionMeta): (r: Settings)
    ensures s.baseUrl != "" ==> r.baseUrl == s.baseUrl
    ensures s.model != "" ==> r.model == s.model
    ensures s.systemPrompt.Some? ==> r.systemPrompt == s.systemPrompt
    ensures r.baseUrl == "" <==> s.baseUrl == "" && meta.baseUrl == ""
    ensures r.model == "" <==> s.model == "" && meta.model == ""
    ensures r.systemPrompt.None? <==> s.systemPrompt.None? && meta.systemPrompt.None?
    ensures s.baseUrl == "" ==> r.baseUrl == meta.baseUrl
    ensures s.model == "" ==> r.model == meta.model
    ensures s.systemPrompt.None? ==> r.systemPrompt == meta.systemPrompt
  {
    Settings(
      if s.baseUrl == "" && meta.baseUrl != "" then meta.baseUrl else s.baseUrl,
      if s.model == "" && meta.model != "" then meta.model else s.model,
      if s.systemPrompt.None? && meta.systemPrompt.Some? then meta.systemPrompt else s.systemPrompt)
  }

  /** The saved meta after resuming: empty fields filled from the settings, nothing saved
      overwritten, and the update time set. */
  function FilledMeta(meta: SessionMeta, s: Settings, now: string): (r: SessionMeta)
    ensures r.sessionId == meta.sessionId && r.createdAt == meta.createdAt && r.updatedAt == now
    ensures meta.baseUrl != "" ==> r.baseUrl == meta.baseUrl
    ensures meta.model != "" ==> r.model == meta.model
    ensures meta.systemPrompt.Some? ==> r.systemPrompt == meta.systemPrompt
    ensures meta.baseUrl == "" ==> r.baseUrl == s.baseUrl
    ensures meta.model == "" ==> r.model == s.model
    ensures meta.systemPrompt.None? ==> r.systemPrompt == s.systemPrompt
  {
    meta.(
      baseUrl := if meta.baseUrl == "" && s.baseUrl != "" then s.baseUrl else meta.baseUrl,
      model := if meta.model == "" && s.model != "" then s.model else meta.model,
      systemPrompt := if meta.systemPrompt.None? then s.systemPrompt else meta.systemPrompt,
      updatedAt := now)
  }

  /** After resuming, the settings and the meta are empty in the same places. */
  lemma ResumedAgree(s: Settings, meta: SessionMeta, now: string)
    ensures var a := Adopted(s, meta); var m := FilledMeta(meta, a, now);
      (m.baseUrl == "" <==> a.baseUrl == "") && (m.model == "" <==> a.model == "")
      && (m.systemPrompt.None? <==> a.systemPrompt.None?)
  {
  }

  /** The base URL a resumed session runs with, as written: the resolved URL is never empty,
      so the saved one is never adopted however the session was saved. */
  lemma SavedBaseUrlIgnoredAsWritten(meta: SessionMeta, model: string, prompt: Option<string>)
    requires meta.baseUrl != "" && meta.baseUrl != DefaultBaseUrl
    ensures Adopted(Settings(ResolveBaseUrl(None, None), model, prompt), meta).baseUrl == DefaultBaseUrl
    ensures Adopted(Settings(ResolveBaseUrl(None, None), model, prompt), meta).baseUrl != meta.baseUrl
  {
  }

  /** The base URL of a resumed session as evidently intended: an explicit argument or
      environment value, else the saved one, else the default. */
  function ResumedBaseUrl(arg: Option<string>, env: Option<string>, saved: string): (r: string)
    ensures r != ""
    ensures Given(arg) || Given(env) ==> r == ResolveBaseUrl(arg, env)
    ensures !Given(arg) && !Given(env) && saved != "" ==> r == saved
    ensures !Given(arg) && !Given(env) && saved == "" ==> r == DefaultBaseUrl
  {
    OrElse(arg, OrElse(env, if saved != "" then saved else DefaultBaseUrl))
  }

  /** With the correction, a session saved with a base URL keeps using it unless one is passed. */
  lemma SavedBaseUrlKeptCorrected(meta: SessionMeta, now: string)
    requires meta.baseUrl != ""
    ensures ResumedBaseUrl(None, None, meta.baseUrl) == meta.baseUrl
    ensures FilledMeta(meta, Settings(ResumedBaseUrl(None, None, meta.baseUrl), "", None), now).baseUrl == meta.baseUrl
  {
  }

  /** The record and the settings `handle_chat` goes on with, as written: a new record when
      there is no file to resume, else the loaded one with the settings and meta merged.
      `existing` is the history file when the path names one that exists. Since the resolved
      base URL is never empty, a loaded record never changes it. */
  function OpenRecord(s: Settings, historyPath: Option<string>, existing: Option<StoredFile>,
                      now: string, freshId: string): (r: Result<(Settings, SessionRecord), Abort>)
    ensures existing.None? ==> r == Ok((s, NewRecord(historyPath, freshId, now, s)))
    ensures r.Ok? && s.baseUrl != "" ==> r.value.0.baseUrl == s.baseUrl
    ensures r.Err? ==> existing.Some? && Given(historyPath) && Load(historyPath.value, now, existing.value).Err?
    ensures existing.Some? && Given(historyPath) ==>
      match Load(historyPath.value, now, existing.value)
      case Err(ReadFailed) => r == Err(HistoryUnreadable(historyPath.value))
      case Err(NotJson(msg)) => r == Err(LocalizedPathErr("chat.err.history_not_json", historyPath.value, msg))
      case Err(NotArray) => r == Err(Localized("chat.err.history_not_array", historyPath.value))
      case Ok(rec) =>
        r.Ok? && r.value.0 == Adopted(s, rec.meta) && r.value.1.messages == rec.messages
        && r.value.1.meta == FilledMeta(rec.meta, r.value.0, now)
  {
    if existing.None? || !Given(historyPath) then Ok((s, NewRecord(historyPath, freshId, now, s)))
    else
      var path := historyPath.value;
      match Load(path, now, existing.value)
      case Err(ReadFailed) => Err(HistoryUnreadable(path))
      case Err(NotJson(msg)) => Err(LocalizedPathErr("chat.err.history_not_json", path, msg))
      case Err(NotArray) => Err(Localized("chat.err.history_not_array", path))
      case Ok(rec) =>
        var s' := Adopted(s, rec.meta);
        Ok((s', SessionRecord(FilledMeta(rec.meta, s', now), rec.messages)))
  }

  /** `OpenRecord` with the base URL of a resumed session chosen as evidently intended
      (`ResumedBaseUrl`): it fails and succeeds alike, and differs only in the base URL,
      which is the saved one when neither `--base-url` nor `R9S_BASE_URL` is given. */
  function OpenRecordCorrected(args: ChatArgs, env: Env, s: Settings, historyPath: Option<string>, existing: Option<StoredFile>,
                               now: string, freshId: string): (r: Result<(Settings, SessionRecord), Abort>)
    ensures var w := OpenRecord(s, historyPath, existing, now, freshId);
      && (r.Err? <==> w.Err?) && (r.Err? ==> r == w)
      && (r.Ok? ==> r.value.0.model == w.value.0.model && r.value.0.systemPrompt == w.value.0.systemPrompt
                    && r.value.1.messages == w.value.1.messages && r.value.1.meta.sessionId == w.value.1.meta.sessionId)
    ensures (existing.Some? && Given(historyPath) && Load(historyPath.value, now, existing.value).Ok?
             && !Given(args.baseUrl) && !Given(env.baseUrl) && Load(historyPath.value, now, existing.value).value.meta.baseUrl != "") ==>
      var saved := Load(historyPath.value, now, existing.value).value.meta.baseUrl;
      r.Ok? && r.value.0.baseUrl == saved && r.value.1.meta.baseUrl == saved
  {
    if existing.None? || !Given(historyPath) then Ok((s, NewRecord(historyPath, freshId, now, s)))
    else
      var path := historyPath.value;
      match Load(path, now, existing.value)
      case Err(ReadFailed) => Err(HistoryUnreadable(path))
      case Err(NotJson(msg)) => Err(LocalizedPathErr("chat.err.history_not_json", path, msg))
      case Err(NotArray) => Err(Localized("chat.err.history_not_array", path))
      case Ok(rec) =>
        var s' := Adopted(s.(baseUrl := ResumedBaseUrl(args.baseUrl, env.baseUrl, rec.meta.baseUrl)), rec.meta);
        Ok((s', SessionRecord(FilledMeta(rec.meta, s', now), rec.messages)))
  }

  /** Resuming a saved session continues its conversation and keeps its identity. */
  lemma ResumeContinuesSavedSession(s: Settings, path: string, rec: SessionRecord, now: string, freshId: string)
    requires path != ""
    ensures var r := OpenRecord(s, Some(path), Some(Stored(Decoded(SavePayload(rec)))), now, freshId);
      r.Ok? && r.value.1.messages == rec.messages
      && (rec.meta.sessionId != "" ==> r.value.1.meta.sessionId == rec.meta.sessionId)
  {
    SaveLoadMessages(rec, path, now);
    SaveLoadRoundTrip(rec, path, now);
    MetaOfEncoded(rec.meta, PathStem(path), now);
  }

  // ---------------------------------------------------------------- extensions

  const FileLoadPrefix := "Failed to load extension file:"
  const ContractPhrase := "Extension must provide one of"

  /** How a failure to load the extensions ends the chat: an ImportError about an extension
      file or about the export contract becomes a localised message; anything else goes through. */
  function ExtAbort(e: ExtError): (r: Abort)
    ensures e.ContractError? ==> r == Localized("chat.err.ext_contract", "")
    ensures e.NameMissing? ==> r == Reraised(e)
    ensures e.ImportFailed? && StartsWith(e.message, FileLoadPrefix) ==>
      r == Localized("chat.err.ext_load_file", Strip(e.message[|FileLoadPrefix|..]))
    ensures e.ImportFailed? && !StartsWith(e.message, FileLoadPrefix) && Contains(e.message, ContractPhrase) ==>
      r == Localized("chat.err.ext_contract", "")
    ensures e.ImportFailed? && !StartsWith(e.message, FileLoadPrefix) && !Contains(e.message, ContractPhrase) ==> r == Reraised(e)
  {
    match e
    case ImportFailed(_, msg) =>
      // The prefix's only ':' is its last character, so `split(":", 1)[1]` is the text after it.
      if StartsWith(msg, FileLoadPrefix) then Localized("chat.err.ext_load_file", Strip(msg[|FileLoadPrefix|..]))
      else if Contains(msg, ContractPhrase) then Localized("chat.err.ext_contract", "")
      else Reraised(e)
    case ContractError(_) => Localized("chat.err.ext_contract", "")
    case NameMissing => Reraised(e)
  }

  /** The extensions of the chat: none without specs, else those the specs load. */
  function ChatExtensions(specs: seq<string>, modules: string -> ModuleLoad): (r: Result<seq<Extension>, Abort>)
    ensures specs == [] ==> r == Ok([])
    ensures specs != [] && Loaded(specs, modules).Ok? ==> r == Ok(Loaded(specs, modules).value)
    ensures specs != [] && Loaded(specs, modules).Err? ==> r == Err(ExtAbort(Loaded(specs, modules).error))
  {
    if specs == [] then Ok([])
    else match Loaded(specs, modules)
      case Ok(exts) => Ok(exts)
      case Err(e) => Err(ExtAbort(e))
  }

  // ---------------------------------------------------------------- set-up

  /** Everything the chat needs once set up. */
  datatype Prepared = Prepared(
    lang: string,
    apiKey: string,
    settings: Settings,
    historyPath: Option<string>,
    record: SessionRecord,
    exts: seq<Extension>)

  /** The bot named by `--bot`, loaded from `botFile` (`None` when there is no such file),
      or why it cannot be: only a missing file is "not found". */
  function ChatBot(home: string, name: Option<string>, botFile: Option<StoredFile>): (r: Result<Option<BotConfig>, Abort>)
    ensures !Given(name) ==> r == Ok(None)
    ensures Given(name) && LoadBot(home, name.value, botFile).Ok? ==> r == Ok(Some(LoadBot(home, name.value, botFile).value))
    ensures Given(name) && LoadBot(home, name.value, botFile).Err? ==>
      r == Err(if LoadBot(home, name.value, botFile).error.NotFound? then BotNotFound(name.value)
               else BotFailed(name.value, LoadBot(home, name.value, botFile).error))
  {
    if !Given(name) then Ok(None)
    else match LoadBot(home, name.value, botFile)
      case Ok(b) => Ok(Some(b))
      case Err(NotFound(_)) => Err(BotNotFound(name.value))
      case Err(e) => Err(BotFailed(name.value, e))
  }

  /** The history file `chat resume` picked, replacing `--history-file`. `picked` is the
      outcome of `ResumeSelect`, which only runs on an interactive terminal. */
  function Resumed(args: ChatArgs, tty: bool, picked: ResumeOutcome, historyRoot: string): (r: Result<ChatArgs, Abort>)
    ensures !args.resume ==> r == Ok(args)
    ensures args.resume && !tty ==> r == Err(Localized("chat.err.resume_requires_tty", ""))
    ensures args.resume && tty && picked.NoSessions? ==> r == Err(Localized("chat.resume.none", historyRoot))
    ensures args.resume && tty && picked.Chosen? ==> r == Ok(args.(historyFile := Some(picked.path)))
    ensures args.resume && tty && picked.InputEnded? ==> r == Err(EndOfInput)
    ensures r.Ok? ==> r.value.noHistory == args.noHistory && r.value.ext == args.ext
  {
    if !args.resume then Ok(args)
    else if !tty then Err(Localized("chat.err.resume_requires_tty", ""))
    else match picked
      case NoSessions => Err(Localized("chat.resume.none", historyRoot))
      case Chosen(p) => Ok(args.(historyFile := Some(p)))
      case InputEnded => Err(EndOfInput)
  }

  /** The arguments and the UI language after the bot's defaults and `chat resume`. */
  function Arguments(args: ChatArgs, env: Env, home: string, botFile: Option<StoredFile>, tty: bool, picked: ResumeOutcome)
    : (r: Result<(ChatArgs, string), Abort>)
    ensures r.Ok? ==> I18n.Supported(r.value.1) && r.value.0.noHistory == args.noHistory
    ensures !Given(args.bot) && !args.resume ==> r == Ok((args, I18n.ResolveLang(args.lang, env.lang)))
    ensures r.Ok? ==> ChatBot(home, args.bot, botFile).Ok? && r.value.1 == ChatLang(args, ChatBot(home, args.bot, botFile).value, env)
    ensures ChatBot(home, args.bot, botFile).Ok? && args.resume && tty ==>
      && (picked.NoSessions? ==> r == Err(Localized("chat.resume.none", Paths.Join(Paths.Join(home, ".r9s"), "chat"))))
      && (picked.InputEnded? ==> r == Err(EndOfInput))
      && (picked.Chosen? ==> r.Ok? && r.value.0.historyFile == Some(picked.path))
  {
    match ChatBot(home, args.bot, botFile)
    case Err(e) => Err(e)
    case Ok(bot) =>
      var merged := if bot.Some? then WithBot(args, bot.value) else args;
      match Resumed(merged, tty, picked, Paths.Join(Paths.Join(home, ".r9s"), "chat"))
      case Err(e) => Err(e)
      case Ok(a) => Ok((a, ChatLang(args, bot, env)))
  }

  /** The settings resolved from the arguments and the environment. */
  function Resolved(a: ChatArgs, env: Env, promptFileText: string): (s: Settings)
    ensures s.baseUrl != ""
  {
    Settings(
      ResolveBaseUrl(a.baseUrl, env.baseUrl),
      ResolveModel(a.model, env.model),
      ResolveSystemPrompt(a.systemPrompt, a.systemPromptFile, promptFileText, env.systemPrompt))
  }

  /** The settings, history path and record the chat runs with, or why it stops. */
  function Session(a: ChatArgs, env: Env, promptFileText: string, defaultPath: string, freshId: string,
                   files: string -> Option<StoredFile>, now: string): (r: Result<(Settings, Option<string>, SessionRecord), Abort>)
    ensures r.Ok? ==> r.value.0.model != "" && r.value.0.baseUrl != ""
    ensures r.Ok? ==> r.value.1 == HistoryPath(a.noHistory, a.historyFile, defaultPath)
    ensures r.Ok? ==> (r.value.1.None? <==> a.noHistory)
    ensures r.Ok? && r.value.1.None? ==> r.value.2.messages == []
    ensures var hp := HistoryPath(a.noHistory, a.historyFile, defaultPath);
      var o := OpenRecord(Resolved(a, env, promptFileText), hp, if Given(hp) then files(hp.value) else None, now, freshId);
      && (o.Err? ==> r == Err(o.error))
      && (o.Ok? ==> (r == Err(Localized("chat.err.missing_model", "")) <==> o.value.0.model == ""))
      && (r.Ok? ==> o.Ok? && r.value.0 == o.value.0 && r.value.2 == o.value.1)
    ensures a.noHistory ==>
      (r == Err(Localized("chat.err.missing_model", "")) <==> ResolveModel(a.model, env.model) == "")
  {
    var s := Resolved(a, env, promptFileText);
    var historyPath := HistoryPath(a.noHistory, a.historyFile, defaultPath);
    var existing := if Given(historyPath) then files(historyPath.value) else None;
    match OpenRecord(s, historyPath, existing, now, freshId)
    case Err(e) => Err(e)
    case Ok((s', record)) =>
      if s'.model == "" then Err(Localized("chat.err.missing_model", ""))
      else Ok((s', historyPath, record))
  }

  /** `handle_chat` up to the first prompt. `files` says which paths exist and what they hold,
      `promptFileText` is the system prompt file's content, `defaultPath` and `freshId` stand
      for the generated session path and id, and `modules` for what importing a spec yields. */
  function Prepare(args: ChatArgs, env: Env, home: string, botFile: Option<StoredFile>, tty: bool, picked: ResumeOutcome,
                   promptFileText: string, defaultPath: string, freshId: string, files: string -> Option<StoredFile>,
                   now: string, modules: string -> ModuleLoad): (r: Result<Prepared, Abort>)
    ensures ResolveApiKey(env.apiKey, args.apiKey) == "" ==> r == Err(Localized("chat.err.missing_api_key", ""))
    ensures r.Ok? ==> r.value.apiKey != "" && r.value.apiKey == ResolveApiKey(env.apiKey, args.apiKey)
    ensures ResolveApiKey(env.apiKey, args.apiKey) != "" && Arguments(args, env, home, botFile, tty, picked).Err? ==>
      r == Err(Arguments(args, env, home, botFile, tty, picked).error)
    ensures r.Ok? ==> I18n.Supported(r.value.lang)
    ensures r.Ok? ==> r.value.settings.model != "" && r.value.settings.baseUrl != ""
    ensures r.Ok? ==> (r.value.historyPath.None? <==> args.noHistory)
    ensures r.Ok? && r.value.historyPath.None? ==> r.value.record.messages == []
    ensures r.Ok? ==>
      var ar := Arguments(args, env, home, botFile, tty, picked);
      && ar.Ok? && r.value.lang == ar.value.1
      && var se := Session(ar.value.0, env, promptFileText, defaultPath, freshId, files, now);
      && se.Ok? && r.value.settings == se.value.0 && r.value.historyPath == se.value.1 && r.value.record == se.value.2
      && var ce := ChatExtensions(Extensions.ParseExtensionSpecs(ar.value.0.ext, env.extensions), modules);
      && ce.Ok? && r.value.exts == ce.value
  {
    var apiKey := ResolveApiKey(env.apiKey, args.apiKey);
    if apiKey == "" then Err(Localized("chat.err.missing_api_key", ""))
    else
      match Arguments(args, env, home, botFile, tty, picked)
      case Err(e) => Err(e)
      case Ok((a, lang)) =>
        match Session(a, env, promptFileText, defaultPath, freshId, files, now)
        case Err(e) => Err(e)
        case Ok((s, historyPath, record)) =>
          match ChatExtensions(Extensions.ParseExtensionSpecs(a.ext, env.extensions), modules)
          case Err(e) => Err(e)
          case Ok(exts) => Ok(Prepared(lang, apiKey, s, historyPath, record, exts))
  }

  // ---------------------------------------------------------------- the loop

  /** What one input line of the interactive loop asks for. */
  datatype Command = Skip | Exit | Help | Clear | Unknown(cmd: string) | Say(text: string)

  /** The command a stripped line is: empty is skipped; starting with '/' is a command;
      anything else is said to the assistant. */
  function CommandOf(text: string): (c: Command)
    ensures c.Skip? <==> text == ""
    ensures c.Say? <==> text != "" && text[0] != '/'
    ensures c.Say? ==> c.text == text
    ensures c.Exit? <==> text == "/exit"
    ensures c.Clear? <==> text == "/clear"
    ensures c.Help? <==> text == "/help"
    ensures c.Unknown? ==> c.cmd == text && text[0] == '/' && text != "/exit" && text != "/help" && text != "/clear"
  {
    if text == "" then Skip
    else if text[0] != '/' then Say(text)
    else if text == "/exit" then Exit
    else if text == "/help" then Help
    else if text == "/clear" then Clear
    else Unknown(text)
  }

  /** The loop's reading of one line: `prompt_text` strips it, then it is a command or said. */
  function Classify(line: string): (c: Command)
    ensures c.Say? ==> c.text != "" && c.text[0] != '/'
    ensures c.Unknown? ==> c.cmd != "" && c.cmd[0] == '/'
  {
    CommandOf(PromptText(line))
  }

  /** A blank line is skipped, and a line is said exactly when its stripped text does not
      start with '/', the stripped text being what is said. */
  lemma ClassifyMeaning(line: string)
    ensures Classify(line).Skip? <==> IsBlank(line)
    ensures Classify(line).Say? <==> !IsBlank(line) && PromptText(line)[0] != '/'
    ensures Classify(line).Say? ==> Classify(line).text == PromptText(line)
  {
  }

  /** The chat service, as the replies it gives to a request's messages: the streamed
      events, the buffered reply's content, and the JSON dump of that reply. */
  datatype Server = Server(
    stream: seq<Message> -> seq<StreamStep>,
    buffered: seq<Message> -> Option<Content>,
    dumped: seq<Message> -> string)

  /** What every turn of one chat runs with. */
  datatype TurnConfig = TurnConfig(
    exts: seq<Extension>,
    settings: Settings,
    historyPath: Option<string>,
    noStream: bool,
    tty: bool,
    prefix: string,
    server: Server)

  /** `if history_path:` */
  predicate Persists(cfg: TurnConfig)
  {
    Given(cfg.historyPath)
  }

  /** The context hooks see, over the history as it is at that moment. */
  function CtxOf(cfg: TurnConfig, history: seq<Message>): ChatContext
  {
    ChatContext(cfg.settings.baseUrl, cfg.settings.model, cfg.settings.systemPrompt, cfg.historyPath, history)
  }

  /** The history with the user's message, after the user-input hooks. */
  function WithUser(cfg: TurnConfig, history: seq<Message>, text: string): (r: seq<Message>)
    ensures |r| == |history| + 1 && r[..|history|] == history
    ensures r[|history|] == Message(User, Chain(UserInputHooks(cfg.exts), text, CtxOf(cfg, history)))
  {
    history + [Message(User, Chain(UserInputHooks(cfg.exts), text, CtxOf(cfg, history)))]
  }

  /** The messages sent: the system prompt and the history, through the before-request hooks. */
  function Request(cfg: TurnConfig, history: seq<Message>): (r: seq<Message>)
    ensures cfg.exts == [] ==> r == BuildMessages(cfg.settings.systemPrompt, history)
  {
    Chain(BeforeRequestHooks(cfg.exts), BuildMessages(cfg.settings.systemPrompt, history), CtxOf(cfg, history))
  }

  /** The reply text, buffered or streamed. */
  function Reply(cfg: TurnConfig, history: seq<Message>): (r: string)
    ensures cfg.exts == [] && !cfg.noStream ==> r == Concat(Deltas(cfg.server.stream(BuildMessages(cfg.settings.systemPrompt, history))))
    ensures cfg.exts == [] && cfg.noStream ==>
      var messages := BuildMessages(cfg.settings.systemPrompt, history);
      r == (if cfg.server.buffered(messages).Some? then ContentText(cfg.server.buffered(messages).value, cfg.server.dumped(messages)) else "")
  {
    TransformedNoHooks(CtxOf(cfg, history), Deltas(cfg.server.stream(BuildMessages(cfg.settings.systemPrompt, history))));
    var messages := Request(cfg, history);
    var ctx := CtxOf(cfg, history);
    if cfg.noStream then
      var content := cfg.server.buffered(messages);
      Chain(AfterResponseHooks(cfg.exts), if content.Some? then ContentText(content.value, cfg.server.dumped(messages)) else "", ctx)
    else Chain(AfterResponseHooks(cfg.exts), Concat(Transformed(cfg.exts, ctx, Deltas(cfg.server.stream(messages)))), ctx)
  }

  /** Without hooks, every delta is shown as it came. */
  lemma TransformedNoHooks(ctx: ChatContext, ds: seq<string>)
    ensures Transformed([], ctx, ds) == ds
  {
    assert StreamDeltaHooks([]) == [];
  }

  /** What a turn writes to the terminal, with the spinner stopped as the source does. */
  function ReplyWrites(cfg: TurnConfig, history: seq<Message>): (r: seq<Write>)
    ensures |r| >= 1 && r[|r| - 1] == Write(Newline, "\n")
    ensures CountKind(r, Label) + CountKind(r, Erase) <= 1
    ensures cfg.prefix == "" ==> CountKind(r, Label) + CountKind(r, Erase) == 0
  {
    var messages := Request(cfg, history);
    if cfg.noStream then
      var ws := (if cfg.prefix != "" then [Write(Label, cfg.prefix)] else []) + [Write(Piece, Reply(cfg, history)), Write(Newline, "\n")];
      BufferedLabelCount(cfg.prefix, Reply(cfg, history));
      ws
    else
      var steps := cfg.server.stream(messages);
      var started := Started(cfg.prefix, cfg.tty);
      var pieces := Transformed(cfg.exts, CtxOf(cfg, history), Deltas(steps));
      StreamLabelOnce(cfg.prefix, Ticks(steps, started), started, pieces);
      StreamOutput(cfg.prefix, Ticks(steps, started), started, pieces)
  }

  /** A buffered turn writes the label once when there is one. */
  lemma BufferedLabelCount(prefix: string, text: string)
    ensures var ws := (if prefix != "" then [Write(Label, prefix)] else []) + [Write(Piece, text), Write(Newline, "\n")];
      CountKind(ws, Label) + CountKind(ws, Erase) == (if prefix != "" then 1 else 0)
  {
    var l := if prefix != "" then [Write(Label, prefix)] else [];
    var t := [Write(Piece, text), Write(Newline, "\n")];
    CountKindAppend(l, t, Label);
    CountKindAppend(l, t, Erase);
    assert t[..1] == [Write(Piece, text)];
    if l != [] {
      assert l[..0] == [];
    }
  }

  /** The history after saying `text`: one user message, then one assistant message. */
  function AfterSay(cfg: TurnConfig, history: seq<Message>, text: string): (r: seq<Message>)
    ensures |r| == |history| + 2 && r[..|history|] == history
    ensures r[|history|] == Message(User, Chain(UserInputHooks(cfg.exts), text, CtxOf(cfg, history)))
    ensures r[|history| + 1] == Message(Assistant, Reply(cfg, WithUser(cfg, history, text)))
  {
    var h := WithUser(cfg, history, text);
    h + [Message(Assistant, Reply(cfg, h))]
  }

  /** The state the loop changes: the history, the session meta, the payloads written to the
      history file, and the writes to the terminal. */
  datatype ReplState = ReplState(history: seq<Message>, meta: SessionMeta, saves: seq<Json>, writes: seq<Write>)

  /** One turn: the history grows by the exchange; with a history path the update time is set
      and the record saved. */
  function SayStep(cfg: TurnConfig, st: ReplState, text: string, stamp: string): (r: ReplState)
    ensures r.history == AfterSay(cfg, st.history, text)
    ensures r.writes == st.writes + ReplyWrites(cfg, WithUser(cfg, st.history, text))
    ensures Persists(cfg) ==> r.meta == st.meta.(updatedAt := stamp) && r.saves == st.saves + [SavePayload(SessionRecord(r.meta, r.history))]
    ensures !Persists(cfg) ==> r.meta == st.meta && r.saves == st.saves
  {
    var h := AfterSay(cfg, st.history, text);
    var w := st.writes + ReplyWrites(cfg, WithUser(cfg, st.history, text));
    if Persists(cfg) then
      var m := st.meta.(updatedAt := stamp);
      ReplState(h, m, st.saves + [SavePayload(SessionRecord(m, h))], w)
    else ReplState(h, st.meta, st.saves, w)
  }

  /** What one command does to the state, or `None` when it ends the loop: `/clear` empties
      the history, a said line takes a turn stamped `stamp`, and every other command changes
      nothing. */
  function Next(cfg: TurnConfig, st: ReplState, cmd: Command, stamp: string): (r: Option<ReplState>)
    ensures r.None? <==> cmd.Exit?
    ensures Inert(cmd) ==> r == Some(st)
    ensures cmd.Clear? ==> r == Some(ReplState([], st.meta, st.saves, st.writes))
    ensures r.Some? ==> |r.value.saves| >= |st.saves| && r.value.saves[..|st.saves|] == st.saves
    ensures r.Some? ==> |r.value.writes| >= |st.writes| && r.value.writes[..|st.writes|] == st.writes
    ensures cmd.Say? ==> |r.value.history| == |st.history| + 2 && r.value.history[..|st.history|] == st.history
  {
    match cmd
    case Exit => None
    case Clear => Some(st.(history := []))
    case Say(text) => Some(SayStep(cfg, st, text, stamp))
    case _ => Some(st)
  }

  lemma BlankLinesSkipped(lines: seq<string>)
    ensures forall k :: 0 <= k < |lines| ==> (Classify(lines[k]).Skip? <==> IsBlank(lines[k]))
  {
    forall k | 0 <= k < |lines| ensures Classify(lines[k]).Skip? <==> IsBlank(lines[k]) {
      ClassifyMeaning(lines[k]);
    }
  }

  /** The commands the input lines are. */
  function Commands(lines: seq<string>): (r: seq<Command>)
    ensures |r| == |lines|
    ensures forall k :: 0 <= k < |lines| ==> (r[k].Skip? <==> IsBlank(lines[k]))
  {
    BlankLinesSkipped(lines);
    seq(|lines|, k requires 0 <= k < |lines| => Classify(lines[k]))
  }

  /** The loop over the commands, from command `i` of the session on, stamping the turn of
      command `i` with `clock(i)`; it ends at `/exit` or at the end of input. */
  function Replay(cfg: TurnConfig, st: ReplState, cmds: seq<Command>, clock: nat -> string, i: nat): (r: ReplState)
    ensures |r.saves| >= |st.saves| && r.saves[..|st.saves|] == st.saves
    ensures |r.writes| >= |st.writes| && r.writes[..|st.writes|] == st.writes
    decreases |cmds|
  {
    if cmds == [] then st
    else
      match Next(cfg, st, cmds[0], clock(i))
      case None => st
      case Some(st') => Replay(cfg, st', cmds[1..], clock, i + 1)
  }

  /** A live chat session: the conversation so far, the session meta, and what was saved. */
  class ChatSession {
    var history: seq<Message>
    var meta: SessionMeta
    var saves: seq<Json>

    constructor(record: SessionRecord)
      ensures history == record.messages && meta == record.meta && saves == []
    {
      history := record.messages;
      meta := record.meta;
      saves := [];
    }

    /** One exchange: user hooks, append, build and hook the request, get the reply, append, save. */
    method Turn(cfg: TurnConfig, text: string, stamp: string, out: Console)
      modifies this, out
      ensures ReplState(history, meta, saves, out.writes) == SayStep(cfg, old(ReplState(history, meta, saves, out.writes)), text, stamp)
    {
      ghost var st := ReplState(history, meta, saves, out.writes);
      ghost var h := WithUser(cfg, history, text);
      var userText := RunUserInputExtensions(cfg.exts, text, CtxOf(cfg, history));
      history := history + [Message(User, userText)];
      assert history == h;
      var reply := Respond(cfg, history, out);
      history := history + [Message(Assistant, reply)];
      assert history == AfterSay(cfg, st.history, text);
      if Persists(cfg) {
        meta := meta.(updatedAt := stamp);
        saves := saves + [SavePayload(SessionRecord(meta, history))];
      }
    }

    /** The request half of a turn: build and hook the messages, then get the reply, streamed
        or buffered, through the after-response hooks. */
    method Respond(cfg: TurnConfig, h: seq<Message>, out: Console) returns (reply: string)
      modifies out
      ensures reply == Reply(cfg, h) && out.writes == old(out.writes) + ReplyWrites(cfg, h)
    {
      var ctx := CtxOf(cfg, h);
      var messages := BuildMessages(cfg.settings.systemPrompt, h);
      messages := RunBeforeRequestExtensions(cfg.exts, messages, ctx);
      assert messages == Request(cfg, h);
      if cfg.noStream {
        reply := NonStreamChat(cfg.server.buffered(messages), cfg.server.dumped(messages), cfg.exts, ctx, cfg.prefix, out);
      } else {
        reply := StreamChat(cfg.server.stream(messages), cfg.exts, ctx, cfg.prefix, cfg.tty, false, out);
      }
    }

    /** One pass of the loop body; `more` is false after `/exit`. */
    method Step(cfg: TurnConfig, line: string, stamp: string, out: Console) returns (more: bool)
      modifies this, out
      ensures more <==> Next(cfg, old(ReplState(history, meta, saves, out.writes)), Classify(line), stamp).Some?
      ensures more ==> ReplState(history, meta, saves, out.writes) == Next(cfg, old(ReplState(history, meta, saves, out.writes)), Classify(line), stamp).value
      ensures !more ==> ReplState(history, meta, saves, out.writes) == old(ReplState(history, meta, saves, out.writes))
    {
      var command := Classify(line);
      match command {
        case Exit => return false;
        case Clear => history := [];
        case Say(text) => Turn(cfg, text, stamp, out);
        case _ =>
      }
      return true;
    }

    /** The interactive `while True` loop over the input lines. */
    method Run(cfg: TurnConfig, lines: seq<string>, clock: nat -> string, out: Console)
      modifies this, out
      ensures ReplState(history, meta, saves, out.writes) == Replay(cfg, old(ReplState(history, meta, saves, out.writes)), Commands(lines), clock, 0)
    {
      ghost var st0 := ReplState(history, meta, saves, out.writes);
      ghost var cmds := Commands(lines);
      assert |cmds| == |lines| && cmds[0..] == cmds;
      var i := 0;
      while i < |lines|
        invariant 0 <= i <= |lines|
        invariant Replay(cfg, ReplState(history, meta, saves, out.writes), cmds[i..], clock, i) == Replay(cfg, st0, cmds, clock, 0)
      {
        ghost var cur := ReplState(history, meta, saves, out.writes);
        assert cmds[i] == Classify(lines[i]);
        assert cmds[i..][0] == cmds[i] && cmds[i..][1..] == cmds[i + 1..];
        var more := Step(cfg, lines[i], clock(i), out);
        if !more {
          return;
        }
        assert Replay(cfg, cur, cmds[i..], clock, i) == Replay(cfg, ReplState(history, meta, saves, out.writes), cmds[i + 1..], clock, i + 1);
        i := i + 1;
      }
      assert cmds[i..] == [];
    }

    /** Piped input: one turn with the whole input stripped, no label, and no command handling;
        blank input does nothing. */
    method Piped(cfg: TurnConfig, input: string, stamp: string, out: Console)
      modifies this, out
      ensures IsBlank(input) ==> ReplState(history, meta, saves, out.writes) == old(ReplState(history, meta, saves, out.writes))
      ensures !IsBlank(input) ==>
        ReplState(history, meta, saves, out.writes) == SayStep(cfg.(prefix := ""), old(ReplState(history, meta, saves, out.writes)), Strip(input), stamp)
    {
      var text := Strip(input);
      if text == "" {
        return;
      }
      Turn(cfg.(prefix := ""), text, stamp, out);
    }
  }

  // ---------------------------------------------------------------- properties of the loop

  /** How many turns the commands take: the said lines before the first `/exit`. */
  function TurnsTaken(cmds: seq<Command>): nat
    decreases |cmds|
  {
    if cmds == [] then 0
    else
      match cmds[0]
      case Exit => 0
      case Say(_) => 1 + TurnsTaken(cmds[1..])
      case _ => TurnsTaken(cmds[1..])
  }

  /** Skipped lines, `/help` and unknown commands, which leave the state alone. */
  predicate Inert(cmd: Command)
  {
    cmd.Skip? || cmd.Help? || cmd.Unknown?
  }

  /** Without a history path nothing is ever saved and the meta stays as loaded. */
  lemma {:induction false} NoHistoryNoSaves(cfg: TurnConfig, st: ReplState, cmds: seq<Command>, clock: nat -> string, i: nat)
    requires !Persists(cfg)
    ensures Replay(cfg, st, cmds, clock, i).saves == st.saves
    ensures Replay(cfg, st, cmds, clock, i).meta == st.meta
    decreases |cmds|
  {
    if cmds != [] {
      match Next(cfg, st, cmds[0], clock(i))
      case None =>
      case Some(st') => NoHistoryNoSaves(cfg, st', cmds[1..], clock, i + 1);
    }
  }

  /** With a history path every turn saves once, and nothing else saves. */
  lemma {:induction false} OneSavePerTurn(cfg: TurnConfig, st: ReplState, cmds: seq<Command>, clock: nat -> string, i: nat)
    requires Persists(cfg)
    ensures |Replay(cfg, st, cmds, clock, i).saves| == |st.saves| + TurnsTaken(cmds)
    ensures Replay(cfg, st, cmds, clock, i).saves[..|st.saves|] == st.saves
    decreases |cmds|
  {
    if cmds != [] {
      match Next(cfg, st, cmds[0], clock(i))
      case None =>
      case Some(st') =>
        OneSavePerTurn(cfg, st', cmds[1..], clock, i + 1);
        assert st'.saves[..|st.saves|] == st.saves;
    }
  }

  /** Without `/clear`, the history grows by exactly two messages per turn and keeps what it had. */
  lemma {:induction false} TwoMessagesPerTurn(cfg: TurnConfig, st: ReplState, cmds: seq<Command>, clock: nat -> string, i: nat)
    requires Clear !in cmds
    ensures |Replay(cfg, st, cmds, clock, i).history| == |st.history| + 2 * TurnsTaken(cmds)
    ensures Replay(cfg, st, cmds, clock, i).history[..|st.history|] == st.history
    decreases |cmds|
  {
    if cmds != [] {
      assert cmds[0] != Clear && Clear !in cmds[1..];
      match Next(cfg, st, cmds[0], clock(i))
      case None =>
      case Some(st') =>
        TwoMessagesPerTurn(cfg, st', cmds[1..], clock, i + 1);
        assert st'.history[..|st.history|] == st.history;
    }
  }

  /** Blank lines, `/help` and unknown commands leave the whole state as it was. */
  lemma {:induction false} CommandsChangeNothing(cfg: TurnConfig, st: ReplState, cmds: seq<Command>, clock: nat -> string, i: nat)
    requires forall k :: 0 <= k < |cmds| ==> Inert(cmds[k])
    ensures Replay(cfg, st, cmds, clock, i) == st
    decreases |cmds|
  {
    if cmds != [] {
      assert Inert(cmds[0]);
      assert forall k :: 0 <= k < |cmds[1..]| ==> cmds[1..][k] == cmds[k + 1];
      CommandsChangeNothing(cfg, st, cmds[1..], clock, i + 1);
    }
  }

  /** After each turn with a history path, the file holds the conversation so far. */
  lemma TurnSaveRestores(cfg: TurnConfig, st: ReplState, text: string, stamp: string, now: string)
    requires Persists(cfg)
    ensures var r := SayStep(cfg, st, text, stamp);
      var loaded := Load(cfg.historyPath.value, now, Stored(Decoded(r.saves[|r.saves| - 1])));
      loaded.Ok? && loaded.value.messages == r.history && |r.history| == |st.history| + 2
  {
    var r := SayStep(cfg, st, text, stamp);
    SaveLoadMessages(SessionRecord(r.meta, r.history), cfg.historyPath.value, now);
  }

  /** With no extensions, the user's text is stored as typed and the request is the built messages. */
  lemma PlainTurn(cfg: TurnConfig, history: seq<Message>, text: string)
    requires cfg.exts == []
    ensures AfterSay(cfg, history, text)[|history|] == Message(User, text)
    ensures Request(cfg, history) == BuildMessages(cfg.settings.systemPrompt, history)
  {
  }
}
