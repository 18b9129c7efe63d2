# r9s command-line chat and tool setup, modelled in Dafny

This project models the logic of the r9s command-line tools.

- **`r9s chat`**:
  - resolving its settings from arguments, environment and a saved bot;
  - opening or resuming a saved session;
  - the interactive read-eval loop;
  - one chat turn (streamed or buffered);
  - the chain of user extensions;
  - the session history files and the resume listing.
- **`r9s bot`**: validating, normalising, storing and listing bot configurations.
- **`r9s set` / `r9s reset`**: the tool registry, key masking, numbered prompts, parsing the model list, and backup selection. Both the current copy and the older top-level copy are modelled.
- **The Claude Code integration's settings merge.**
- **The terminal helpers**: styling, line prompts, and the raw-mode secret prompt's keystroke loop.
- **The streaming spinner.**
- **The example extension.**

Values the program computes are datatypes and functions. Python's dictionaries become `map`s, and decoded JSON is the `Json` datatype. Objects the source updates in place are classes:

- the extension registry;
- the tool registry;
- the spinner;
- the Claude Code integration;
- the chat session;
- the output console.

Each loop of the source is a method with a `while` loop. It is proved against a function that states what the loop computes, and the properties the program promises are lemmas about those functions.

Things the source gets from outside are inputs. This covers input lines and keystrokes, the environment, file contents, the server's replies, clock readings and generated ids.

Modules, one per file:

| module | covers |
|---|---|
| `Wrappers` | Option/Result |
| `Text` | the `str` operations the code uses |
| `Json` | decoded JSON, `bool()`, `d.get(k) or default`, and `str()` as the code applies it to stored values |
| `Paths` | `name`/`stem`/joining |
| `Console` | the log of terminal writes |
| `Terminal` | `r9s/terminal.py` |
| `SessionStore` | history files, listing, resume selection |
| `Extensions` | `chat_extensions.py` |
| `ChatTurn` | `_build_messages`, `_stream_chat`, `_non_stream_chat`, `_content_to_text` |
| `ChatRepl` | settings resolution and `handle_chat` |
| `Spinner` | `ui/spinner.py` |
| `I18n` | `i18n.py` |
| `Bots` | `bots.py` |
| `BotCli` | `bot_cli.py` |
| `ClaudeCode` | `tools/claude_code.py` |
| `ToolCli` | `cli_tools/cli.py` |
| `LegacyCli` | `r9s/cli.py` |
| `ExampleExtension` | `example/chat_extension.py` |

The older `r9s/cli.py` repeats these helpers of `src/r9s/cli_tools/cli.py` with the same logic, and the `ToolCli` members model both copies:

| helper | lines in `r9s/cli.py` |
|---|---|
| `ToolRegistry` | 29-51 |
| `masked_key` | 54-57 |
| `prompt_choice` | 60-71 |
| `prompt_yes_no` | 74-79 |
| payload parsing | 102-113 |
| `choose_model` | 116-126 |
| `resolve_base_url` | 129-135 |
| `resolve_api_key` | 138-147 |
| backup selection | 189-210 |

The environment variable names, inputs here, differ only in case. `LegacyCli` holds what differs: the model-list path.

Where the code and its help text or documentation disagree, the model follows the code:

- **API key precedence.** The chat command's API key comes from `R9S_API_KEY` before `--api-key` (`src/r9s/cli_tools/chat_cli.py:47-52`), although the option's help says it overrides the variable.
- **Spaced language tags.** `resolve_lang` removes spaces, so "zh cn" becomes "zhcn". That is no alias, and the result is "en", not "zh-CN".
- **Dead alias keys.** The keys "en_us" and "zh_cn" of `_ALIASES` can never match, because '_' is turned into '-' first.
- **Bot listing order.** `list_bots` sorts file names, so stems come out in file-name order. For example, "a-b.json" sorts before "a.json".
- **`masked_key` with `visible = 0`.** `key[-0:]` is the whole key.
- **Whitespace-only `R9S_SYSTEM_PROMPT`.** It gives the system prompt `""`, which then sends no system message.
- **Blank `--model`.** A `--model` that is only spaces shadows `R9S_MODEL` and leaves the model empty.
- **End of input in `prompt_secret`.** At end of input in raw mode, `prompt_secret` reads "" forever and never returns. The model reports that outcome as `Unterminated` rather than looping.

## Model

| member | source | states |
|---|---|---|
| SessionStore.RoleOf | src/r9s/cli_tools/chat_cli.py:101 | a role is recognised exactly for the four names system/user/assistant/tool, and maps back to its name |
| SessionStore.RoleOfName | src/r9s/cli_tools/chat_cli.py:101 | every role's name is recognised as that role |
| SessionStore.MessageOf | src/r9s/cli_tools/chat_cli.py:96-103 | an entry is kept exactly when it is an object with a string role among the four and string content; the kept message carries that role and content |
| SessionStore.Coerced | src/r9s/cli_tools/chat_cli.py:95-104 | the kept messages are never more than the entries |
| SessionStore.CoercedAllKept | src/r9s/cli_tools/chat_cli.py:96-103 | when every entry is well formed, none is dropped |
| SessionStore.CoerceMessages | src/r9s/cli_tools/chat_cli.py:92-104 | a non-array is the TypeError; an array gives, in order, the kept entries reduced to role and content |
| SessionStore.CoercedAppend | src/r9s/cli_tools/chat_cli.py:96-104 | filtering distributes over concatenation, so the original order is kept |
| SessionStore.CoercedFromItems | src/r9s/cli_tools/chat_cli.py:96-104 | every kept message comes from some entry of the input |
| SessionStore.CoercedEncoded | src/r9s/cli_tools/chat_cli.py:148-158 | the saved form of any message list filters back to the same list |
| SessionStore.SavePayload | src/r9s/cli_tools/chat_cli.py:146-159 | the payload is an object with exactly `meta` and `messages`, and its messages filter back to the record's |
| SessionStore.Load | src/r9s/cli_tools/chat_cli.py:107-143 | a read failure, a decode error (ValueError with the decoder's message) and a wrong shape (TypeError) are the errors; an array gives the file stem as id, now as both times, empty URL and model and no prompt; an object's messages default to []; its meta is read from the `meta` object, or from {} when that is missing or not an object |
| SessionStore.MetaOf | src/r9s/cli_tools/chat_cli.py:134-141 | a loaded meta has an id when the stem is non-empty, timestamps when the clock reading is non-empty, and never an empty system prompt |
| SessionStore.MetaOfFields | src/r9s/cli_tools/chat_cli.py:134-141 | each field is `str()` of its stored value when that is truthy, else its default: the stem for the id, now for both times, "" for URL and model, None for the prompt |
| SessionStore.MetaOfEmpty | src/r9s/cli_tools/chat_cli.py:132-141 | an empty meta block gives the stem, now twice, empty URL and model and no prompt |
| SessionStore.MetaStringKept | src/r9s/cli_tools/chat_cli.py:135-139 | a non-empty stored string is kept as it is; a missing or falsy value of any type gives the default |
| SessionStore.LoadWithoutMeta | src/r9s/cli_tools/chat_cli.py:130-142 | an object file without a `meta` object, whose messages are absent or an array, loads with the default meta |
| SessionStore.EncodeMeta | src/r9s/cli_tools/chat_cli.py:148-157 | the saved meta is an object with exactly the six field keys, and `system_prompt` is null exactly when there is no prompt |
| SessionStore.MetaOfEncoded | src/r9s/cli_tools/chat_cli.py:130-141 | reading back saved meta keeps each field, with empty id/times replaced by stem/now and an empty system prompt by None |
| SessionStore.StrDefault | src/r9s/cli_tools/chat_cli.py:135-139 | `str(meta.get(k) or d)` on a stored string is the string when non-empty, else the default |
| SessionStore.SaveLoadMessages | src/r9s/cli_tools/chat_cli.py:146-159 | loading a saved record succeeds and returns exactly the saved messages |
| SessionStore.SaveLoadRoundTrip | src/r9s/cli_tools/chat_cli.py:130-159 | loading a saved record returns the record itself if and only if its id and timestamps are non-empty and its system prompt is not "" |
| SessionStore.InsertByMtime | src/r9s/cli_tools/chat_cli.py:494 | inserting a file keeps the multiset of files plus the new one and keeps newest-first order |
| SessionStore.InsertKeepsHead | src/r9s/cli_tools/chat_cli.py:494 | an insertion behind a newer head keeps newest-first order |
| SessionStore.NewestFirst | src/r9s/cli_tools/chat_cli.py:494 | the listing order is a permutation of the files sorted by modification time, newest first |
| SessionStore.LastUserContent | src/r9s/cli_tools/chat_cli.py:503-507 | none exactly when no message is from the user; otherwise the content of a user message with no user message after it |
| SessionStore.Preview | src/r9s/cli_tools/chat_cli.py:502-509 | the preview has no newline, is at most 61 characters, is empty without a user message, and is the newline-replaced content when that fits in 60, else its first 60 characters followed by '…' |
| SessionStore.FindLastUser | src/r9s/cli_tools/chat_cli.py:503-507 | the reversed search loop returns the last user message's content |
| SessionStore.PreviewOf | src/r9s/cli_tools/chat_cli.py:502-509 | the loop and cut compute the preview |
| SessionStore.Summary | src/r9s/cli_tools/chat_cli.py:499-513 | a listed entry keeps the path and update time and its display starts with the file name and bracketed update time |
| SessionStore.SummaryOf | src/r9s/cli_tools/chat_cli.py:499-513 | the per-file formatting computes the listed entry |
| SessionStore.ListSessions | src/r9s/cli_tools/chat_cli.py:492-514 | the listing is the summaries of the loadable files taken newest first |
| SessionStore.SummariesOfLoadable | src/r9s/cli_tools/chat_cli.py:495-498 | the listing has one entry per loadable file, in order, each the summary of that file's record |
| SessionStore.LoadableFilesKept | src/r9s/cli_tools/chat_cli.py:495-498 | a file is listed exactly when it loads; skipping keeps the order |
| SessionStore.ListingNewestFirst | src/r9s/cli_tools/chat_cli.py:492-514 | the listing shows every loadable file and nothing else, newest first |
| SessionStore.SelectSession | src/r9s/cli_tools/chat_cli.py:474-482 | answers are read until one is a digit string n with 1 <= n <= count; that session's path is chosen and every earlier answer was rejected; input ends exactly when all answers were rejected |
| SessionStore.ResumeSelect | src/r9s/cli_tools/chat_cli.py:464-482 | nothing is offered exactly when the directory is missing or no file loads; otherwise, over the newest-first listing, the chosen path is `sessions[n-1]` for the last answer read, every earlier answer was rejected, and input ends exactly when every answer was rejected |
| SessionStore.SelectedIsListed | src/r9s/cli_tools/chat_cli.py:478-481 | a chosen path is the path of one of the listed sessions |
| ChatTurn.BuildMessages | src/r9s/cli_tools/chat_cli.py:162-170 | a non-empty prompt puts one system message at index 0 before the unchanged history; otherwise the history alone |
| ChatTurn.Deltas | src/r9s/cli_tools/chat_cli.py:203-207 | events without choices or with empty content contribute nothing; the kept pieces are non-empty |
| ChatTurn.Transformed | src/r9s/cli_tools/chat_cli.py:209 | one transformed piece per delta |
| ChatTurn.StreamOutput | src/r9s/cli_tools/chat_cli.py:203-217 | a streamed turn's writes begin with the frames, continue after the label part with the pieces in order, and end with one newline |
| ChatTurn.Stop | src/r9s/cli_tools/ui/spinner.py:30-46 | the stop a turn uses: as written the label is marked printed whenever a running spinner stops; corrected only when the erase rewrote it; both erase a drawn frame |
| ChatTurn.StreamChat | src/r9s/cli_tools/chat_cli.py:188-219 | the result is the after-response chain over the concatenation of the delta-transformed pieces; the terminal receives the spinner frames drawn before the first text, the label (rewritten by the erase, printed on its own, or, with the stop as written and no frame drawn, lost), the pieces in order and a newline; with the corrected stop the label is never lost |
| ChatTurn.EventLoop | src/r9s/cli_tools/chat_cli.py:203-213 | the event loop collects the transformed pieces; before the first text only frames are written, after it the frames, the label part (lost under the stop as written when started and no frame was drawn) and the pieces so far |
| ChatTurn.HandleStep | src/r9s/cli_tools/chat_cli.py:204-213 | one event extends the collected pieces and, on the first piece, moves the output from waiting to replying with the label part the chosen stop leaves |
| ChatTurn.StopAndLabel | src/r9s/cli_tools/chat_cli.py:208-212 | stopping the spinner and printing the label leaves the frames and the label part on screen: the label once, except under the stop as written when a started spinner drew no frame |
| ChatTurn.Finish | src/r9s/cli_tools/chat_cli.py:214-217 | after the events the output is the frames, the label part, the pieces and one newline |
| ChatTurn.StreamLabelOnce | src/r9s/cli_tools/chat_cli.py:208-216 | the label is written at most once: never without a prefix or when it was lost with no frame drawn, exactly once otherwise |
| ChatTurn.TurnLabelLost | src/r9s/cli_tools/chat_cli.py:197-216 | a started turn whose first text comes before the first frame shows no label as written, and exactly one with the corrected stop |
| ChatTurn.FirstTextBeforeFrame | src/r9s/cli_tools/chat_cli.py:197-217 | the turn where "Hi" arrives first on a terminal writes only "Hi" and the newline as written, and "Assistant> ", "Hi" and the newline with the corrected stop |
| ChatTurn.StreamKindCount | src/r9s/cli_tools/chat_cli.py:208-216 | label and erase writes come only from the spinner and label part of the output |
| ChatTurn.LabelWritesCount | src/r9s/cli_tools/chat_cli.py:208-216 | the spinner-and-label writes hold one label-bearing write exactly when there is a prefix and the label was not lost before any frame |
| ChatTurn.StreamOutputOrder | src/r9s/cli_tools/chat_cli.py:203-217 | all frames come before the label; the pieces appear in order; no frame after the reply starts; the output ends with the newline |
| ChatTurn.ContentToText | src/r9s/cli_tools/chat_cli.py:242-263 | the loop over parts computes the text of the buffered content |
| ChatTurn.TextPiecesOfTexts | src/r9s/cli_tools/chat_cli.py:247-257 | a list of text parts yields its texts in order |
| ChatTurn.TextPiecesAppend | src/r9s/cli_tools/chat_cli.py:247-257 | gathering text parts distributes over concatenation |
| ChatTurn.ContentOfTextParts | src/r9s/cli_tools/chat_cli.py:247-259 | non-empty text parts become their concatenation |
| ChatTurn.NonStreamChat | src/r9s/cli_tools/chat_cli.py:222-239 | the result is the after-response chain over the reply's text ("" without a message), printed after the prefix and followed by a newline |
| Extensions.MaybeCall | src/r9s/cli_tools/chat_extensions.py:96-100 | a missing or uncallable hook gives None, which is never of the expected type |
| Extensions.Step | src/r9s/cli_tools/chat_extensions.py:106-108 | a result of the wrong type keeps the previous value; one of the right type replaces it |
| Extensions.Chain | src/r9s/cli_tools/chat_extensions.py:103-109 | no hooks return the input; a single hook gives its one step |
| Extensions.RunHooks | src/r9s/cli_tools/chat_extensions.py:103-109 | the loop computes the left fold of the hooks in list order; no hooks is the identity |
| Extensions.RunUserInputExtensions | src/r9s/cli_tools/chat_extensions.py:103-109 | the user-input chain is the fold over each extension's `on_user_input` |
| Extensions.RunBeforeRequestExtensions | src/r9s/cli_tools/chat_extensions.py:112-122 | the request chain is the fold over each extension's `before_request` |
| Extensions.RunStreamDeltaExtensions | src/r9s/cli_tools/chat_extensions.py:125-131 | the delta chain is the fold over each extension's `on_stream_delta` |
| Extensions.RunAfterResponseExtensions | src/r9s/cli_tools/chat_extensions.py:134-142 | the response chain is the fold over each extension's `after_response` |
| Extensions.ChainAppend | src/r9s/cli_tools/chat_extensions.py:104-109 | running a + b is running b on the result of a |
| Extensions.DropIneffective | src/r9s/cli_tools/chat_extensions.py:105-108 | a step that leaves its input unchanged can be removed from the chain |
| Extensions.DropUncallable | src/r9s/cli_tools/chat_extensions.py:96-100 | an extension without a callable hook can be removed from the chain |
| Extensions.DropWrongType | src/r9s/cli_tools/chat_extensions.py:107-108 | a hook answering with the wrong type can be removed from the chain |
| Extensions.ChainOfUncallable | src/r9s/cli_tools/chat_extensions.py:96-109 | a chain without callable hooks returns its input |
| Extensions.ChainLastWins | src/r9s/cli_tools/chat_extensions.py:104-109 | a final hook with a constant answer decides the result |
| Extensions.ChatExtensionRegistry.constructor | src/r9s/cli_tools/chat_extensions.py:30-31 | a new registry is empty |
| Extensions.ChatExtensionRegistry.Add | src/r9s/cli_tools/chat_extensions.py:33-36 | an object without `name` is rejected with the TypeError message and nothing is added; otherwise exactly it is appended |
| Extensions.ChatExtensionRegistry.List | src/r9s/cli_tools/chat_extensions.py:38-39 | the list is the registered extensions in insertion order |
| Extensions.Contributed | src/r9s/cli_tools/chat_extensions.py:60-79 | `register` wins over `get_extension`, which wins over `EXTENSION` and `extension`; none of the four is the missing case |
| Extensions.NamedPrefixFacts | src/r9s/cli_tools/chat_extensions.py:33-36 | adding stops at the first unnamed object: what is added is the named prefix, and it is everything exactly when all are named |
| Extensions.Contribution | src/r9s/cli_tools/chat_extensions.py:60-79 | a module without the exports is the contract error, one exporting an unnamed object is the name error, and otherwise its objects, all named, are what it adds |
| Extensions.RegisterFromModule | src/r9s/cli_tools/chat_extensions.py:60-79 | a module without the four exports is the ImportError with the contract message and adds nothing; otherwise its objects are added up to the first unnamed one, which is the TypeError |
| Extensions.AddAll | src/r9s/cli_tools/chat_extensions.py:33-36 | adding a list appends its named prefix and succeeds exactly when all are named |
| Extensions.NamedPrefixSplit | src/r9s/cli_tools/chat_extensions.py:33-36 | after a named part, the named prefix continues with the rest |
| Extensions.Loaded | src/r9s/cli_tools/chat_extensions.py:88-93 | no specs load nothing; loaded extensions are all named; an import failure names one of the specs |
| Extensions.LoadExtensions | src/r9s/cli_tools/chat_extensions.py:88-93 | the loop computes the extensions of all specs, grouped by spec in spec order, stopping at the first failure |
| Extensions.LoadedFailurePersists | src/r9s/cli_tools/chat_extensions.py:90-92 | once a spec fails, later specs do not change the outcome |
| Extensions.LoadedAppend | src/r9s/cli_tools/chat_extensions.py:88-93 | loading a + b gives a's extensions then b's |
| Extensions.LoadedOkStep | src/r9s/cli_tools/chat_extensions.py:90-92 | a successful load ends with the last spec's contribution |
| Extensions.EnvSpecs | src/r9s/cli_tools/chat_extensions.py:83-84 | environment specs are non-empty and hold no comma |
| Extensions.TrimmedNonBlank | src/r9s/cli_tools/chat_extensions.py:84 | trimmed parts that are kept are non-empty |
| Extensions.NonEmpty | src/r9s/cli_tools/chat_extensions.py:85 | empty CLI specs are dropped and non-empty lists are unchanged |
| Extensions.ParseExtensionSpecs | src/r9s/cli_tools/chat_extensions.py:82-85 | environment specs come first, then the non-empty CLI specs; none is empty |
| Extensions.NonEmptyAppend | src/r9s/cli_tools/chat_extensions.py:85 | dropping empties keeps relative order |
| Extensions.EnvSpecsRoundTrip | src/r9s/cli_tools/chat_extensions.py:83-84 | clean specs joined by commas are parsed back to the same list |
| Extensions.TrimmedNonBlankOfClean | src/r9s/cli_tools/chat_extensions.py:84 | already clean parts are kept unchanged |
| ChatRepl.ResolveApiKey | src/r9s/cli_tools/chat_cli.py:47-52 | the environment value wins over the argument; empty exactly when both are missing or empty |
| ChatRepl.ResolveBaseUrl | src/r9s/cli_tools/chat_cli.py:55-60 | never empty |
| ChatRepl.BaseUrlAgreesWithToolSetup | src/r9s/cli_tools/chat_cli.py:55-60 | the chat and the tool setup resolve the base URL identically |
| ChatRepl.ResolveModel | src/r9s/cli_tools/chat_cli.py:63-64 | the stripped argument when it is non-empty, else the stripped environment value |
| ChatRepl.BlankModelArgShadowsEnv | src/r9s/cli_tools/chat_cli.py:63-64 | a blank `--model` gives an empty model whatever `R9S_MODEL` says |
| ChatRepl.ResolveSystemPrompt | src/r9s/cli_tools/chat_cli.py:67-73 | the argument, else the stripped file text (None when blank), else the stripped environment value; "" arises only from a whitespace environment value |
| ChatRepl.BlankEnvPromptSendsNone | src/r9s/cli_tools/chat_cli.py:67-73 | a whitespace-only environment prompt resolves to "" and adds no system message |
| ChatRepl.BotDefault | src/r9s/cli_tools/chat_cli.py:283-286 | an option given on the command line wins; otherwise the bot's non-empty value |
| ChatRepl.BotPrompt | src/r9s/cli_tools/chat_cli.py:287-291 | a given prompt or prompt file wins; else the bot's prompt file, else its prompt |
| ChatRepl.BotExtensions | src/r9s/cli_tools/chat_cli.py:292-294 | the bot's extensions come before the CLI ones |
| ChatRepl.WithBot | src/r9s/cli_tools/chat_cli.py:281-294 | merging a bot changes only base URL, model, prompt and extensions, each by its rule |
| ChatRepl.ChatLang | src/r9s/cli_tools/chat_cli.py:267-282 | the language is supported; it is `resolve_lang` of `--lang` and `R9S_LANG`, or, when no `--lang` was given and the bot has one, `resolve_lang` of the bot's language |
| ChatRepl.ChatBot | src/r9s/cli_tools/chat_cli.py:272-279 | no `--bot` loads nothing; a loaded bot is returned; a missing file is "Bot not found" and every other failure, an unreadable file included, "Failed to load bot" |
| ChatRepl.Resumed | src/r9s/cli_tools/chat_cli.py:296-302 | resuming needs a terminal; with the outcome of the selection, no sessions is the "chat.resume.none" exit, a chosen session's path becomes the history file, and input ending at the prompt is the uncaught `EOFError` |
| ChatRepl.Arguments | src/r9s/cli_tools/chat_cli.py:267-302 | the language is supported, is the chat language of the loaded bot, and `--no-history` is kept; without bot and resume the arguments pass unchanged; once the bot loads, a resume on a terminal ends as the selection's outcome says |
| ChatRepl.Resolved | src/r9s/cli_tools/chat_cli.py:304-306 | the resolved base URL is never empty |
| ChatRepl.HistoryPath | src/r9s/cli_tools/chat_cli.py:308-312 | no path exactly with `--no-history`; otherwise `--history-file` when given, else the default path |
| ChatRepl.NewRecord | src/r9s/cli_tools/chat_cli.py:325-337 | a new record has no messages, now as both times, the resolved settings and the path's stem (or a fresh id) |
| ChatRepl.Adopted | src/r9s/cli_tools/chat_cli.py:339-345 | a setting already resolved is kept; an empty one (the prompt: None) takes the saved value |
| ChatRepl.FilledMeta | src/r9s/cli_tools/chat_cli.py:347-354 | saved meta fields are kept, empty ones filled from the settings, and the update time is set |
| ChatRepl.ResumedAgree | src/r9s/cli_tools/chat_cli.py:339-354 | after resuming, the record's meta and the settings agree on which fields are empty |
| ChatRepl.SavedBaseUrlIgnoredAsWritten | src/r9s/cli_tools/chat_cli.py:339-341 | as written, a saved base URL is never adopted, since the resolved one is never empty |
| ChatRepl.ResumedBaseUrl | src/r9s/cli_tools/chat_cli.py:55-60 | the corrected base URL: argument or environment when given, else the saved one, else the default |
| ChatRepl.SavedBaseUrlKeptCorrected | src/r9s/cli_tools/chat_cli.py:339-349 | with the correction a saved base URL survives resuming |
| ChatRepl.OpenRecord | src/r9s/cli_tools/chat_cli.py:314-354 | as written: no file makes a new record; an unreadable file, a decode error (with the path and the error text) and a wrong shape become their exits; a loaded record keeps its messages, merges settings and meta by the adopt and fill rules, and never changes a non-empty resolved base URL |
| ChatRepl.OpenRecordCorrected | src/r9s/cli_tools/chat_cli.py:314-354 | with the corrected base URL the same errors and the same model, prompt, messages and id; with neither `--base-url` nor `R9S_BASE_URL` a saved base URL is the one used and kept |
| ChatRepl.ResumeContinuesSavedSession | src/r9s/cli_tools/chat_cli.py:314-354 | reopening a saved session continues its messages and keeps its non-empty id |
| ChatRepl.ExtAbort | src/r9s/cli_tools/chat_cli.py:371-379 | an extension-file ImportError, an ImportError whose message names the export contract, and the contract error become localised exits; other errors propagate |
| ChatRepl.ChatExtensions | src/r9s/cli_tools/chat_cli.py:367-381 | no specs load nothing; otherwise the loaded extensions or the mapped failure |
| ChatRepl.Session | src/r9s/cli_tools/chat_cli.py:304-357 | the record and settings are those the as-written opening gives for the resolved settings and the history path; its errors pass through, and the missing-model exit happens exactly when the adopted model is empty; a session that starts has a model and base URL, and without history no messages |
| ChatRepl.Prepare | src/r9s/cli_tools/chat_cli.py:266-381 | a missing API key stops first; an exit of the arguments step (bot, terminal, resume selection) is the chat's exit; a prepared chat has the key, the language of the arguments step, the settings, path and record of the session step and the extensions the parsed specs load |
| ChatRepl.CommandOf | src/r9s/cli_tools/chat_cli.py:423-438 | an empty line is skipped; a line not starting with '/' is said; /exit, /help and /clear, and only they, are their commands; other '/' lines are unknown |
| ChatRepl.Classify | src/r9s/cli_tools/chat_cli.py:418-438 | a said line is non-empty and does not start with '/'; an unknown command starts with '/' |
| ChatRepl.ClassifyMeaning | src/r9s/cli_tools/chat_cli.py:418-426 | a blank input line is skipped; a line is said exactly when its stripped text does not start with '/', and the stripped text is what is said |
| ChatRepl.WithUser | src/r9s/cli_tools/chat_cli.py:440-441 | the history is kept as a prefix and followed by one user message holding the user-input chain's result over the typed text |
| ChatRepl.Request | src/r9s/cli_tools/chat_cli.py:443-444 | without extensions the request is the built message list |
| ChatRepl.Reply | src/r9s/cli_tools/chat_cli.py:446-450 | without extensions a streamed reply is the concatenated deltas and a buffered one the content's text, "" without a message |
| ChatRepl.TransformedNoHooks | src/r9s/cli_tools/chat_cli.py:209 | without hooks every delta is shown as it came |
| ChatRepl.ReplyWrites | src/r9s/cli_tools/chat_cli.py:446-450 | with the stop as the source has it, a turn ends with the newline and shows the label at most once, never without a prefix |
| ChatRepl.BufferedLabelCount | src/r9s/cli_tools/chat_cli.py:222-239 | a buffered turn shows the label once exactly when there is one |
| ChatRepl.AfterSay | src/r9s/cli_tools/chat_cli.py:440-451 | a turn appends exactly one user message and then one assistant message holding the reply |
| ChatRepl.SayStep | src/r9s/cli_tools/chat_cli.py:440-456 | a turn grows the history, writes the reply, and with a history path sets the update time and saves the record once |
| ChatRepl.Next | src/r9s/cli_tools/chat_cli.py:423-456 | the loop ends exactly at /exit; skipped, /help and unknown lines change nothing; /clear empties only the history; every step keeps the saves and writes so far, and a said line adds two messages after the kept history |
| ChatRepl.Commands | src/r9s/cli_tools/chat_cli.py:416-426 | one command per input line, skipped exactly when the line is blank |
| ChatRepl.Replay | src/r9s/cli_tools/chat_cli.py:416-456 | running the loop never drops a save or a write already made |
| ChatRepl.ChatSession.constructor | src/r9s/cli_tools/chat_cli.py:359-365 | the session starts with the record's messages and meta |
| ChatRepl.ChatSession.Turn | src/r9s/cli_tools/chat_cli.py:440-456 | the in-place turn updates history, meta, saves and output as the turn function says |
| ChatRepl.ChatSession.Respond | src/r9s/cli_tools/chat_cli.py:443-450 | the reply is the streamed or buffered answer to the built, extended request, written to the terminal |
| ChatRepl.ChatSession.Step | src/r9s/cli_tools/chat_cli.py:416-456 | one line continues the loop exactly when it is not /exit, and does what its command says; /exit changes nothing |
| ChatRepl.ChatSession.Run | src/r9s/cli_tools/chat_cli.py:416-456 | the loop over the input lines ends in the state the replay of their commands gives |
| ChatRepl.ChatSession.Piped | src/r9s/cli_tools/chat_cli.py:384-401 | blank piped input does nothing; otherwise one turn on the stripped text without a label |
| ChatRepl.NoHistoryNoSaves | src/r9s/cli_tools/chat_cli.py:453-456 | without a history path nothing is ever saved and the meta never changes |
| ChatRepl.OneSavePerTurn | src/r9s/cli_tools/chat_cli.py:453-456 | with a history path each turn saves exactly once, and earlier saves are kept |
| ChatRepl.TwoMessagesPerTurn | src/r9s/cli_tools/chat_cli.py:440-451 | without /clear the history grows by two messages per turn and keeps its prefix |
| ChatRepl.CommandsChangeNothing | src/r9s/cli_tools/chat_cli.py:423-438 | empty lines, /help and unknown commands change nothing |
| ChatRepl.TurnSaveRestores | src/r9s/cli_tools/chat_cli.py:453-456 | the record saved by a turn loads back with exactly the new history |
| ChatRepl.PlainTurn | src/r9s/cli_tools/chat_cli.py:440-444 | without extensions the user text is stored as typed and the request is the built message list |
| Spinner.Anim | src/r9s/cli_tools/ui/spinner.py:52-53 | a frame is a space and one character |
| Spinner.Spaces | src/r9s/cli_tools/ui/spinner.py:40 | the clearing run of spaces has the last frame's length |
| Spinner.FramesCycle | src/r9s/cli_tools/ui/spinner.py:49-52 | the four frames repeat with period four |
| Spinner.Spinner.constructor | src/r9s/cli_tools/ui/spinner.py:10-15 | a new spinner is stopped, has drawn nothing and has not printed the label |
| Spinner.Spinner.Start | src/r9s/cli_tools/ui/spinner.py:17-21 | an empty prefix starts nothing; otherwise the drawing thread runs from frame 0 |
| Spinner.Spinner.Tick | src/r9s/cli_tools/ui/spinner.py:51-57 | a running, unstopped spinner draws the next frame; otherwise nothing happens |
| Spinner.Spinner.PrintPrefix | src/r9s/cli_tools/ui/spinner.py:23-28 | the label is written once, only when not yet printed and non-empty |
| Spinner.Spinner.StopAndClear | src/r9s/cli_tools/ui/spinner.py:30-46 | as written: a stopped spinner is left alone; a running one is stopped, its frame erased (rewriting the label) when one was drawn, and the label marked printed even when no frame was drawn |
| Spinner.Spinner.StopAndRestore | src/r9s/cli_tools/ui/spinner.py:30-46 | corrected: the label counts as printed only when the erase rewrote it |
| Spinner.LabelLostAsWritten | src/r9s/cli_tools/ui/spinner.py:30-46 | a spinner stopped before its first frame marks the label printed with nothing on screen |
| Spinner.LabelKeptCorrected | src/r9s/cli_tools/ui/spinner.py:23-46 | with the correction the same run shows the label exactly once |
| Terminal.Style | r9s/terminal.py:25-26 | the styled text is the codes, the text, then the reset code |
| Terminal.PromptText | r9s/terminal.py:49-50 | the answer is empty exactly when the typed line is blank |
| Terminal.PromptTextStripped | r9s/terminal.py:49-50 | the answer is already stripped |
| Terminal.FirstStop | r9s/terminal.py:68-78 | the first Enter or Ctrl+C, or the end of the keys |
| Terminal.PromptSecret | r9s/terminal.py:60-92 | the keystroke loop ends with the outcome and echo the key-by-key reading gives, and restores the terminal mode |
| Terminal.EditKey | r9s/terminal.py:80-88 | Backspace/Delete removes the last character and echoes a rubout when there is one; any other key is appended and echoed as '*' |
| Terminal.FirstStopAt | r9s/terminal.py:68-78 | the loop stops exactly at the first stop key |
| Terminal.PromptSecretOn | r9s/terminal.py:53-92 | without raw-mode support the stripped `getpass` line; with it the keystroke loop |
| Terminal.ShownAppend | r9s/terminal.py:83-87 | the number of visible stars adds up over the echo |
| Terminal.EchoShowsBuffer | r9s/terminal.py:80-88 | the echo always shows one star per buffered character |
| Terminal.EchoHidesKeys | r9s/terminal.py:83-87 | nothing but stars and rubouts is echoed, never a typed key |
| Terminal.EraseOnEmpty | r9s/terminal.py:80-85 | Backspace on an empty buffer changes and echoes nothing |
| Terminal.EnterEndsInput | r9s/terminal.py:68-92 | Enter ends input with the stripped buffer, whatever follows |
| I18n.Normalize | src/r9s/cli_tools/i18n.py:23 | a normalised tag holds neither '_' nor ' ' |
| I18n.ResolveLang | src/r9s/cli_tools/i18n.py:19-24 | the result is always "en" or "zh-CN"; blank value and environment give "en"; otherwise the alias of the normalised, stripped value (or environment value when no value is given) |
| I18n.AliasOf | src/r9s/cli_tools/i18n.py:8-24 | the alias table's value for a known tag, "en" otherwise |
| I18n.ExplicitLangWins | src/r9s/cli_tools/i18n.py:20 | a non-empty value makes the environment irrelevant |
| I18n.ResolveLangIdempotent | src/r9s/cli_tools/i18n.py:8-24 | resolving a resolved language gives it back |
| I18n.ResolveSupported | src/r9s/cli_tools/i18n.py:6-13 | both supported languages resolve to themselves |
| I18n.ResolveOfTag | src/r9s/cli_tools/i18n.py:20-24 | a clean explicit tag resolves through the alias of its normal form |
| I18n.ResolveEn | src/r9s/cli_tools/i18n.py:9 | "en" resolves to "en" |
| I18n.ResolveZh | src/r9s/cli_tools/i18n.py:13 | "zh-CN" resolves to "zh-CN" |
| I18n.NormalizeTag | src/r9s/cli_tools/i18n.py:23 | a tag without spaces normalises to its lower case with '_' turned into '-' |
| I18n.ResolveUnderscoreTag | src/r9s/cli_tools/i18n.py:13-24 | "ZH_cn" resolves to "zh-CN" |
| I18n.ResolveSpacedTag | src/r9s/cli_tools/i18n.py:8-24 | "zh cn" resolves to "en": the space is removed and "zhcn" is no alias |
| I18n.UnderscoreAliasesUnreachable | src/r9s/cli_tools/i18n.py:8-23 | no input normalises to "en_us" or "zh_cn" |
| I18n.Template | src/r9s/cli_tools/i18n.py:99-101 | the chosen table's entry, else the English one, else the key; an unknown language uses English |
| I18n.T | src/r9s/cli_tools/i18n.py:102-105 | the formatted template, or the raw template when formatting fails |
| I18n.TablesCoverSameKeys | src/r9s/cli_tools/i18n.py:27-96 | both message tables have the same keys |
| Bots.BotPath | src/r9s/cli_tools/bots.py:24-28 | a blank name is the ValueError; otherwise `<stripped name>.json` under the bots directory |
| Bots.BotPathOfStripped | src/r9s/cli_tools/bots.py:25 | stripping the name first changes nothing |
| Bots.BotPathStem | src/r9s/cli_tools/bots.py:24-28 | the stem of a bot's file is its stripped name |
| Bots.StrippedField | src/r9s/cli_tools/bots.py:51-58 | an optional field is its stripped value when it is a non-empty string, else None |
| Bots.TextField | src/r9s/cli_tools/bots.py:52 | the system prompt is kept unstripped when it is a non-empty string, else None |
| Bots.ExtensionsField | src/r9s/cli_tools/bots.py:59-61 | extensions are kept exactly when they are a list of strings |
| Bots.LoadBot | src/r9s/cli_tools/bots.py:39-62 | a blank name, a missing file (FileNotFoundError), an unreadable file (another OSError), bad JSON, a non-object and a missing or blank model are the errors; a loaded bot has the stripped, non-empty model and each field by its rule |
| Bots.LoadBotNameDefault | src/r9s/cli_tools/bots.py:49 | a missing or empty name defaults to the requested one |
| Bots.BotJson | src/r9s/cli_tools/bots.py:35 | the stored object has exactly the seven configuration fields |
| Bots.SaveBot | src/r9s/cli_tools/bots.py:31-36 | saving fails for a blank name and otherwise writes the bot's object at its path |
| Bots.SaveLoadBot | src/r9s/cli_tools/bots.py:31-62 | a normalised bot saved and loaded back is the same bot |
| Bots.OptionalSurvives | src/r9s/cli_tools/bots.py:51-58 | a clean optional value survives the round trip |
| Bots.JsonNames | src/r9s/cli_tools/bots.py:70 | exactly the entries ending in ".json" |
| Bots.Stems | src/r9s/cli_tools/bots.py:70-71 | one stem per file, in order |
| Bots.BotNames | src/r9s/cli_tools/bots.py:65-72 | no directory lists nothing; otherwise the stems of the sorted ".json" names |
| Bots.ListBots | src/r9s/cli_tools/bots.py:65-72 | the listing loop computes the stems of the sorted file names |
| Bots.AppendStems | src/r9s/cli_tools/bots.py:70-71 | the loop appends one stem per name |
| Bots.SavedBotListed | src/r9s/cli_tools/bots.py:24-72 | a saved bot's stripped name is listed |
| Bots.ListOrderIsByFileName | src/r9s/cli_tools/bots.py:70-71 | the order is by file name: "a-b" is listed before "a" although "a" sorts first |
| BotCli.RequireName | src/r9s/cli_tools/bot_cli.py:10-13 | an absent or blank name exits with the message; otherwise the stripped, non-empty name |
| BotCli.Cleaned | src/r9s/cli_tools/bot_cli.py:66-72 | None for absent or blank, else the stripped value |
| BotCli.CleanedIdempotent | src/r9s/cli_tools/bot_cli.py:66-72 | cleaning twice is cleaning once |
| BotCli.PromptModel | src/r9s/cli_tools/bot_cli.py:60-64 | the stripped `--model`, else the first non-blank typed answer; input ending first means all answers were blank |
| BotCli.CreatedBot | src/r9s/cli_tools/bot_cli.py:66-83 | the created bot is normalised, each optional field cleaned and an empty extension list None |
| BotCli.CreateBot | src/r9s/cli_tools/bot_cli.py:57-83 | a missing name stops with its message; a created bot has the required name and a non-empty model |
| BotCli.CreatedBotRoundTrips | src/r9s/cli_tools/bot_cli.py:75-84 | a created bot saved and loaded back is unchanged |
| BotCli.DeleteConfirmed | src/r9s/cli_tools/bot_cli.py:45-46 | delete proceeds exactly when the lower-cased answer is "y" or "yes" |
| BotCli.DeleteIsYesNoDefaultNo | src/r9s/cli_tools/bot_cli.py:45-46 | the confirmation is the yes/no prompt with default no |
| ClaudeCode.ReadSettings | r9s/tools/claude_code.py:39-47 | an absent file, an OSError, a JSON decode error and a non-object read as {}; an object is returned; a file that is not UTF-8 raises |
| ClaudeCode.R9sEnv | r9s/tools/claude_code.py:22-31 | the merge writes exactly the six environment keys |
| ClaudeCode.EnvOf | r9s/tools/claude_code.py:19-21 | the existing `env` when it is an object, else {} |
| ClaudeCode.Configured | r9s/tools/claude_code.py:19-32 | the merged settings have the old keys plus `env`, an object holding the six keys |
| ClaudeCode.ClaudeCodeIntegration.constructor | r9s/tools/claude_code.py:12-14 | the integration starts on the given settings file |
| ClaudeCode.ClaudeCodeIntegration.SetConfig | r9s/tools/claude_code.py:16-47 | the file afterwards holds the read settings with the merged environment; a file that is not UTF-8 stops it and is left as it was |
| ClaudeCode.ConfiguredEnv | r9s/tools/claude_code.py:22-32 | `env` holds the base URL, token, both models, the timeout "3000000" and the traffic flag 1 |
| ClaudeCode.ConfiguredPreserves | r9s/tools/claude_code.py:19-32 | every other top-level key and every other `env` key is kept; a non-object `env` is replaced |
| ClaudeCode.ConfiguredIdempotent | r9s/tools/claude_code.py:22-32 | merging twice equals merging once |
| ClaudeCode.SetConfigTwice | r9s/tools/claude_code.py:16-47 | running `set_config` twice leaves the settings of running it once |
| ToolCli.ToolRegistry.constructor | src/r9s/cli_tools/cli.py:38-39 | a new registry is empty |
| ToolCli.ToolRegistry.Register | src/r9s/cli_tools/cli.py:41-42 | the entry for the name is overwritten and no other entry changes (same at r9s/cli.py:33-34) |
| ToolCli.ToolRegistry.Get | src/r9s/cli_tools/cli.py:44-45 | the entry when the name is registered, else none |
| ToolCli.ToolRegistry.PrimaryNames | src/r9s/cli_tools/cli.py:47-49 | sorted, without duplicates, exactly the registered tools' primary names (same at r9s/cli.py:38-39) |
| ToolCli.ToolRegistry.Resolve | src/r9s/cli_tools/cli.py:51-55 | an exact match first, else the lower-cased name with '_' turned into '-' (same at r9s/cli.py:41-45) |
| ToolCli.AliasRegistry | src/r9s/cli_tools/cli.py:58-61 | every alias, and only those, maps to the tool |
| ToolCli.NewTools | src/r9s/cli_tools/cli.py:58-61 | the registry holds the Claude integration under its three aliases |
| ToolCli.ResolveClaudeAnyCase | src/r9s/cli_tools/cli.py:51-61 | any casing of claude_code, claude-code or claude resolves to the Claude integration |
| ToolCli.OnePrimaryName | src/r9s/cli_tools/cli.py:47-61 | the three aliases yield the one primary name "claude-code" |
| ToolCli.PyPrefix | src/r9s/cli_tools/cli.py:67 | Python's `key[:k]` is a prefix of length k for 0 <= k <= len |
| ToolCli.PySuffix | src/r9s/cli_tools/cli.py:67 | Python's `key[-k:]` is a suffix; for k = 0 it is the whole key |
| ToolCli.MaskedKey | src/r9s/cli_tools/cli.py:64-67 | a key no longer than `visible` becomes as many stars; otherwise the first and last `visible` characters around "***", of length 2·visible+3 (same at r9s/cli.py:54-57) |
| ToolCli.MaskedKeyZeroVisible | src/r9s/cli_tools/cli.py:64-67 | with `visible = 0` the mask exposes the whole key after "***" |
| ToolCli.Pick | src/r9s/cli_tools/cli.py:75-80 | an answer selects `options[n-1]` exactly for a digit string n with 1 <= n <= len |
| ToolCli.PromptChoice | src/r9s/cli_tools/cli.py:70-81 | answers are read until one selects; every earlier one selects nothing; input ending first means none did (same at r9s/cli.py:60-71) |
| ToolCli.PromptChoiceInOptions | src/r9s/cli_tools/cli.py:80 | the choice is always one of the options |
| ToolCli.PromptYesNo | src/r9s/cli_tools/cli.py:84-89 | a blank answer gives `not default_no`; otherwise true exactly for "y"/"yes" in any case (same at r9s/cli.py:74-79) |
| ToolCli.YesNoDefaultOnlyForBlank | src/r9s/cli_tools/cli.py:87-89 | the default matters only for a blank answer |
| ToolCli.YesNoMonotone | src/r9s/cli_tools/cli.py:84-89 | a yes with default no is a yes with default yes |
| ToolCli.ModelsUrlTrailingSlash | src/r9s/cli_tools/cli.py:93 | trailing slashes of the base URL do not change the URL |
| ToolCli.ModelOfItem | src/r9s/cli_tools/cli.py:115-119 | an object's `id` becomes its `str()`, a bare string is kept, anything else is skipped |
| ToolCli.ModelsOfItems | src/r9s/cli_tools/cli.py:114-119 | at most one model per item |
| ToolCli.CollectModels | src/r9s/cli_tools/cli.py:113-120 | the loop collects the models of the items in order |
| ToolCli.FetchModels | src/r9s/cli_tools/cli.py:92-123 | the URL is the base without trailing '/' plus "/models"; an unreachable server or invalid JSON gives []; a decoded body gives the payload's models |
| ToolCli.WrappedStringsAgree | src/r9s/cli_tools/cli.py:110-119 | a list of strings and the same list under `data` give the same models |
| ToolCli.IdsInOrder | src/r9s/cli_tools/cli.py:114-119 | objects with string ids give their ids in order |
| ToolCli.MixedListIsNoList | src/r9s/cli_tools/cli.py:110-123 | a top-level list with a non-string item gives [] |
| ToolCli.ResolveBaseUrl | src/r9s/cli_tools/cli.py:139-145 | the argument, else the environment value, else "https://api.r9s.ai" (same at r9s/cli.py:129-135) |
| ToolCli.ResolveApiKey | src/r9s/cli_tools/cli.py:148-157 | the environment value, else the preset, else the first non-empty secret typed; input ending first gives none |
| ToolCli.ChooseModel | src/r9s/cli_tools/cli.py:126-136 | a preset wins without reading input; with a model list, the numbered choice, one of the models; otherwise the first non-blank typed name, stripped, every earlier answer blank, and none exactly when every answer is blank |
| ToolCli.SelectBackup | src/r9s/cli_tools/cli.py:199-219 | no backup selects none; one backup is used as it is; with several an in-range number selects that one and anything else keeps the latest (same at r9s/cli.py:189-210) |
| ToolCli.EmptyAnswerKeepsLatest | src/r9s/cli_tools/cli.py:205-213 | an empty answer keeps the latest backup |
| LegacyCli.FetchModels | r9s/cli.py:82-113 | the URL is the base without trailing '/' plus "/v1/models"; the same three payload shapes |
| LegacyCli.LegacyUrlIsVersionedBase | r9s/cli.py:83 | the older URL is the current one for the base with "/v1" appended |
| ExampleExtension.Register | example/chat_extension.py:30-31 | registering adds exactly the one demo extension |
| ExampleExtension.DemoStripsInput | example/chat_extension.py:20-21 | the demo strips user input |
| ExampleExtension.DemoPassesThrough | example/chat_extension.py:17-27 | deltas, replies and requests pass through the demo unchanged |
| ExampleExtension.DemoAfterOthers | example/chat_extension.py:20-21 | after other extensions the demo strips their result |
| ExampleExtension.DemoTwiceIsOnce | example/chat_extension.py:20-21 | loading the demo twice strips once |
| ExampleExtension.DemoLoads | example/chat_extension.py:30-31 | loading the example module yields exactly the demo |
| Text.Strip | r9s/terminal.py:50 | `str.strip()` is empty exactly for blank strings and never longer |
| Text.StripIdempotent | r9s/terminal.py:50 | stripping twice is stripping once |
| Text.ChoiceIndex | src/r9s/cli_tools/cli.py:75-80 | the shared numbered-prompt rule: a digit string n with 1 <= n <= count selects index n-1 |
| Text.ChoiceOfDecimal | src/r9s/cli_tools/cli.py:71-72 | typing an option's printed number selects that option |
| Text.FirstNonEmpty | src/r9s/cli_tools/cli.py:154-156 | the first non-empty answer of a re-prompting loop, every earlier one empty |
| Text.SortedStrings | src/r9s/cli_tools/bots.py:70 | `sorted()` of a set: its elements once each, in order |
| Paths.StemOfJsonName | src/r9s/cli_tools/bots.py:71 | the stem of `<s>.json` is s |
| Paths.NameOfJoin | src/r9s/cli_tools/chat_cli.py:510 | the name of `dir/s` is s |
| Json.GetOr | src/r9s/cli_tools/chat_cli.py:135-139 | `d.get(k) or default`: the stored value when present and truthy, else the default |
| Json.PyStr | src/r9s/cli_tools/chat_cli.py:135-140 | `str()` of a string is the string, and of a truthy or non-string value non-empty |
| Json.Repr | src/r9s/cli_tools/chat_cli.py:135-140 | a string shown inside a container is wrapped in single quotes; any other value shows as its `str()` |

## Left out

- Network calls. The r9s SDK client, `urllib`, request headers and timeouts are inputs: a reply is a sequence of stream steps, a buffered content value, or a models response that is either unreachable or a parsed body. The kinds of `urllib` errors are not distinguished.
- JSON text. `json.loads`/`json.dumps` are not modelled; files hold decoded values or a decode error. Floating-point numbers are left out and numbers are integers. `_content_to_text`'s fallback `json.dumps(content)`/`str(content)` is an input string.
- The filesystem. File existence, directory listings, modification times and file contents are inputs. Writes are the values written. Backups and the list of backups of `ToolIntegration` (r9s/tools/base.py) are not part of this model; backup selection works on a given list.
- Dynamic imports. `_load_module`/`_load_module_from_file` are a function from spec to a loaded module or an ImportError message.
- Clocks, `uuid` and the default session path. These are given as parameters.
- Threads and sleeps. The spinner's thread is a `Tick` step the input schedule interleaves with the stream events; the 0.5 s join and 0.12 s sleep are not modelled.
- Terminal modes. `termios`/`tty` raw mode and `getpass` appear only as whether raw mode is available and the line `getpass` returns.
- Ctrl+C ends the secret prompt as `Interrupted`. `KeyboardInterrupt` handling elsewhere is not modelled.
- `str.format` in `t` is a parameter that formats a template or fails.
- Case folding and digits. `str.lower` and `str.isdigit` are modelled on ASCII letters and digits only.
- `argparse`, `main`, `build_parser`, the help texts, `select_tool_name`, `handle_set`'s summary printing, and `handle_bot_list`/`handle_bot_show` printing are not modelled.
- Output outside a chat turn is not modelled. In the read-eval loop, help, "history cleared", unknown-command and banner notices are not recorded as writes; only a turn's output is.
- A hook that raises is not modelled; a hook is a total function answering with a value of the right type or of another type.
- A `register` export is represented by the list of objects it adds, so a `register` that does something else is not modelled.
- `Json.Repr`: a string inside a container is wrapped in single quotes without Python's escaping and without its switch to double quotes for text holding a single quote.
- `Json.PyStr`: an object's keys are shown in sorted order, not Python's insertion order, since a `map` has none.
- `ToolCli.FetchModels`: a response body that is not UTF-8 raises `UnicodeDecodeError` from `payload.decode("utf-8")`, which `fetch_models` does not catch; a models response holds a decoded body or a decode error, so the model has no such case and gives [] for every undecodable body. `LegacyCli.FetchModels` has the same gap.
- `SessionStore.Summary`: states the path, update time and the start of the display line, not the model, base URL and preview parts.

## Findings

| source | as written | input that shows it | evidently intended | confidence | as-written member | corrected member |
|---|---|---|---|---|---|---|
| src/r9s/cli_tools/ui/spinner.py:30-46 | `stop_and_clear` sets `prefix_printed = True` even when no frame was drawn, so nothing rewrote the label | an interactive streamed turn whose first content arrives before the spinner thread drew a frame: the label "Assistant> " never appears | mark the label printed only when the erase rewrote it, so `print_prefix` writes it otherwise | not executed | Spinner.LabelLostAsWritten | Spinner.LabelKeptCorrected |
| src/r9s/cli_tools/chat_cli.py:339-341 | resuming adopts the saved base URL only when the resolved one is empty, but `_resolve_base_url` (lines 55-60) never returns "" | a session saved with base URL "https://custom", resumed with neither `--base-url` nor `R9S_BASE_URL`: the chat talks to "https://api.r9s.ai" | a saved base URL is used when neither argument nor environment gives one | not executed | ChatRepl.SavedBaseUrlIgnoredAsWritten | ChatRepl.OpenRecordCorrected |

Both findings are modelled as written where the chat runs. `ChatSession.Respond` streams with the stop as the source has it, and `ReplyWrites` follows it. `Session` and `Prepare` open the record with `OpenRecord`, as written. The corrected versions stand beside them:

- **Spinner.** `Spinner.StopAndRestore` is the corrected stop. `StreamChat` takes the stop as a parameter. `FirstTextBeforeFrame` runs one concrete turn both ways. `TurnLabelLost` proves the general case: a started turn whose first text beats the first frame shows no label as written, and one label with the correction.
- **Base URL.** `ResumedBaseUrl` and `OpenRecordCorrected` are the corrected versions. `SavedBaseUrlKeptCorrected` states the intended property for one record.
