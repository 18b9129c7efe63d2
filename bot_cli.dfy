/** The `r9s bot` subcommands' own logic: the required name, the normalisation of the
    fields `bot create` stores, its model prompt, and the confirmation `bot delete` asks for. */
module BotCli {
  import opened Wrappers
  import opened Text
  import opened Json
  import opened Terminal
  import opened SessionStore
  import opened Bots
  import ToolCli

  const NameRequiredMessage := "bot name is required"

  /** `_require_name`: the stripped name, or the exit message for an absent or blank one. */
  function RequireName(name: Option<string>): (r: Result<string, string>)
    ensures r.Err? <==> name.None? || IsBlank(name.value)
    ensures r.Err? ==> r.error == NameRequiredMessage
    ensures r.Ok? ==> r.value == Strip(name.value) && r.value != "" && Strip(r.value) == r.value
  {
    if name.Some? && !IsBlank(name.value) then
      StripIdempotent(name.value);
      Ok(Strip(name.value))
    else Err(NameRequiredMessage)
  }

  /** `(value or "").strip() or None`; for the system prompt, `None` stays `None` and a
      present value becomes `value.strip() or None`, which is the same function. */
  function Cleaned(v: Option<string>): (r: Option<string>)
    ensures CleanOptional(r)
    ensures r.None? <==> v.None? || IsBlank(v.value)
    ensures r.Some? ==> r.value == Strip(v.value)
  {
    if v.Some? && !IsBlank(v.value) then
      StripIdempotent(v.value);
      Some(Strip(v.value))
    else None
  }

  /** Cleaning is idempotent: what `bot create` stores is cleaned already. */
  lemma CleanedIdempotent(v: Option<string>)
    ensures Cleaned(Cleaned(v)) == Cleaned(v)
  {
    if v.Some? && !IsBlank(v.value) {
      StripIdempotent(v.value);
    }
  }

  /** The command-line arguments of `bot create`. */
  datatype CreateArgs = CreateArgs(
    name: Option<string>,
    model: Option<string>,
    baseUrl: Option<string>,
    systemPrompt: Option<string>,
    systemPromptFile: Option<string>,
    lang: Option<string>,
    ext: seq<string>)

  /** Why `bot create` stops without saving: no usable name, or input ended while the model was asked for. */
  datatype CreateError = NameRequired(message: string) | ModelInputEnded

  /** The model `bot create` uses: the stripped `--model`, else the first non-blank typed answer.
      `asked` counts the answers read; `None` means input ended first. */
  method PromptModel(given: Option<string>, answers: seq<string>) returns (model: Option<string>, asked: nat)
    ensures asked <= |answers|
    ensures model.Some? ==> model.value != "" && Strip(model.value) == model.value
    ensures given.Some? && !IsBlank(given.value) ==> model == Some(Strip(given.value)) && asked == 0
    ensures !(given.Some? && !IsBlank(given.value)) ==>
      && (forall k :: 0 <= k < asked - 1 ==> IsBlank(answers[k]))
      && (model.Some? ==> 1 <= asked && model == Some(PromptText(answers[asked - 1])))
      && (model.None? ==> asked == |answers| && forall k :: 0 <= k < |answers| ==> IsBlank(answers[k]))
  {
    var m := Strip(OrElse(given, ""));
    if m != "" {
      StripIdempotent(given.value);
      return Some(m), 0;
    }
    asked := 0;
    while asked < |answers|
      invariant 0 <= asked <= |answers|
      invariant forall k :: 0 <= k < asked ==> IsBlank(answers[k])
    {
      m := PromptText(answers[asked]);
      if m != "" {
        PromptTextStripped(answers[asked]);
        return Some(m), asked + 1;
      }
      asked := asked + 1;
    }
    return None, asked;
  }

  /** The bot `bot create` saves, from its stripped name and model. */
  function CreatedBot(name: string, model: string, args: CreateArgs): (b: BotConfig)
    requires name != "" && Strip(name) == name
    requires model != "" && Strip(model) == model
    ensures NormalBot(b)
    ensures b.name == name && b.model == model
    ensures b.baseUrl == Cleaned(args.baseUrl) && b.systemPromptFile == Cleaned(args.systemPromptFile)
    ensures b.systemPrompt == Cleaned(args.systemPrompt) && b.lang == Cleaned(args.lang)
    ensures b.extensions.None? <==> args.ext == []
    ensures b.extensions.Some? ==> b.extensions.value == args.ext
  {
    BotConfig(name, model, Cleaned(args.baseUrl), Cleaned(args.systemPrompt), Cleaned(args.systemPromptFile),
      Cleaned(args.lang), if args.ext == [] then None else Some(args.ext))
  }

  /** `handle_bot_create` up to `save_bot`: the bot it saves, or why it stops. */
  method CreateBot(args: CreateArgs, answers: seq<string>) returns (r: Result<BotConfig, CreateError>)
    ensures RequireName(args.name).Err? <==> r.Err? && r.error.NameRequired?
    ensures r.Err? && r.error.NameRequired? ==> r.error.message == NameRequiredMessage
    ensures r.Ok? ==> NormalBot(r.value) && r.value.name == RequireName(args.name).value
    ensures r.Ok? ==> r.value == CreatedBot(r.value.name, r.value.model, args)
    ensures r.Ok? && args.model.Some? && !IsBlank(args.model.value) ==> r.value.model == Strip(args.model.value)
    ensures r.Err? && r.error.ModelInputEnded? ==>
      (args.model.None? || IsBlank(args.model.value)) && forall k :: 0 <= k < |answers| ==> IsBlank(answers[k])
  {
    var name := RequireName(args.name);
    if name.Err? {
      return Err(NameRequired(name.error));
    }
    var model, asked := PromptModel(args.model, answers);
    if model.None? {
      return Err(ModelInputEnded);
    }
    return Ok(CreatedBot(name.value, model.value, args));
  }

  /** A bot `bot create` saves is read back by `load_bot` exactly as it was saved. */
  lemma CreatedBotRoundTrips(home: string, name: string, model: string, args: CreateArgs)
    requires name != "" && Strip(name) == name
    requires model != "" && Strip(model) == model
    ensures SaveBot(home, CreatedBot(name, model, args)).Ok?
    ensures LoadBot(home, name, Some(Stored(Decoded(SaveBot(home, CreatedBot(name, model, args)).value.1))))
      == Ok(CreatedBot(name, model, args))
  {
    var b := CreatedBot(name, model, args);
    assert !IsBlank(name) by { assert Strip(name) != []; }
    SaveLoadBot(home, b);
  }

  /** `handle_bot_delete` deletes only after a lower-cased stripped "y" or "yes". */
  function DeleteConfirmed(answer: string): (r: bool)
    ensures r ==> !IsBlank(answer)
    ensures r <==> Lower(PromptText(answer)) in {"y", "yes"}
  {
    var a := Lower(PromptText(answer));
    a == "y" || a == "yes"
  }

  /** The delete confirmation is a yes/no prompt whose default is "no". */
  lemma DeleteIsYesNoDefaultNo(answer: string)
    ensures DeleteConfirmed(answer) == ToolCli.PromptYesNo(answer, true)
  {
  }
}
