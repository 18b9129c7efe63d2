/** The example chat extension shipped with the project: named "demo", it strips the
    user's input and passes stream deltas and the final reply through unchanged. */
module ExampleExtension {
  import opened Wrappers
  import opened Text
  import opened SessionStore
  import opened Extensions

  /** `DemoExtension()`: no `before_request` attribute. */
  const Demo := Extension(
    Some("demo"),
    Callable((text: string, ctx: ChatContext) => Value(Strip(text))),
    Absent,
    Callable((delta: string, ctx: ChatContext) => Value(delta)),
    Callable((text: string, ctx: ChatContext) => Value(text)))

  /** The example module as `_register_from_module` sees it: only `register` is exported. */
  const DemoModule := ExtModule(CallableExport([Demo]), Missing, None, None)

  /** `register(registry)`: adds exactly one demo extension. */
  method Register(registry: ChatExtensionRegistry) returns (r: Result<(), string>)
    modifies registry
    ensures r.Ok? && registry.exts == old(registry.exts) + [Demo]
  {
    r := registry.Add(Demo);
  }

  /** With the demo alone, the user-input chain strips the input. */
  lemma DemoStripsInput(text: string, ctx: ChatContext)
    ensures Chain(UserInputHooks([Demo]), text, ctx) == Strip(text)
  {
    assert UserInputHooks([Demo])[1..] == [];
  }

  /** With the demo alone, the stream-delta, after-response and before-request chains change nothing. */
  lemma DemoPassesThrough(piece: string, messages: seq<Message>, ctx: ChatContext)
    ensures Chain(StreamDeltaHooks([Demo]), piece, ctx) == piece
    ensures Chain(AfterResponseHooks([Demo]), piece, ctx) == piece
    ensures Chain(BeforeRequestHooks([Demo]), messages, ctx) == messages
  {
    assert StreamDeltaHooks([Demo])[1..] == [];
    assert AfterResponseHooks([Demo])[1..] == [];
    assert BeforeRequestHooks([Demo])[1..] == [];
  }

  /** Registered after other extensions, the demo strips whatever they produce. */
  lemma DemoAfterOthers(exts: seq<Extension>, text: string, ctx: ChatContext)
    ensures Chain(UserInputHooks(exts + [Demo]), text, ctx) == Strip(Chain(UserInputHooks(exts), text, ctx))
  {
    assert UserInputHooks(exts + [Demo]) == UserInputHooks(exts) + UserInputHooks([Demo]);
    ChainAppend(UserInputHooks(exts), UserInputHooks([Demo]), text, ctx);
    DemoStripsInput(Chain(UserInputHooks(exts), text, ctx), ctx);
  }

  /** Loading the demo twice strips once: stripping is idempotent. */
  lemma DemoTwiceIsOnce(text: string, ctx: ChatContext)
    ensures Chain(UserInputHooks([Demo, Demo]), text, ctx) == Strip(text)
  {
    assert [Demo, Demo] == [Demo] + [Demo];
    DemoAfterOthers([Demo], text, ctx);
    DemoStripsInput(text, ctx);
    StripIdempotent(text);
  }

  /** A spec naming the example module loads exactly the demo extension. */
  lemma DemoLoads(spec: string, modules: string -> ModuleLoad)
    requires modules(spec) == Imported(DemoModule)
    ensures Loaded([spec], modules) == Ok([Demo])
  {
    var specs := [spec];
    assert specs[..|specs| - 1] == [] && specs[|specs| - 1] == spec;
    assert Loaded([], modules) == Ok([]);
    assert AllNamed([Demo]);
    assert Contribution(DemoModule) == Ok([Demo]);
    assert [] + [Demo] == [Demo];
  }
}
