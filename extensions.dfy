/** Chat extensions: the context handed to hooks, the registry extensions are added to,
    the choice of export a loaded module registers through, the ordering of extension
    specs, and the four hook chains run around each chat turn. */
module Extensions {
  import opened Wrappers
  import opened Text
  import opened SessionStore

  /** What every hook sees besides the running value. */
  datatype ChatContext = ChatContext(
    baseUrl: string,
    model: string,
    systemPrompt: Option<string>,
    historyFile: Option<string>,
    history: seq<Message>)

  /** A hook's return value: one of the expected type, or anything else (including None). */
  datatype HookOut<T> = Value(v: T) | WrongType

  /** A hook attribute of an extension: missing, present but not callable, or a function. */
  datatype Hook<!T> = Absent | NotCallable | Callable(f: (T, ChatContext) -> HookOut<T>)

  /** An extension object: its `name` attribute, if it has one, and its four hooks. */
  datatype Extension = Extension(
    name: Option<string>,
    onUserInput: Hook<string>,
    beforeRequest: Hook<seq<Message>>,
    onStreamDelta: Hook<string>,
    afterResponse: Hook<string>)

  /** `_maybe_call`: the hook's result when it is callable, otherwise None. */
  function MaybeCall<T>(h: Hook<T>, v: T, ctx: ChatContext): (r: HookOut<T>)
    ensures !h.Callable? ==> r == WrongType
  {
    match h
    case Callable(f) => f(v, ctx)
    case _ => WrongType
  }

  /** One step of a chain: the hook's result if it has the expected type, else the value unchanged. */
  function Step<T>(h: Hook<T>, v: T, ctx: ChatContext): (r: T)
    ensures MaybeCall(h, v, ctx).WrongType? ==> r == v
    ensures MaybeCall(h, v, ctx).Value? ==> r == MaybeCall(h, v, ctx).v
  {
    match MaybeCall(h, v, ctx)
    case Value(w) => w
    case WrongType => v
  }

  /** A chain: the left fold of `Step` over the hooks, in list order. */
  function Chain<T>(hooks: seq<Hook<T>>, v: T, ctx: ChatContext): (r: T)
    ensures hooks == [] ==> r == v
    ensures |hooks| == 1 ==> r == Step(hooks[0], v, ctx)
    decreases |hooks|
  {
    if hooks == [] then v else Chain(hooks[1..], Step(hooks[0], v, ctx), ctx)
  }

  /** The loop shared by the four `run_*_extensions` functions. */
  method RunHooks<T>(hooks: seq<Hook<T>>, v: T, ctx: ChatContext) returns (out: T)
    ensures out == Chain(hooks, v, ctx)
    ensures hooks == [] ==> out == v
  {
    out := v;
    for i := 0 to |hooks|
      invariant Chain(hooks[i..], out, ctx) == Chain(hooks, v, ctx)
    {
      assert hooks[i..][1..] == hooks[i + 1..];
      out := Step(hooks[i], out, ctx);
    }
  }

  function UserInputHooks(exts: seq<Extension>): seq<Hook<string>>
  {
    seq(|exts|, i requires 0 <= i < |exts| => exts[i].onUserInput)
  }

  function BeforeRequestHooks(exts: seq<Extension>): seq<Hook<seq<Message>>>
  {
    seq(|exts|, i requires 0 <= i < |exts| => exts[i].beforeRequest)
  }

  function StreamDeltaHooks(exts: seq<Extension>): seq<Hook<string>>
  {
    seq(|exts|, i requires 0 <= i < |exts| => exts[i].onStreamDelta)
  }

  function AfterResponseHooks(exts: seq<Extension>): seq<Hook<string>>
  {
    seq(|exts|, i requires 0 <= i < |exts| => exts[i].afterResponse)
  }

  method RunUserInputExtensions(exts: seq<Extension>, text: string, ctx: ChatContext) returns (out: string)
    ensures out == Chain(UserInputHooks(exts), text, ctx)
  {
    out := RunHooks(UserInputHooks(exts), text, ctx);
  }

  method RunBeforeRequestExtensions(exts: seq<Extension>, messages: seq<Message>, ctx: ChatContext)
    returns (out: seq<Message>)
    ensures out == Chain(BeforeRequestHooks(exts), messages, ctx)
  {
    out := RunHooks(BeforeRequestHooks(exts), messages, ctx);
  }

  method RunStreamDeltaExtensions(exts: seq<Extension>, delta: string, ctx: ChatContext) returns (out: string)
    ensures out == Chain(StreamDeltaHooks(exts), delta, ctx)
  {
    out := RunHooks(StreamDeltaHooks(exts), delta, ctx);
  }

  method RunAfterResponseExtensions(exts: seq<Extension>, text: string, ctx: ChatContext) returns (out: string)
    ensures out == Chain(AfterResponseHooks(exts), text, ctx)
  {
    out := RunHooks(AfterResponseHooks(exts), text, ctx);
  }

  /** Running two lists of hooks one after the other is running their concatenation. */
  lemma {:induction false} ChainAppend<T>(a: seq<Hook<T>>, b: seq<Hook<T>>, v: T, ctx: ChatContext)
    ensures Chain(a + b, v, ctx) == Chain(b, Chain(a, v, ctx), ctx)
    decreases |a|
  {
    if a == [] {
      assert a + b == b;
    } else {
      assert (a + b)[1..] == a[1..] + b;
      ChainAppend(a[1..], b, Step(a[0], v, ctx), ctx);
    }
  }

  /** A hook that has no effect at the point it runs (missing, not callable, wrong result
      type, or returning its input) can be dropped from the chain. */
  lemma DropIneffective<T>(hooks: seq<Hook<T>>, k: nat, v: T, ctx: ChatContext)
    requires k < |hooks|
    requires Step(hooks[k], Chain(hooks[..k], v, ctx), ctx) == Chain(hooks[..k], v, ctx)
    ensures Chain(hooks, v, ctx) == Chain(hooks[..k] + hooks[k + 1..], v, ctx)
  {
    assert hooks == hooks[..k] + ([hooks[k]] + hooks[k + 1..]);
    ChainAppend(hooks[..k], [hooks[k]] + hooks[k + 1..], v, ctx);
    ChainAppend(hooks[..k], hooks[k + 1..], v, ctx);
  }

  /** A missing or non-callable hook can always be dropped. */
  lemma DropUncallable<T>(hooks: seq<Hook<T>>, k: nat, v: T, ctx: ChatContext)
    requires k < |hooks| && !hooks[k].Callable?
    ensures Chain(hooks, v, ctx) == Chain(hooks[..k] + hooks[k + 1..], v, ctx)
  {
    DropIneffective(hooks, k, v, ctx);
  }

  /** A hook whose result has the wrong type at the point it runs can be dropped. */
  lemma DropWrongType<T>(hooks: seq<Hook<T>>, k: nat, v: T, ctx: ChatContext)
    requires k < |hooks| && MaybeCall(hooks[k], Chain(hooks[..k], v, ctx), ctx).WrongType?
    ensures Chain(hooks, v, ctx) == Chain(hooks[..k] + hooks[k + 1..], v, ctx)
  {
    DropIneffective(hooks, k, v, ctx);
  }

  /** With no callable hook at all, a chain returns its input. */
  lemma {:induction false} ChainOfUncallable<T>(hooks: seq<Hook<T>>, v: T, ctx: ChatContext)
    requires forall i :: 0 <= i < |hooks| ==> !hooks[i].Callable?
    ensures Chain(hooks, v, ctx) == v
    decreases |hooks|
  {
    if hooks != [] {
      ChainOfUncallable(hooks[1..], v, ctx);
    }
  }

  /** The last callable hook that returns a value of the right type decides the result. */
  lemma ChainLastWins<T>(hooks: seq<Hook<T>>, f: (T, ChatContext) -> HookOut<T>, v: T, w: T, ctx: ChatContext)
    requires forall x :: f(x, ctx) == Value(w)
    ensures Chain(hooks + [Callable(f)], v, ctx) == w
  {
    ChainAppend(hooks, [Callable(f)], v, ctx);
  }

  // ---------------------------------------------------------------- registry

  const NameMissingMessage := "Extension must define a 'name' attribute"

  /** The registry extensions are added to, in order. */
  class ChatExtensionRegistry {
    var exts: seq<Extension>

    constructor()
      ensures exts == []
    {
      exts := [];
    }

    /** `add`: an object without `name` is refused with a TypeError; otherwise it is appended. */
    method Add(ext: Extension) returns (r: Result<(), string>)
      modifies this
      ensures ext.name.Some? ==> r.Ok? && exts == old(exts) + [ext]
      ensures ext.name.None? ==> r == Err(NameMissingMessage) && exts == old(exts)
    {
      if ext.name.None? {
        return Err(NameMissingMessage);
      }
      exts := exts + [ext];
      return Ok(());
    }

    /** `list`: the registered extensions in insertion order. */
    method List() returns (l: seq<Extension>)
      ensures l == exts
    {
      l := exts;
    }
  }

  // ---------------------------------------------------------------- modules

  /** A module-level attribute: absent, present but not callable, or a callable. */
  datatype Export<T> = Missing | NotCallableExport | CallableExport(value: T)

  /** A loaded extension module, reduced to the exports `_register_from_module` looks at.
      A `register` function is represented by the extensions it adds, in order. */
  datatype ExtModule = ExtModule(
    register: Export<seq<Extension>>,
    getExtension: Export<Extension>,
    upperExtension: Option<Extension>,
    lowerExtension: Option<Extension>)

  /** Why loading the extensions failed: the import itself, a module with none of the four
      exports (ImportError), or an added object without a name (TypeError). */
  datatype ExtError = ImportFailed(spec: string, message: string) | ContractError(message: string) | NameMissing

  const ContractMessage := "Extension must provide one of: register(registry) / get_extension() / EXTENSION / extension"

  /** The objects a module adds, by the precedence register, get_extension, EXTENSION,
      extension; None when it provides none of them. */
  function Contributed(m: ExtModule): (r: Option<seq<Extension>>)
    ensures m.register.CallableExport? ==> r == Some(m.register.value)
    ensures !m.register.CallableExport? && m.getExtension.CallableExport? ==> r == Some([m.getExtension.value])
    ensures r.None? <==>
      !m.register.CallableExport? && !m.getExtension.CallableExport? && m.upperExtension.None? && m.lowerExtension.None?
  {
    if m.register.CallableExport? then Some(m.register.value)
    else if m.getExtension.CallableExport? then Some([m.getExtension.value])
    else if m.upperExtension.Some? then Some([m.upperExtension.value])
    else if m.lowerExtension.Some? then Some([m.lowerExtension.value])
    else None
  }

  predicate AllNamed(exts: seq<Extension>)
  {
    forall i :: 0 <= i < |exts| ==> exts[i].name.Some?
  }

  /** The extensions before the first nameless one. */
  function NamedPrefix(exts: seq<Extension>): seq<Extension>
  {
    if exts == [] || exts[0].name.None? then []
    else [exts[0]] + NamedPrefix(exts[1..])
  }

  /** The named prefix is a prefix, every extension in it is named, and it is the whole list
      exactly when every extension is named. */
  lemma {:induction false} NamedPrefixFacts(exts: seq<Extension>)
    ensures |NamedPrefix(exts)| <= |exts| && NamedPrefix(exts) == exts[..|NamedPrefix(exts)|]
    ensures AllNamed(NamedPrefix(exts))
    ensures AllNamed(exts) <==> NamedPrefix(exts) == exts
  {
    if exts != [] && exts[0].name.Some? {
      var t := exts[1..];
      NamedPrefixFacts(t);
      var r := NamedPrefix(exts);
      assert r == [exts[0]] + NamedPrefix(t);
      assert exts == [exts[0]] + t;
      assert AllNamed(exts) <==> AllNamed(t) by {
        if AllNamed(t) {
          forall k | 0 <= k < |exts| ensures exts[k].name.Some? {
            if k > 0 {
              assert exts[k] == t[k - 1];
            }
          }
        }
        if AllNamed(exts) {
          forall k | 0 <= k < |t| ensures t[k].name.Some? {
            assert t[k] == exts[k + 1];
          }
        }
      }
    } else if exts != [] {
      assert !AllNamed(exts) by {
        assert exts[0].name.None?;
      }
    }
  }

  /** What one module adds to the registry, or why it fails. */
  function Contribution(m: ExtModule): (r: Result<seq<Extension>, ExtError>)
    ensures r == Err(ContractError(ContractMessage)) <==> Contributed(m).None?
    ensures r == Err(NameMissing) <==> Contributed(m).Some? && !AllNamed(Contributed(m).value)
    ensures r.Ok? ==> Contributed(m) == Some(r.value) && AllNamed(r.value)
  {
    match Contributed(m)
    case None => Err(ContractError(ContractMessage))
    case Some(adds) => if AllNamed(adds) then Ok(adds) else Err(NameMissing)
  }

  /** `_register_from_module`: register through the first export present, by precedence. */
  method RegisterFromModule(m: ExtModule, registry: ChatExtensionRegistry) returns (r: Result<(), ExtError>)
    modifies registry
    ensures Contributed(m).None? ==> r == Err(ContractError(ContractMessage)) && registry.exts == old(registry.exts)
    ensures Contributed(m).Some? ==>
      registry.exts == old(registry.exts) + NamedPrefix(Contributed(m).value)
      && (r.Ok? <==> AllNamed(Contributed(m).value))
      && (r.Ok? ==> registry.exts == old(registry.exts) + Contributed(m).value)
      && (r.Err? ==> r.error == NameMissing)
  {
    var adds: seq<Extension>;
    if m.register.CallableExport? {
      adds := m.register.value;
    } else if m.getExtension.CallableExport? {
      adds := [m.getExtension.value];
    } else if m.upperExtension.Some? {
      adds := [m.upperExtension.value];
    } else if m.lowerExtension.Some? {
      adds := [m.lowerExtension.value];
    } else {
      return Err(ContractError(ContractMessage));
    }
    r := AddAll(adds, registry);
  }

  /** The adds an export makes, in order; the first unnamed extension raises. */
  method AddAll(adds: seq<Extension>, registry: ChatExtensionRegistry) returns (r: Result<(), ExtError>)
    modifies registry
    ensures registry.exts == old(registry.exts) + NamedPrefix(adds)
    ensures r.Ok? <==> AllNamed(adds)
    ensures r.Ok? ==> registry.exts == old(registry.exts) + adds
    ensures r.Err? ==> r.error == NameMissing
  {
    for i := 0 to |adds|
      invariant registry.exts == old(registry.exts) + adds[..i]
      invariant AllNamed(adds[..i])
    {
      var added := registry.Add(adds[i]);
      if added.Err? {
        NamedPrefixSplit(adds, i);
        assert adds[i..][0] == adds[i];
        return Err(NameMissing);
      }
      assert adds[..i + 1] == adds[..i] + [adds[i]];
    }
    assert adds[..|adds|] == adds;
    NamedPrefixFacts(adds);
    return Ok(());
  }

  /** Past an all-named slice, the named prefix continues with that of the rest. */
  lemma {:induction false} NamedPrefixSplit(exts: seq<Extension>, i: nat)
    requires i <= |exts| && AllNamed(exts[..i])
    ensures NamedPrefix(exts) == exts[..i] + NamedPrefix(exts[i..])
    decreases i
  {
    if i > 0 {
      var t := exts[1..];
      assert exts[0].name.Some? by {
        assert exts[..i][0] == exts[0];
      }
      assert NamedPrefix(exts) == [exts[0]] + NamedPrefix(t);
      assert AllNamed(t[..i - 1]) by {
        forall k | 0 <= k < i - 1 ensures t[k].name.Some? {
          assert t[k] == exts[..i][k + 1];
        }
      }
      NamedPrefixSplit(t, i - 1);
      assert t[i - 1..] == exts[i..];
      assert exts[..i] == [exts[0]] + t[..i - 1];
    }
  }

  /** What importing a spec yields. */
  datatype ModuleLoad = ImportError(message: string) | Imported(ext: ExtModule)

  /** The extensions a list of specs registers, grouped by spec in spec order; the first failure wins. */
  function Loaded(specs: seq<string>, modules: string -> ModuleLoad): (r: Result<seq<Extension>, ExtError>)
    ensures specs == [] ==> r == Ok([])
    ensures r.Ok? ==> AllNamed(r.value)
    ensures r.Err? && r.error.ImportFailed? ==> r.error.spec in specs
  {
    if specs == [] then Ok([])
    else
      var spec := specs[|specs| - 1];
      match Loaded(specs[..|specs| - 1], modules)
      case Err(e) => Err(e)
      case Ok(prev) =>
        match modules(spec)
        case ImportError(msg) => Err(ImportFailed(spec, msg))
        case Imported(m) =>
          match Contribution(m)
          case Err(e) => Err(e)
          case Ok(adds) => Ok(prev + adds)
  }

  /** Once a prefix of the specs fails, loading the whole list fails the same way. */
  lemma {:induction false} LoadedFailurePersists(specs: seq<string>, i: nat, modules: string -> ModuleLoad)
    requires i <= |specs| && Loaded(specs[..i], modules).Err?
    ensures Loaded(specs, modules) == Loaded(specs[..i], modules)
    decreases |specs| - i
  {
    if i < |specs| {
      assert specs[..i + 1][..i] == specs[..i];
      LoadedFailurePersists(specs, i + 1, modules);
    } else {
      assert specs[..i] == specs;
    }
  }

  /** Loading two spec lists one after the other: the extensions of the first come first. */
  lemma {:induction false} LoadedAppend(a: seq<string>, b: seq<string>, modules: string -> ModuleLoad)
    requires Loaded(a, modules).Ok? && Loaded(b, modules).Ok?
    ensures Loaded(a + b, modules) == Ok(Loaded(a, modules).value + Loaded(b, modules).value)
    decreases |b|
  {
    if b == [] {
      assert a + b == a;
      assert Loaded(a, modules).value + [] == Loaded(a, modules).value;
    } else {
      var b' := b[..|b| - 1];
      assert (a + b)[..|a + b| - 1] == a + b';
      assert (a + b)[|a + b| - 1] == b[|b| - 1];
      LoadedOkStep(b, modules);
      LoadedAppend(a, b', modules);
      var m := modules(b[|b| - 1]).ext;
      var A, B', adds := Loaded(a, modules).value, Loaded(b', modules).value, Contribution(m).value;
      assert (A + B') + adds == A + (B' + adds);
    }
  }

  /** A successful load of a non-empty list: its prefix loaded, and its last module imported
      and contributing. */
  lemma LoadedOkStep(specs: seq<string>, modules: string -> ModuleLoad)
    requires specs != [] && Loaded(specs, modules).Ok?
    ensures var init, last := specs[..|specs| - 1], specs[|specs| - 1];
      Loaded(init, modules).Ok? && modules(last).Imported? && Contribution(modules(last).ext).Ok?
      && Loaded(specs, modules).value == Loaded(init, modules).value + Contribution(modules(last).ext).value
  {
  }

  /** `load_extensions`: a fresh registry fed by each spec's module in turn. */
  method LoadExtensions(specs: seq<string>, modules: string -> ModuleLoad) returns (r: Result<seq<Extension>, ExtError>)
    ensures r == Loaded(specs, modules)
  {
    var registry := new ChatExtensionRegistry();
    for i := 0 to |specs|
      invariant Loaded(specs[..i], modules) == Ok(registry.exts)
    {
      assert specs[..i + 1][..i] == specs[..i];
      var spec := specs[i];
      match modules(spec)
      case ImportError(msg) =>
        LoadedFailurePersists(specs, i + 1, modules);
        return Err(ImportFailed(spec, msg));
      case Imported(m) =>
        var registered := RegisterFromModule(m, registry);
        if registered.Err? {
          LoadedFailurePersists(specs, i + 1, modules);
          return Err(registered.error);
        }
    }
    assert specs[..|specs|] == specs;
    var listed := registry.List();
    return Ok(listed);
  }

  // ---------------------------------------------------------------- specs

  /** The entries of the `R9S_CHAT_EXTENSIONS` value: comma-separated, trimmed, blanks dropped. */
  function EnvSpecs(env: string): (r: seq<string>)
    ensures forall i :: 0 <= i < |r| ==> r[i] != "" && ',' !in r[i]
  {
    TrimmedNonBlank(Split(env, ','))
  }

  function TrimmedNonBlank(parts: seq<string>): (r: seq<string>)
    requires forall i :: 0 <= i < |parts| ==> ',' !in parts[i]
    ensures forall i :: 0 <= i < |r| ==> r[i] != "" && ',' !in r[i]
  {
    if parts == [] then []
    else
      var rest := TrimmedNonBlank(parts[1..]);
      if IsBlank(parts[0]) then rest
      else
        StripSubstring(parts[0]);
        [Strip(parts[0])] + rest
  }

  /** The CLI entries kept: the non-empty ones, in order. */
  function NonEmpty(specs: seq<string>): (r: seq<string>)
    ensures forall i :: 0 <= i < |r| ==> r[i] != ""
    ensures (forall i :: 0 <= i < |specs| ==> specs[i] != "") ==> r == specs
  {
    if specs == [] then [] else (if specs[0] == "" then [] else [specs[0]]) + NonEmpty(specs[1..])
  }

  /** `parse_extension_specs`, with `env` the variable's value ("" when unset). */
  function ParseExtensionSpecs(cli: seq<string>, env: string): (r: seq<string>)
    ensures r == EnvSpecs(env) + NonEmpty(cli)
    ensures forall i :: 0 <= i < |r| ==> r[i] != ""
  {
    EnvSpecs(env) + NonEmpty(cli)
  }

  /** Keeping the non-empty entries works piecewise, so relative order is kept. */
  lemma {:induction false} NonEmptyAppend(a: seq<string>, b: seq<string>)
    ensures NonEmpty(a + b) == NonEmpty(a) + NonEmpty(b)
  {
    if a == [] {
      assert a + b == b;
    } else {
      assert (a + b)[1..] == a[1..] + b;
      NonEmptyAppend(a[1..], b);
    }
  }

  /** Specs written into the variable comma-separated are read back as they were, when
      each is non-blank, unpadded and free of commas. */
  lemma EnvSpecsRoundTrip(specs: seq<string>)
    requires |specs| >= 1
    requires forall i :: 0 <= i < |specs| ==> ',' !in specs[i] && !IsBlank(specs[i]) && Strip(specs[i]) == specs[i]
    ensures EnvSpecs(JoinWith(specs, ',')) == specs
  {
    JoinSplit(specs, ',');
    TrimmedNonBlankOfClean(specs);
  }

  lemma {:induction false} TrimmedNonBlankOfClean(parts: seq<string>)
    requires forall i :: 0 <= i < |parts| ==> ',' !in parts[i] && !IsBlank(parts[i]) && Strip(parts[i]) == parts[i]
    ensures TrimmedNonBlank(parts) == parts
  {
    if parts != [] {
      TrimmedNonBlankOfClean(parts[1..]);
    }
  }
}
