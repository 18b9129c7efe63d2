/** Chat sessions on disk: the JSON history file format (a bare message array, or an
    object with `meta` and `messages`), coercion of stored entries to messages, saving,
    and the newest-first session listing used by `chat resume`. */
module SessionStore {
  import opened Wrappers
  import opened Text
  import opened Json
  import Paths

  datatype Role = System | User | Assistant | Tool

  function RoleName(r: Role): string
  {
    match r
    case System => "system"
    case User => "user"
    case Assistant => "assistant"
    case Tool => "tool"
  }

  /** The role a stored string names, if it is one of the four accepted roles. */
  function RoleOf(s: string): (r: Option<Role>)
    ensures r.Some? <==> s in {"system", "user", "assistant", "tool"}
    ensures r.Some? ==> RoleName(r.value) == s
  {
    if s == "system" then Some(System)
    else if s == "user" then Some(User)
    else if s == "assistant" then Some(Assistant)
    else if s == "tool" then Some(Tool)
    else None
  }

  lemma RoleOfName(r: Role)
    ensures RoleOf(RoleName(r)) == Some(r)
  {
  }

  datatype Message = Message(role: Role, content: string)

  datatype SessionMeta = SessionMeta(
    sessionId: string,
    createdAt: string,
    updatedAt: string,
    baseUrl: string,
    model: string,
    systemPrompt: Option<string>)

  datatype SessionRecord = SessionRecord(meta: SessionMeta, messages: seq<Message>)

  /** What opening a history file yields: the file cannot be read, or its text went through `json.loads`. */
  datatype StoredFile = Unreadable | Stored(parsed: Parsed)

  /** The three ways loading fails: the read raised, the text is not JSON (a ValueError
      carrying the decoder's message), or the shape is wrong (a TypeError). */
  datatype LoadError = ReadFailed | NotJson(message: string) | NotArray

  const NotArrayMessage := "history is not a JSON array"

  /** The message one stored entry becomes, or None when `_coerce_messages` drops it. */
  function MessageOf(item: Json): (r: Option<Message>)
    ensures r.Some? <==>
      item.Obj? && "role" in item.fields && item.fields["role"].Str? && RoleOf(item.fields["role"].s).Some?
      && "content" in item.fields && item.fields["content"].Str?
    ensures r.Some? ==>
      RoleName(r.value.role) == item.fields["role"].s && r.value.content == item.fields["content"].s
  {
    match item
    case Obj(f) =>
      (match (Get(f, "role"), Get(f, "content"))
       case (Some(Str(role)), Some(Str(content))) =>
         (match RoleOf(role)
          case Some(r) => Some(Message(r, content))
          case None => None)
       case _ => None)
    case _ => None
  }

  /** The messages kept from a stored array, in order. */
  function Coerced(items: seq<Json>): (r: seq<Message>)
    ensures |r| <= |items|
  {
    if items == [] then []
    else
      Coerced(items[..|items| - 1])
      + (match MessageOf(items[|items| - 1]) case Some(m) => [m] case None => [])
  }

  /** When every entry is well formed, none is dropped. */
  lemma {:induction false} CoercedAllKept(items: seq<Json>)
    requires forall i :: 0 <= i < |items| ==> MessageOf(items[i]).Some?
    ensures |Coerced(items)| == |items|
  {
    if items != [] {
      var init := items[..|items| - 1];
      assert forall i :: 0 <= i < |init| ==> init[i] == items[i];
      CoercedAllKept(init);
      assert MessageOf(items[|items| - 1]).Some?;
    }
  }

  /** `_coerce_messages`: a non-array raises; otherwise every well-formed entry is kept, in order. */
  method CoerceMessages(value: Json) returns (r: Result<seq<Message>, LoadError>)
    ensures !value.Arr? ==> r == Err(NotArray)
    ensures value.Arr? ==> r == Ok(Coerced(value.items))
  {
    if !value.Arr? {
      return Err(NotArray);
    }
    var items := value.items;
    var out: seq<Message> := [];
    for i := 0 to |items|
      invariant out == Coerced(items[..i])
    {
      var item := items[i];
      assert items[..i + 1][..i] == items[..i];
      assert Coerced(items[..i + 1]) == out + (match MessageOf(item) case Some(m) => [m] case None => []);
      if item.Obj? {
        var role := Get(item.fields, "role");
        var content := Get(item.fields, "content");
        if role.Some? && role.value.Str? && RoleOf(role.value.s).Some? && content.Some? && content.value.Str? {
          out := out + [Message(RoleOf(role.value.s).value, content.value.s)];
        }
      }
    }
    assert items[..|items|] == items;
    return Ok(out);
  }

  /** Coercion distributes over concatenation of stored arrays. */
  lemma {:induction false} CoercedAppend(a: seq<Json>, b: seq<Json>)
    ensures Coerced(a + b) == Coerced(a) + Coerced(b)
    decreases |b|
  {
    if b == [] {
      assert a + b == a;
    } else {
      assert (a + b)[..|a + b| - 1] == a + b[..|b| - 1];
      CoercedAppend(a, b[..|b| - 1]);
    }
  }

  /** Every coerced message comes from a well-formed entry of the array. */
  lemma {:induction false} CoercedFromItems(items: seq<Json>)
    ensures forall m :: m in Coerced(items) ==> exists i :: 0 <= i < |items| && MessageOf(items[i]) == Some(m)
  {
    if items != [] {
      var init := items[..|items| - 1];
      CoercedFromItems(init);
      forall m | m in Coerced(items)
        ensures exists i :: 0 <= i < |items| && MessageOf(items[i]) == Some(m)
      {
        if m in Coerced(init) {
          var i :| 0 <= i < |init| && MessageOf(init[i]) == Some(m);
          assert items[i] == init[i];
        } else {
          assert MessageOf(items[|items| - 1]) == Some(m);
        }
      }
    }
  }

  /** How a message is written to the history file. */
  function EncodeMessage(m: Message): Json
  {
    Obj(map["role" := Str(RoleName(m.role)), "content" := Str(m.content)])
  }

  function EncodeMessages(ms: seq<Message>): seq<Json>
  {
    seq(|ms|, i requires 0 <= i < |ms| => EncodeMessage(ms[i]))
  }

  /** Coercing what was saved gives the saved messages back. */
  lemma {:induction false} CoercedEncoded(ms: seq<Message>)
    ensures Coerced(EncodeMessages(ms)) == ms
  {
    if ms != [] {
      var init := ms[..|ms| - 1];
      assert EncodeMessages(ms)[..|ms| - 1] == EncodeMessages(init);
      CoercedEncoded(init);
      RoleOfName(ms[|ms| - 1].role);
    }
  }

  function EncodeMeta(meta: SessionMeta): (r: Json)
    ensures r.Obj? && r.fields.Keys == {"session_id", "created_at", "updated_at", "base_url", "model", "system_prompt"}
    ensures r.fields["system_prompt"].Null? <==> meta.systemPrompt.None?
  {
    Obj(map[
      "session_id" := Str(meta.sessionId),
      "created_at" := Str(meta.createdAt),
      "updated_at" := Str(meta.updatedAt),
      "base_url" := Str(meta.baseUrl),
      "model" := Str(meta.model),
      "system_prompt" := (match meta.systemPrompt case Some(s) => Str(s) case None => Null)])
  }

  /** `_save_history`: the JSON value written, an object holding `meta` and `messages`,
      whose messages coerce back to exactly the record's messages. */
  function SavePayload(rec: SessionRecord): (r: Json)
    ensures r.Obj? && r.fields.Keys == {"meta", "messages"}
    ensures r.fields["messages"].Arr? && Coerced(r.fields["messages"].items) == rec.messages
  {
    CoercedEncoded(rec.messages);
    Obj(map["meta" := EncodeMeta(rec.meta), "messages" := Arr(EncodeMessages(rec.messages))])
  }

  /** The meta block of an object history, with the defaults `_load_history` fills in: a
      loaded session always has an id and timestamps when its defaults are non-empty, and
      never an empty system prompt. */
  function MetaOf(meta: map<string, Json>, stem: string, now: string): (r: SessionMeta)
    ensures stem != "" ==> r.sessionId != ""
    ensures now != "" ==> r.createdAt != "" && r.updatedAt != ""
    ensures r.systemPrompt != Some("")
  {
    SessionMeta(
      PyStr(GetOr(meta, "session_id", Str(stem))),
      PyStr(GetOr(meta, "created_at", Str(now))),
      PyStr(GetOr(meta, "updated_at", Str(now))),
      PyStr(GetOr(meta, "base_url", Str(""))),
      PyStr(GetOr(meta, "model", Str(""))),
      if "system_prompt" in meta && Truthy(meta["system_prompt"]) then Some(PyStr(meta["system_prompt"])) else None)
  }

  /** Each field of a loaded meta block: a truthy stored value through `str()`, else the
      default (the file stem for the id, the clock for the times, "" for URL and model,
      `None` for the prompt). */
  lemma MetaOfFields(meta: map<string, Json>, stem: string, now: string)
    ensures var r := MetaOf(meta, stem, now);
      && r.sessionId == (if "session_id" in meta && Truthy(meta["session_id"]) then PyStr(meta["session_id"]) else stem)
      && r.createdAt == (if "created_at" in meta && Truthy(meta["created_at"]) then PyStr(meta["created_at"]) else now)
      && r.updatedAt == (if "updated_at" in meta && Truthy(meta["updated_at"]) then PyStr(meta["updated_at"]) else now)
      && r.baseUrl == (if "base_url" in meta && Truthy(meta["base_url"]) then PyStr(meta["base_url"]) else "")
      && r.model == (if "model" in meta && Truthy(meta["model"]) then PyStr(meta["model"]) else "")
      && r.systemPrompt == (if "system_prompt" in meta && Truthy(meta["system_prompt"]) then Some(PyStr(meta["system_prompt"])) else None)
  {
  }

  /** A missing or non-object meta block reads as {}: every field takes its default. */
  lemma MetaOfEmpty(stem: string, now: string)
    ensures MetaOf(map[], stem, now) == SessionMeta(stem, now, now, "", "", None)
  {
  }

  /** A non-empty string field is kept as it is; a falsy value of any type gives the default. */
  lemma MetaStringKept(meta: map<string, Json>, key: string, default: string)
    ensures key in meta && meta[key].Str? && meta[key].s != "" ==> PyStr(GetOr(meta, key, Str(default))) == meta[key].s
    ensures !(key in meta && Truthy(meta[key])) ==> PyStr(GetOr(meta, key, Str(default))) == default
  {
  }

  /** An object history file without a usable meta block loads with the default meta. */
  lemma LoadWithoutMeta(path: string, now: string, f: map<string, Json>)
    requires "messages" !in f || f["messages"].Arr?
    requires "meta" !in f || !f["meta"].Obj?
    ensures Load(path, now, Stored(Decoded(Obj(f)))).Ok?
    ensures Load(path, now, Stored(Decoded(Obj(f)))).value.meta == SessionMeta(PathStem(path), now, now, "", "", None)
  {
    MetaOfEmpty(PathStem(path), now);
  }

  /** The stem of a history path: the name of its last component without the suffix. */
  function PathStem(path: string): string
  {
    Paths.Stem(Paths.Name(path))
  }

  /** `_load_history` on the file at `path`, with `now` standing for the clock. */
  function Load(path: string, now: string, file: StoredFile): (r: Result<SessionRecord, LoadError>)
    ensures file.Unreadable? ==> r == Err(ReadFailed)
    ensures file.Stored? && file.parsed.Malformed? ==> r == Err(NotJson(file.parsed.message))
    ensures file.Stored? && file.parsed.Decoded? ==>
      var v := file.parsed.value;
      (r.Ok? <==> v.Arr? || (v.Obj? && ("messages" !in v.fields || v.fields["messages"].Arr?)))
      && (r.Err? ==> r.error == NotArray)
    ensures r.Ok? && file.parsed.value.Arr? ==>
      r.value == SessionRecord(SessionMeta(PathStem(path), now, now, "", "", None), Coerced(file.parsed.value.items))
    ensures r.Ok? && file.parsed.value.Obj? ==>
      r.value.messages == (if "messages" in file.parsed.value.fields then Coerced(file.parsed.value.fields["messages"].items) else [])
    ensures r.Ok? && file.parsed.value.Obj? ==>
      var f := file.parsed.value.fields;
      r.value.meta == MetaOf(if "meta" in f && f["meta"].Obj? then f["meta"].fields else map[], PathStem(path), now)
  {
    match file
    case Unreadable => Err(ReadFailed)
    case Stored(Malformed(msg)) => Err(NotJson(msg))
    case Stored(Decoded(Arr(items))) =>
      Ok(SessionRecord(SessionMeta(PathStem(path), now, now, "", "", None), Coerced(items)))
    case Stored(Decoded(Obj(f))) =>
      var messages := if "messages" in f then f["messages"] else Arr([]);
      if !messages.Arr? then Err(NotArray)
      else
        var meta := if "meta" in f && f["meta"].Obj? then f["meta"].fields else map[];
        Ok(SessionRecord(MetaOf(meta, PathStem(path), now), Coerced(messages.items)))
    case Stored(Decoded(_)) => Err(NotArray)
  }

  /** A meta block survives a save and a load exactly when no empty field would be
      replaced by a default on the way back. */
  predicate MetaSurvives(meta: SessionMeta, stem: string, now: string)
  {
    (meta.sessionId != "" || stem == "")
    && (meta.createdAt != "" || now == "")
    && (meta.updatedAt != "" || now == "")
    && meta.systemPrompt != Some("")
  }

  /** Saving a record and loading it back gives the same messages, always. */
  lemma SaveLoadMessages(rec: SessionRecord, path: string, now: string)
    ensures Load(path, now, Stored(Decoded(SavePayload(rec)))).Ok?
    ensures Load(path, now, Stored(Decoded(SavePayload(rec)))).value.messages == rec.messages
  {
  }

  /** Saving a record and loading it back gives the same record exactly when its meta
      has no empty field that loading would replace by a default. */
  lemma SaveLoadRoundTrip(rec: SessionRecord, path: string, now: string)
    ensures Load(path, now, Stored(Decoded(SavePayload(rec)))) == Ok(rec) <==> MetaSurvives(rec.meta, PathStem(path), now)
  {
    MetaOfEncoded(rec.meta, PathStem(path), now);
  }

  /** What loading makes of a saved meta block: each empty field replaced by its default. */
  lemma MetaOfEncoded(meta: SessionMeta, stem: string, now: string)
    ensures MetaOf(EncodeMeta(meta).fields, stem, now) == SessionMeta(
      if meta.sessionId != "" then meta.sessionId else stem,
      if meta.createdAt != "" then meta.createdAt else now,
      if meta.updatedAt != "" then meta.updatedAt else now,
      meta.baseUrl,
      meta.model,
      if meta.systemPrompt == Some("") then None else meta.systemPrompt)
  {
    var m := EncodeMeta(meta).fields;
    StrDefault(m, "session_id", meta.sessionId, stem);
    StrDefault(m, "created_at", meta.createdAt, now);
    StrDefault(m, "updated_at", meta.updatedAt, now);
    StrDefault(m, "base_url", meta.baseUrl, "");
    StrDefault(m, "model", meta.model, "");
  }

  lemma StrDefault(m: map<string, Json>, key: string, s: string, default: string)
    requires key in m && m[key] == Str(s)
    ensures PyStr(GetOr(m, key, Str(default))) == if s != "" then s else default
  {
  }

  // ---------------------------------------------------------------- listing

  /** One `*.json` file in the history directory, with its modification time. */
  datatype SessionFile = SessionFile(path: string, mtime: int, file: StoredFile)

  datatype SessionInfo = SessionInfo(path: string, updatedAt: string, display: string)

  predicate NewestFirstOrder(fs: seq<SessionFile>)
  {
    forall i, j :: 0 <= i < j < |fs| ==> fs[i].mtime >= fs[j].mtime
  }

  /** Place `f` after every file at least as new, before the first older one. */
  function InsertByMtime(f: SessionFile, fs: seq<SessionFile>): (r: seq<SessionFile>)
    ensures multiset(r) == multiset(fs) + multiset{f}
    ensures |r| == |fs| + 1
    ensures forall x :: x in r ==> x in fs || x == f
    ensures NewestFirstOrder(fs) ==> NewestFirstOrder(r)
  {
    if fs == [] then [f]
    else if fs[0].mtime < f.mtime then [f] + fs
    else
      var rest := InsertByMtime(f, fs[1..]);
      assert fs == [fs[0]] + fs[1..];
      InsertKeepsHead(fs[0], f, fs[1..], rest);
      [fs[0]] + rest
  }

  lemma InsertKeepsHead(h: SessionFile, f: SessionFile, tail: seq<SessionFile>, rest: seq<SessionFile>)
    requires f.mtime <= h.mtime
    requires forall x :: x in rest ==> x in tail || x == f
    requires NewestFirstOrder([h] + tail) ==> NewestFirstOrder(rest)
    ensures NewestFirstOrder([h] + tail) ==> NewestFirstOrder([h] + rest)
  {
    if NewestFirstOrder([h] + tail) {
      var r := [h] + rest;
      forall i, j | 0 <= i < j < |r| ensures r[i].mtime >= r[j].mtime {
        if i == 0 {
          assert r[0] == h && r[j] == rest[j - 1];
          assert r[j] in rest;
          if r[j] in tail {
            var k :| 0 <= k < |tail| && tail[k] == r[j];
            assert ([h] + tail)[k + 1] == r[j] && ([h] + tail)[0] == h;
          }
        } else {
          assert r[i] == rest[i - 1] && r[j] == rest[j - 1];
        }
      }
    }
  }

  /** `sorted(..., key=mtime, reverse=True)`: a permutation, newest first. */
  function NewestFirst(fs: seq<SessionFile>): (r: seq<SessionFile>)
    ensures multiset(r) == multiset(fs)
    ensures |r| == |fs|
    ensures NewestFirstOrder(r)
  {
    if fs == [] then []
    else
      assert fs == fs[..|fs| - 1] + [fs[|fs| - 1]];
      InsertByMtime(fs[|fs| - 1], NewestFirst(fs[..|fs| - 1]))
  }

  /** The most recent user message's content, if any. */
  function LastUserContent(ms: seq<Message>): (r: Option<string>)
    ensures r.None? <==> forall i :: 0 <= i < |ms| ==> ms[i].role != User
    ensures r.Some? ==> exists i :: 0 <= i < |ms| && ms[i] == Message(User, r.value)
                                 && (forall j :: i < j < |ms| ==> ms[j].role != User)
  {
    if ms == [] then None
    else if ms[|ms| - 1].role == User then Some(ms[|ms| - 1].content)
    else LastUserContent(ms[..|ms| - 1])
  }

  const PreviewWidth := 60

  /** The listing's preview: the last user message on one line, cut to 60 characters plus '…'. */
  function Preview(ms: seq<Message>): (p: string)
    ensures '\n' !in p
    ensures |p| <= PreviewWidth + 1
    ensures LastUserContent(ms).None? ==> p == ""
    ensures LastUserContent(ms).Some? && |LastUserContent(ms).value| <= PreviewWidth ==>
      p == ReplaceChar(LastUserContent(ms).value, '\n', ' ')
    ensures LastUserContent(ms).Some? && |LastUserContent(ms).value| > PreviewWidth ==>
      |p| == PreviewWidth + 1 && p[PreviewWidth] == '…'
      && p[..PreviewWidth] == ReplaceChar(LastUserContent(ms).value, '\n', ' ')[..PreviewWidth]
  {
    match LastUserContent(ms)
    case None => ""
    case Some(c) =>
      var flat := ReplaceChar(c, '\n', ' ');
      if |flat| > PreviewWidth then flat[..PreviewWidth] + "…" else flat
  }

  /** The preview shown for a session's messages. */
  method PreviewOf(ms: seq<Message>) returns (p: string)
    ensures p == Preview(ms)
  {
    var found := FindLastUser(ms);
    p := "";
    if found.Some? {
      var flat := ReplaceChar(found.value, '\n', ' ');
      p := if |flat| > PreviewWidth then flat[..PreviewWidth] + "…" else flat;
    }
  }

  /** The `reversed(messages)` search with `break`. */
  method FindLastUser(ms: seq<Message>) returns (found: Option<string>)
    ensures found == LastUserContent(ms)
  {
    found := None;
    var i := |ms|;
    while i > 0 && found.None?
      invariant 0 <= i <= |ms|
      invariant found.None? ==> LastUserContent(ms) == LastUserContent(ms[..i])
      invariant found.Some? ==> LastUserContent(ms) == found
      decreases i
    {
      assert ms[..i][..i - 1] == ms[..i - 1] && ms[..i][i - 1] == ms[i - 1];
      if ms[i - 1].role == User {
        found := Some(ms[i - 1].content);
      }
      i := i - 1;
    }
  }

  /** How one session is shown in the resume list. */
  function Summary(path: string, rec: SessionRecord): (s: SessionInfo)
    ensures s.path == path && s.updatedAt == rec.meta.updatedAt
    ensures StartsWith(s.display, Paths.Name(path) + "  [" + rec.meta.updatedAt + "]  ")
  {
    var base := if rec.meta.baseUrl == "" then "?" else rec.meta.baseUrl;
    var model := if rec.meta.model == "" then "?" else rec.meta.model;
    var preview := Preview(rec.messages);
    var head := Paths.Name(path) + "  [" + rec.meta.updatedAt + "]  ";
    var line := head + (model + "  " + base);
    assert line[..|head|] == head;
    if preview == "" then SessionInfo(path, rec.meta.updatedAt, line)
    else
      var shown := line + ("  - " + preview);
      assert shown[..|head|] == head by { assert shown[..|line|] == line; }
      SessionInfo(path, rec.meta.updatedAt, shown)
  }

  /** A file the listing keeps: one that loads. */
  predicate Loads(f: SessionFile, now: string)
  {
    Load(f.path, now, f.file).Ok?
  }

  /** The listing of files already in display order: a summary of each loadable file, skipping the rest. */
  function Summaries(fs: seq<SessionFile>, now: string): seq<SessionInfo>
  {
    if fs == [] then []
    else
      var f := fs[|fs| - 1];
      Summaries(fs[..|fs| - 1], now)
      + (match Load(f.path, now, f.file) case Ok(rec) => [Summary(f.path, rec)] case Err(_) => [])
  }

  /** The loadable files, in order. */
  function LoadableFiles(fs: seq<SessionFile>, now: string): seq<SessionFile>
  {
    if fs == [] then []
    else LoadableFiles(fs[..|fs| - 1], now) + (if Loads(fs[|fs| - 1], now) then [fs[|fs| - 1]] else [])
  }

  /** `_list_sessions` over the directory's `*.json` files, with `now` for the clock. */
  method ListSessions(files: seq<SessionFile>, now: string) returns (out: seq<SessionInfo>)
    ensures out == Summaries(NewestFirst(files), now)
  {
    var ordered := NewestFirst(files);
    out := [];
    for i := 0 to |ordered|
      invariant out == Summaries(ordered[..i], now)
    {
      assert ordered[..i + 1][..i] == ordered[..i];
      var f := ordered[i];
      var loaded := Load(f.path, now, f.file);
      if loaded.Ok? {
        var info := SummaryOf(f.path, loaded.value);
        out := out + [info];
      }
    }
    assert ordered[..|ordered|] == ordered;
  }

  /** The loop body's entry for one loaded session. */
  method SummaryOf(path: string, rec: SessionRecord) returns (info: SessionInfo)
    ensures info == Summary(path, rec)
  {
    var base := if rec.meta.baseUrl == "" then "?" else rec.meta.baseUrl;
    var model := if rec.meta.model == "" then "?" else rec.meta.model;
    var preview := PreviewOf(rec.messages);
    var head := Paths.Name(path) + "  [" + rec.meta.updatedAt + "]  ";
    var display := head + (model + "  " + base);
    if preview != "" {
      display := display + ("  - " + preview);
    }
    info := SessionInfo(path, rec.meta.updatedAt, display);
  }

  /** The listing has one entry per loadable file, in the same order, carrying its path. */
  lemma {:induction false} SummariesOfLoadable(fs: seq<SessionFile>, now: string)
    ensures |Summaries(fs, now)| == |LoadableFiles(fs, now)|
    ensures forall i :: 0 <= i < |Summaries(fs, now)| ==>
      var f := LoadableFiles(fs, now)[i];
      Loads(f, now) && Summaries(fs, now)[i] == Summary(f.path, Load(f.path, now, f.file).value)
  {
    if fs != [] {
      SummariesOfLoadable(fs[..|fs| - 1], now);
    }
  }

  /** The loadable files are exactly the files that load, and keep their relative order. */
  lemma {:induction false} LoadableFilesKept(fs: seq<SessionFile>, now: string)
    ensures forall f :: f in LoadableFiles(fs, now) <==> f in fs && Loads(f, now)
    ensures NewestFirstOrder(fs) ==> NewestFirstOrder(LoadableFiles(fs, now))
  {
    if fs != [] {
      var init := fs[..|fs| - 1];
      LoadableFilesKept(init, now);
      assert fs == init + [fs[|fs| - 1]];
      if NewestFirstOrder(fs) {
        assert NewestFirstOrder(init);
        var r := LoadableFiles(fs, now);
        if Loads(fs[|fs| - 1], now) {
          forall i, j | 0 <= i < j < |r| ensures r[i].mtime >= r[j].mtime {
            if j == |r| - 1 {
              assert r[i] in LoadableFiles(init, now);
              var k :| 0 <= k < |init| && init[k] == r[i];
              assert fs[k] == r[i];
            }
          }
        }
      }
    }
  }

  /** What the resume list shows: every loadable session, newest first, each once per file. */
  lemma ListingNewestFirst(files: seq<SessionFile>, now: string)
    ensures var src := LoadableFiles(NewestFirst(files), now);
      var out := Summaries(NewestFirst(files), now);
      |out| == |src|
      && NewestFirstOrder(src)
      && (forall f :: f in src <==> f in files && Loads(f, now))
      && (forall i :: 0 <= i < |out| ==> out[i].path == src[i].path)
  {
    var ordered := NewestFirst(files);
    SummariesOfLoadable(ordered, now);
    LoadableFilesKept(ordered, now);
    forall f ensures f in ordered <==> f in files {
      assert f in ordered <==> f in multiset(ordered);
    }
  }

  // ---------------------------------------------------------------- resume

  datatype ResumeOutcome = NoSessions | Chosen(path: string) | InputEnded

  /** What the selection loop promises after reading `asked` of the `answers` over the
      listed `sessions`: every answer before the last one read was rejected; a chosen session
      is the one the last answer numbers; input ends exactly when every answer was rejected. */
  predicate SelectedBy(sessions: seq<SessionInfo>, answers: seq<string>, r: ResumeOutcome, asked: nat)
  {
    && !r.NoSessions? && asked <= |answers|
    && (forall k :: 0 <= k < asked - 1 ==> ChoiceIndex(Strip(answers[k]), |sessions|).None?)
    && (r.Chosen? ==>
          && 1 <= asked
          && var choice := ChoiceIndex(Strip(answers[asked - 1]), |sessions|);
             choice.Some? && r.path == sessions[choice.value].path)
    && (r.InputEnded? <==>
          asked == |answers| && forall k :: 0 <= k < |answers| ==> ChoiceIndex(Strip(answers[k]), |sessions|).None?)
  }

  /** A chosen session is one of those listed. */
  lemma SelectedIsListed(sessions: seq<SessionInfo>, answers: seq<string>, r: ResumeOutcome, asked: nat)
    requires SelectedBy(sessions, answers, r, asked) && r.Chosen?
    ensures exists s :: s in sessions && s.path == r.path
  {
    var choice := ChoiceIndex(Strip(answers[asked - 1]), |sessions|);
    assert sessions[choice.value] in sessions;
  }

  /** The selection loop: read answers until one is the number of a listed session;
      `asked` is how many answers were read. Input ending first is `InputEnded`. */
  method SelectSession(sessions: seq<SessionInfo>, answers: seq<string>) returns (r: ResumeOutcome, asked: nat)
    requires sessions != []
    ensures SelectedBy(sessions, answers, r, asked)
  {
    asked := 0;
    while asked < |answers|
      invariant 0 <= asked <= |answers|
      invariant forall k :: 0 <= k < asked ==> ChoiceIndex(Strip(answers[k]), |sessions|).None?
    {
      var choice := ChoiceIndex(Strip(answers[asked]), |sessions|);
      if choice.Some? {
        return Chosen(sessions[choice.value].path), asked + 1;
      }
      asked := asked + 1;
    }
    return InputEnded, asked;
  }

  /** `_resume_select_session`: nothing to offer when the history directory is missing or
      lists no loadable session; otherwise the selection loop over the listing, newest first. */
  method ResumeSelect(rootExists: bool, files: seq<SessionFile>, now: string, answers: seq<string>)
    returns (r: ResumeOutcome, asked: nat)
    ensures r.NoSessions? <==> !rootExists || Summaries(NewestFirst(files), now) == []
    ensures r.NoSessions? ==> asked == 0
    ensures !r.NoSessions? ==> SelectedBy(Summaries(NewestFirst(files), now), answers, r, asked)
  {
    if !rootExists {
      return NoSessions, 0;
    }
    var sessions := ListSessions(files, now);
    if sessions == [] {
      return NoSessions, 0;
    }
    r, asked := SelectSession(sessions, answers);
  }
}
