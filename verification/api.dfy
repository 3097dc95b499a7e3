/**
 The request-shaping part of the API client: the name of the token-limit
 field, the defaults of the sampling parameters, the classification of a
 chat-completion call's outcome, and the mock model ids added to the model
 list. What the network answers is an input (`Fetched`), already decoded.
 */
module PlaygroundApi {
  import opened Types
  import opened Text

  /** One message of a chat-completion request. */
  datatype ChatMessage = ChatMessage(role: Role, content: string)

  /** The caller's options; `None` is an absent (null or undefined) field. */
  datatype Options = Options(
    model: string,
    messages: seq<ChatMessage>,
    temperature: Option<real>,
    maxTokens: Option<real>,
    topP: Option<real>,
    frequencyPenalty: Option<real>,
    presencePenalty: Option<real>)

  /** The token-limit part of the body: no field, `max_tokens` or `max_completion_tokens`. */
  datatype TokenLimit = NoLimit | MaxTokens(n: real) | MaxCompletionTokens(n: real)

  datatype RequestBody = RequestBody(
    model: string,
    messages: seq<ChatMessage>,
    temperature: real,
    tokenLimit: TokenLimit,
    topP: real,
    frequencyPenalty: real,
    presencePenalty: real)

  /** The model families that take `max_tokens`. */
  predicate UsesMaxTokens(model: string) {
    Contains(model, "gpt-3.5") || Contains(model, "gpt-4")
  }

  /**
   `getMaxTokensParam`: no field without a limit; otherwise the limit, unchanged,
   under `max_tokens` for the GPT-3.5 and GPT-4 families and under
   `max_completion_tokens` for every other model.
   */
  function MaxTokensParam(model: string, maxTokens: Option<real>): (r: TokenLimit)
    ensures r.NoLimit? <==> maxTokens.None?
    ensures maxTokens.Some? ==> r.n == maxTokens.value
    ensures r.MaxTokens? <==> maxTokens.Some? && UsesMaxTokens(model)
    ensures r.MaxCompletionTokens? <==> maxTokens.Some? && !UsesMaxTokens(model)
  {
    match maxTokens
    case None => NoLimit
    case Some(n) => if UsesMaxTokens(model) then MaxTokens(n) else MaxCompletionTokens(n)
  }

  /** A model takes `max_tokens` exactly when "gpt-3.5" or "gpt-4" occurs somewhere in its name. */
  lemma MaxTokensByOccurrence(model: string, n: real)
    ensures MaxTokensParam(model, Some(n)) == MaxTokens(n) <==>
      (exists i: nat :: OccursAt(model, "gpt-3.5", i) || OccursAt(model, "gpt-4", i))
  {
    ContainsIff(model, "gpt-3.5");
    ContainsIff(model, "gpt-4");
  }

  /**
   The request body: model and messages copied, the token limit chosen by
   model name, unset temperature and top-p defaulted to 1 and unset penalties
   to 0, given values passed through.
   */
  function BuildBody(opts: Options): (r: RequestBody)
    ensures r.model == opts.model && r.messages == opts.messages
    ensures r.tokenLimit == MaxTokensParam(opts.model, opts.maxTokens)
    ensures r.temperature == if opts.temperature.Some? then opts.temperature.value else 1.0
    ensures r.topP == if opts.topP.Some? then opts.topP.value else 1.0
    ensures r.frequencyPenalty == if opts.frequencyPenalty.Some? then opts.frequencyPenalty.value else 0.0
    ensures r.presencePenalty == if opts.presencePenalty.Some? then opts.presencePenalty.value else 0.0
  {
    RequestBody(
      opts.model,
      opts.messages,
      opts.temperature.GetOr(1.0),
      MaxTokensParam(opts.model, opts.maxTokens),
      opts.topP.GetOr(1.0),
      opts.frequencyPenalty.GetOr(0.0),
      opts.presencePenalty.GetOr(0.0))
  }

  /** A thrown JavaScript error: its `name` and `message`. */
  datatype JsError = JsError(name: string, message: string)

  /**
   `String(err)` for an error object, as `Error.prototype.toString` writes
   it: the text starts with the name and ends with the message, joined by
   ": " when both are present, and is empty only when both are.
   */
  function ErrorString(e: JsError): (r: string)
    ensures StartsWith(r, e.name)
    ensures |e.message| <= |r| && r[|r| - |e.message|..] == e.message
    ensures e.name != "" && e.message != "" ==> r == e.name + ": " + e.message
    ensures e.name == "" || e.message == "" ==> r == e.name + e.message
    ensures r == "" <==> e.name == "" && e.message == ""
  {
    if e.message == "" then e.name
    else if e.name == "" then e.message
    else e.name + ": " + e.message
  }

  /** What a `fetch` produced: a rejected promise, or a response with its decoded body. */
  datatype Fetched<T> =
    | NetworkFailure(err: JsError)
    | Response(status: nat, statusText: string, body: T)

  /** `Response.ok`. */
  predicate IsOk(status: nat) {
    200 <= status <= 299
  }

  datatype Usage = Usage(promptTokens: nat, completionTokens: nat)

  /**
   The parts of a chat-completion response the playground reads: the id,
   the first choice's message text and the usage block, each possibly absent.
   */
  datatype Completion = Completion(id: Option<string>, reply: Option<string>, usage: Option<Usage>)

  datatype Timed = Timed(data: Completion, timeMs: int)

  const NetworkPrefix: string := "Error de red o CORS: "
  const HttpPrefix: string := "Error en createChatCompletion: "

  /** A transport failure's message: the fixed prefix, then the error's own text, which can be read back. */
  function NetworkError(err: JsError): (r: string)
    ensures StartsWith(r, NetworkPrefix) && r[|NetworkPrefix|..] == ErrorString(err)
  {
    NetworkPrefix + ErrorString(err)
  }

  /** An HTTP failure's message: the fixed prefix, the decimal status right after it, and the status text at the end. */
  function HttpError(status: nat, statusText: string): (r: string)
    ensures StartsWith(r, HttpPrefix)
    ensures |HttpPrefix| + |Decimal(status)| + |statusText| < |r|
    ensures r[|HttpPrefix|..|HttpPrefix| + |Decimal(status)|] == Decimal(status)
    ensures r[|r| - |statusText|..] == statusText
  {
    HttpPrefix + Decimal(status) + " " + statusText
  }

  /** The HTTP error message carries the status code and the status text. */
  lemma HttpErrorMentionsStatus(status: nat, statusText: string)
    ensures Contains(HttpError(status, statusText), Decimal(status))
    ensures Contains(HttpError(status, statusText), statusText)
  {
    var s := HttpError(status, statusText);
    ContainsAt(s, Decimal(status), |HttpPrefix|);
    ContainsAt(s, statusText, |s| - |statusText|);
  }

  /** A transport failure and an HTTP failure can always be told apart by their messages. */
  lemma ErrorKindsDistinct(err: JsError, status: nat, statusText: string)
    ensures StartsWith(NetworkError(err), "Error de red o CORS: ")
    ensures !StartsWith(HttpError(status, statusText), "Error de red o CORS: ")
    ensures NetworkError(err) != HttpError(status, statusText)
  {
    var n, h := NetworkError(err), HttpError(status, statusText);
    assert n[6] == n[..|NetworkPrefix|][6] == NetworkPrefix[6] == 'd';
    assert h[6] == h[..|HttpPrefix|][6] == HttpPrefix[6] == 'e';
  }

  /**
   How a chat-completion call ends: a transport failure and a non-ok status
   become the two error messages, an ok status yields the body with the time
   from sending to the status. `t0` is the clock before the request is sent
   and `t1` the clock once a successful status has been seen.
   */
  function Outcome(fetched: Fetched<Completion>, t0: int, t1: int): (r: Result<Timed, string>)
    ensures r.Ok? <==> fetched.Response? && IsOk(fetched.status)
    ensures fetched.NetworkFailure? ==> r == Err(NetworkError(fetched.err))
    ensures fetched.Response? && !IsOk(fetched.status) ==> r == Err(HttpError(fetched.status, fetched.statusText))
    ensures r.Ok? ==> r.value.data == fetched.body && r.value.timeMs == t1 - t0
  {
    match fetched
    case NetworkFailure(err) => Err(NetworkError(err))
    case Response(status, statusText, body) =>
      if IsOk(status) then Ok(Timed(body, t1 - t0)) else Err(HttpError(status, statusText))
  }

  /** `createChatCompletion`: the body it sends and how the call ends. */
  method CreateChatCompletion(opts: Options, fetched: Fetched<Completion>, t0: int, t1: int)
    returns (body: RequestBody, r: Result<Timed, string>)
    ensures body == BuildBody(opts)
    ensures r == Outcome(fetched, t0, t1)
  {
    var maxTokensParam := MaxTokensParam(opts.model, opts.maxTokens);
    body := RequestBody(
      opts.model,
      opts.messages,
      opts.temperature.GetOr(1.0),
      maxTokensParam,
      opts.topP.GetOr(1.0),
      opts.frequencyPenalty.GetOr(0.0),
      opts.presencePenalty.GetOr(0.0));
    if fetched.NetworkFailure? {
      return body, Err(NetworkError(fetched.err));
    }
    if !IsOk(fetched.status) {
      return body, Err(HttpError(fetched.status, fetched.statusText));
    }
    var timeMs := t1 - t0;
    r := Ok(Timed(fetched.body, timeMs));
  }

  /** One entry of the model list. */
  datatype ModelEntry = ModelEntry(id: string, object: string)

  const MockIds: seq<string> := ["tts-1", "tts-1-hd", "image-dalle", "whisper-1"]

  predicate HasId(list: seq<ModelEntry>, id: string) {
    exists j :: 0 <= j < |list| && list[j].id == id
  }

  predicate UniqueIds(list: seq<ModelEntry>) {
    forall i, j :: 0 <= i < j < |list| ==> list[i].id != list[j].id
  }

  predicate DistinctStrings(ids: seq<string>) {
    forall i, j :: 0 <= i < j < |ids| ==> ids[i] != ids[j]
  }

  /**
   `checkAndPush` on a list value: afterwards the id is present; the list is
   kept as a prefix and gains an entry only when the id was missing.
   */
  function PushIfAbsent(list: seq<ModelEntry>, id: string): (r: seq<ModelEntry>)
    ensures HasId(r, id) && list <= r && |r| <= |list| + 1
    ensures HasId(list, id) ==> r == list
  {
    if HasId(list, id) then list
    else
      var r := list + [ModelEntry(id, "model")];
      assert r[|list|].id == id;
      r
  }

  /** The ids pushed in order: the list is kept as a prefix and gains at most one entry per id. */
  function InjectAll(list: seq<ModelEntry>, ids: seq<string>): (r: seq<ModelEntry>)
    ensures list <= r && |r| <= |list| + |ids|
    decreases |ids|
  {
    if ids == [] then list
    else
      var pushed := PushIfAbsent(list, ids[0]);
      var r := InjectAll(pushed, ids[1..]);
      assert r[..|list|] == pushed[..|list|];
      r
  }

  /** The list `injectMockModels` leaves behind: the old list followed by at most the four mock entries. */
  function WithMockModels(list: seq<ModelEntry>): (r: seq<ModelEntry>)
    ensures list <= r && |r| <= |list| + 4
  {
    InjectAll(list, MockIds)
  }

  /** The ids of `ids` that `list` lacks, in order. */
  function Missing(list: seq<ModelEntry>, ids: seq<string>): seq<string> {
    if ids == [] then []
    else (if HasId(list, ids[0]) then [] else [ids[0]]) + Missing(list, ids[1..])
  }

  function Entries(ids: seq<string>): (r: seq<ModelEntry>)
    ensures |r| == |ids| && forall i :: 0 <= i < |ids| ==> r[i] == ModelEntry(ids[i], "model")
  {
    seq(|ids|, i requires 0 <= i < |ids| => ModelEntry(ids[i], "model"))
  }

  /** Adding an entry for `id` does not change which other ids are missing. */
  lemma {:induction false} MissingAfterPush(list: seq<ModelEntry>, id: string, ids: seq<string>)
    requires id !in ids
    ensures Missing(list + [ModelEntry(id, "model")], ids) == Missing(list, ids)
  {
    if ids != [] {
      var list' := list + [ModelEntry(id, "model")];
      assert HasId(list', ids[0]) ==> HasId(list, ids[0]) by {
        if HasId(list', ids[0]) {
          var j :| 0 <= j < |list'| && list'[j].id == ids[0];
          assert j < |list| && list[j] == list'[j];
        }
      }
      assert HasId(list, ids[0]) ==> HasId(list', ids[0]) by {
        if HasId(list, ids[0]) {
          var j :| 0 <= j < |list| && list[j].id == ids[0];
          assert list'[j] == list[j];
        }
      }
      MissingAfterPush(list, id, ids[1..]);
    }
  }

  lemma DistinctTail(ids: seq<string>)
    requires ids != [] && DistinctStrings(ids)
    ensures ids[0] !in ids[1..] && DistinctStrings(ids[1..])
  {
  }

  lemma EntriesCons(head: string, tail: seq<string>)
    ensures Entries([head] + tail) == [ModelEntry(head, "model")] + Entries(tail)
  {
  }

  /** One step of injection and of `Missing` when the first id is already present. */
  lemma PresentHead(list: seq<ModelEntry>, ids: seq<string>)
    requires ids != [] && HasId(list, ids[0])
    ensures InjectAll(list, ids) == InjectAll(list, ids[1..])
    ensures Missing(list, ids) == Missing(list, ids[1..])
  {
  }

  /** One step of injection and of `Missing` when the first id is absent. */
  lemma AbsentHead(list: seq<ModelEntry>, ids: seq<string>)
    requires ids != [] && !HasId(list, ids[0])
    ensures InjectAll(list, ids) == InjectAll(list + [ModelEntry(ids[0], "model")], ids[1..])
    ensures Missing(list, ids) == [ids[0]] + Missing(list, ids[1..])
  {
  }

  /**
   Injection keeps every existing entry in place and appends, in table
   order, one entry for each id the list lacks.
   */
  lemma {:induction false} InjectAllShape(list: seq<ModelEntry>, ids: seq<string>)
    requires DistinctStrings(ids)
    ensures InjectAll(list, ids) == list + Entries(Missing(list, ids))
    decreases |ids|
  {
    if ids != [] {
      var rest := ids[1..];
      var head := ids[0];
      DistinctTail(ids);
      if HasId(list, head) {
        assert InjectAll(list, ids) == list + Entries(Missing(list, ids)) by {
          PresentHead(list, ids);
          InjectAllShape(list, rest);
        }
      } else {
        var entry := ModelEntry(head, "model");
        var tail := Missing(list, rest);
        assert InjectAll(list, ids) == (list + [entry]) + Entries(tail) by {
          AbsentHead(list, ids);
          InjectAllShape(list + [entry], rest);
          MissingAfterPush(list, head, rest);
        }
        assert Missing(list, ids) == [head] + tail by {
          AbsentHead(list, ids);
        }
        EntriesCons(head, tail);
        assert (list + [entry]) + Entries(tail) == list + ([entry] + Entries(tail));
      }
    }
  }

  /** After injection every listed id is present. */
  lemma {:induction false} InjectAllPresent(list: seq<ModelEntry>, ids: seq<string>)
    ensures forall x :: x in ids ==> HasId(InjectAll(list, ids), x)
    ensures forall x :: HasId(list, x) ==> HasId(InjectAll(list, ids), x)
    decreases |ids|
  {
    if ids != [] {
      var pushed := PushIfAbsent(list, ids[0]);
      assert HasId(pushed, ids[0]) by {
        if !HasId(list, ids[0]) {
          assert pushed[|list|].id == ids[0];
        }
      }
      forall x | HasId(list, x) ensures HasId(pushed, x) {
        var j :| 0 <= j < |list| && list[j].id == x;
        assert pushed[j] == list[j];
      }
      InjectAllPresent(pushed, ids[1..]);
      assert forall x :: x in ids ==> x == ids[0] || x in ids[1..];
    }
  }

  /** A list that already has every id is left as it is. */
  lemma {:induction false} MissingNone(list: seq<ModelEntry>, ids: seq<string>)
    requires forall x :: x in ids ==> HasId(list, x)
    ensures Missing(list, ids) == []
  {
    if ids != [] {
      MissingNone(list, ids[1..]);
    }
  }

  /** Injection never introduces a duplicate id. */
  lemma {:induction false} InjectAllUnique(list: seq<ModelEntry>, ids: seq<string>)
    requires UniqueIds(list)
    ensures UniqueIds(InjectAll(list, ids))
    decreases |ids|
  {
    if ids != [] {
      var pushed := PushIfAbsent(list, ids[0]);
      assert UniqueIds(pushed) by {
        if !HasId(list, ids[0]) {
          forall i, j | 0 <= i < j < |pushed| ensures pushed[i].id != pushed[j].id {
            if j == |list| {
              assert pushed[i] == list[i];
            } else {
              assert pushed[i] == list[i] && pushed[j] == list[j];
            }
          }
        }
      }
      InjectAllUnique(pushed, ids[1..]);
    }
  }

  lemma MockIdsDistinct()
    ensures DistinctStrings(MockIds)
  {
    assert MockIds[0][4] == '1' && MockIds[1][4] == '1' && MockIds[1][5] == '-';
  }

  /**
   The four mock models end up present; existing entries keep their place
   and the missing mock ids are appended in table order.
   */
  lemma MockModelsShape(list: seq<ModelEntry>)
    ensures WithMockModels(list) == list + Entries(Missing(list, MockIds))
    ensures forall x :: x in MockIds ==> HasId(WithMockModels(list), x)
  {
    MockIdsDistinct();
    InjectAllShape(list, MockIds);
    InjectAllPresent(list, MockIds);
  }

  /** Injecting twice gives the same list as injecting once. */
  lemma MockModelsIdempotent(list: seq<ModelEntry>)
    ensures WithMockModels(WithMockModels(list)) == WithMockModels(list)
  {
    var once := WithMockModels(list);
    assert Missing(once, MockIds) == [] by {
      MockModelsShape(list);
      MissingNone(once, MockIds);
    }
    assert InjectAll(once, MockIds) == once + Entries(Missing(once, MockIds)) by {
      MockIdsDistinct();
      InjectAllShape(once, MockIds);
    }
    assert Entries([]) == [];
  }

  /** A list without duplicate ids stays without duplicates. */
  lemma MockModelsUnique(list: seq<ModelEntry>)
    requires UniqueIds(list)
    ensures UniqueIds(WithMockModels(list))
  {
    InjectAllUnique(list, MockIds);
  }

  /** `injectMockModels` as the four checks it performs, one after another. */
  lemma MockModelsSteps(list: seq<ModelEntry>)
    ensures WithMockModels(list)
      == PushIfAbsent(PushIfAbsent(PushIfAbsent(PushIfAbsent(list, "tts-1"), "tts-1-hd"), "image-dalle"), "whisper-1")
  {
    assert MockIds[1..][1..][1..][1..] == [];
  }

  /** The `data` array of a model-list response, updated in place by `injectMockModels`. */
  class ModelList {
    var data: seq<ModelEntry>

    constructor (entries: seq<ModelEntry>)
      ensures data == entries
    {
      data := entries;
    }

    method CheckAndPush(id: string)
      modifies this`data
      ensures data == PushIfAbsent(old(data), id)
    {
      if !HasId(data, id) {
        data := data + [ModelEntry(id, "model")];
      }
    }

    method InjectMockModels()
      modifies this`data
      ensures data == WithMockModels(old(data))
    {
      MockModelsSteps(data);
      CheckAndPush("tts-1");
      CheckAndPush("tts-1-hd");
      CheckAndPush("image-dalle");
      CheckAndPush("whisper-1");
    }
  }

  const ListPrefix: string := "Error al listar modelos: "

  /** A failed listing's message: the fixed prefix, the decimal status right after it, and the status text at the end. */
  function ListError(status: nat, statusText: string): (r: string)
    ensures StartsWith(r, ListPrefix)
    ensures |ListPrefix| + |Decimal(status)| + |statusText| < |r|
    ensures r[|ListPrefix|..|ListPrefix| + |Decimal(status)|] == Decimal(status)
    ensures r[|r| - |statusText|..] == statusText
  {
    ListPrefix + Decimal(status) + " " + statusText
  }

  /**
   `listModels`: the transport error is passed on unchanged, a non-ok status
   becomes an error naming it, and an ok body is returned with the mock
   models injected.
   */
  method ListModels(fetched: Fetched<seq<ModelEntry>>) returns (r: Result<seq<ModelEntry>, JsError>)
    ensures fetched.NetworkFailure? ==> r == Err(fetched.err)
    ensures fetched.Response? && !IsOk(fetched.status) ==>
      r == Err(JsError("Error", ListError(fetched.status, fetched.statusText)))
    ensures fetched.Response? && IsOk(fetched.status) ==>
      r.Ok? && r.value == WithMockModels(fetched.body)
      && fetched.body <= r.value
      && forall x :: x in MockIds ==> HasId(r.value, x)
  {
    if fetched.NetworkFailure? {
      return Err(fetched.err);
    }
    if !IsOk(fetched.status) {
      return Err(JsError("Error", ListError(fetched.status, fetched.statusText)));
    }
    var list := new ModelList(fetched.body);
    list.InjectMockModels();
    MockModelsShape(fetched.body);
    r := Ok(list.data);
  }
}
