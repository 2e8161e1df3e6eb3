/**
 * gigachat_client.py: layered settings, the credentials gate of
 * `_create_client`, and `generate_reply` (the wire message list, the single
 * chat call, and the unwrap of the `{"answer": {"user": ...}}` envelope).
 *
 * What the outside world supplies is an input: the process environment, the
 * Streamlit secrets (or the absence of Streamlit), the outcome of the TLS
 * pre-flight request, and the outcome of the SDK's chat call together with what
 * `json.loads` makes of the returned text.
 */
module GigaChatClient {
  import opened Wrappers
  import opened Values
  import State
  import Config

  // ---------------------------------------------------------------------------
  // Settings

  /** A settings dictionary: keys `credentials`, `scope`, `model`, `ca_bundle_file`. */
  type Settings = map<string, Option<string>>

  const SettingKeys: set<string> := {"credentials", "scope", "model", "ca_bundle_file"}

  const DefaultModel: string := "GigaChat-2"

  /** Whether `import streamlit` succeeded, and if so the sections of `st.secrets`. */
  datatype SecretsStore = NoStreamlit | Streamlit(sections: map<string, map<string, string>>)

  /** `os.environ.get(name)` */
  function EnvVar(environ: map<string, string>, name: string): Option<string> {
    if name in environ then Some(environ[name]) else None
  }

  /** `_get_settings_from_env()` */
  function EnvSettings(environ: map<string, string>): (s: Settings)
    ensures s.Keys == SettingKeys
    ensures s["credentials"] == EnvVar(environ, "GIGACHAT_CREDENTIALS")
    ensures s["scope"] == EnvVar(environ, "GIGACHAT_SCOPE")
    ensures s["ca_bundle_file"] == EnvVar(environ, "GIGACHAT_CA_BUNDLE_FILE")
    // the model is never missing: GIGACHAT_MODEL, else the default
    ensures s["model"].Some?
    ensures "GIGACHAT_MODEL" in environ ==> s["model"] == Some(environ["GIGACHAT_MODEL"])
    ensures "GIGACHAT_MODEL" !in environ ==> s["model"] == Some(DefaultModel)
  {
    map[
      "credentials" := EnvVar(environ, "GIGACHAT_CREDENTIALS"),
      "scope" := EnvVar(environ, "GIGACHAT_SCOPE"),
      "model" := Some(EnvVar(environ, "GIGACHAT_MODEL").GetOr(DefaultModel)),
      "ca_bundle_file" := EnvVar(environ, "GIGACHAT_CA_BUNDLE_FILE")]
  }

  /** Whether `st.secrets` has a `gigachat` section. */
  predicate HasSection(store: SecretsStore) {
    store.Streamlit? && "gigachat" in store.sections
  }

  /** `cfg.get(key)` on the `gigachat` section. */
  function SectionValue(store: SecretsStore, key: string): Option<string>
    requires HasSection(store)
  {
    var cfg := store.sections["gigachat"];
    if key in cfg then Some(cfg[key]) else None
  }

  /** `_get_settings_from_streamlit()` */
  function SecretsSettings(store: SecretsStore): (s: Settings)
    // empty exactly when there is no Streamlit or no section
    ensures s == map[] <==> !HasSection(store)
    ensures HasSection(store) ==> s.Keys == SettingKeys
    ensures HasSection(store) ==>
      && s["credentials"] == SectionValue(store, "credentials")
      && s["scope"] == SectionValue(store, "scope")
      && s["ca_bundle_file"] == SectionValue(store, "ca_bundle_file")
    // with a section, the model is always a value: the section's, else the default
    ensures HasSection(store) ==> s["model"] == Some(SectionValue(store, "model").GetOr(DefaultModel))
  {
    if !HasSection(store) then map[]
    else
      var s := map[
        "credentials" := SectionValue(store, "credentials"),
        "scope" := SectionValue(store, "scope"),
        "model" := Some(SectionValue(store, "model").GetOr(DefaultModel)),
        "ca_bundle_file" := SectionValue(store, "ca_bundle_file")];
      assert "model" in s;
      s
  }

  /** Whether `over` replaces the entry for `k`: it has one, and it is not `None`. */
  predicate Overrides(over: Settings, k: string) {
    k in over && over[k].Some?
  }

  /**
   * `base` with every entry of `over` whose value is not `None` written over
   * it. An empty string is not `None`, so it overrides too.
   */
  function Overlay(base: Settings, over: Settings): (r: Settings)
    ensures forall k :: k in r <==> k in base || Overrides(over, k)
    ensures forall k :: Overrides(over, k) ==> r[k] == over[k]
    ensures forall k :: k in base && !Overrides(over, k) ==> r[k] == base[k]
  {
    map k | k in base.Keys + over.Keys && (k in base || Overrides(over, k)) ::
      if Overrides(over, k) then over[k] else base[k]
  }

  /**
   * What `_resolve_settings()` returns: per key, the secret when it is not
   * `None`, else the environment's value.
   */
  function LayeredSettings(environ: map<string, string>, store: SecretsStore): (r: Settings)
    ensures r.Keys == SettingKeys
    ensures forall k :: k in r && Overrides(SecretsSettings(store), k) ==> r[k] == SecretsSettings(store)[k]
    ensures forall k :: k in r && !Overrides(SecretsSettings(store), k) ==> r[k] == EnvSettings(environ)[k]
  {
    if store.NoStreamlit? then EnvSettings(environ)
    else Overlay(EnvSettings(environ), SecretsSettings(store))
  }

  /** `_resolve_settings()`: start from the environment, then let every non-`None` secret win. */
  method ResolveSettings(environ: map<string, string>, store: SecretsStore) returns (settings: Settings)
    ensures settings == LayeredSettings(environ, store)
  {
    settings := EnvSettings(environ);
    if store.Streamlit? {
      var secrets := SecretsSettings(store);
      ghost var base := settings;
      var pending := secrets.Keys;
      while pending != {}
        invariant pending <= secrets.Keys
        invariant forall k :: k in settings <==> k in base || (Overrides(secrets, k) && k !in pending)
        invariant forall k :: k in settings ==>
          settings[k] == if Overrides(secrets, k) && k !in pending then secrets[k] else base[k]
        decreases pending
      {
        var key :| key in pending;
        if secrets[key].Some? {
          settings := settings[key := secrets[key]];
        }
        pending := pending - {key};
      }
      assert settings == Overlay(base, secrets);
    }
  }

  /** Without Streamlit, or without a `gigachat` section, the environment alone decides. */
  lemma NoSectionMeansEnv(environ: map<string, string>, store: SecretsStore)
    requires !HasSection(store)
    ensures LayeredSettings(environ, store) == EnvSettings(environ)
  {
  }

  /** With a section, the section decides `model`, even where the environment names one. */
  lemma SectionAlwaysSetsModel(environ: map<string, string>, store: SecretsStore)
    requires HasSection(store)
    ensures LayeredSettings(environ, store)["model"] == Some(SectionValue(store, "model").GetOr(DefaultModel))
  {
  }

  /** A secret present in the section wins over the environment, an empty string included. */
  lemma SecretWins(environ: map<string, string>, store: SecretsStore, key: string)
    requires HasSection(store) && key in SettingKeys && key in store.sections["gigachat"]
    ensures LayeredSettings(environ, store)[key] == Some(store.sections["gigachat"][key])
  {
  }

  /** A key the section leaves out keeps the environment's value. */
  lemma EnvFillsGaps(environ: map<string, string>, store: SecretsStore, key: string)
    requires HasSection(store) && key in SettingKeys - {"model"} && key !in store.sections["gigachat"]
    ensures LayeredSettings(environ, store)[key] == EnvSettings(environ)[key]
  {
  }

  /** The resolved settings always hold a model. */
  lemma LayeredComplete(environ: map<string, string>, store: SecretsStore)
    ensures LayeredSettings(environ, store)["model"].Some?
  {
  }

  // ---------------------------------------------------------------------------
  // The client gate

  /** The TLS pre-flight `requests.get`: passed, failed on the certificate, or failed otherwise. */
  datatype Preflight = PreflightPassed | PreflightSslError(detail: string) | PreflightOtherError

  /** The arguments the `GigaChat` client is constructed with. */
  datatype ClientConfig = ClientConfig(credentials: string, scope: string, model: Option<string>, caBundleFile: Option<string>)

  const MissingCredentialsError: string :=
    "Не заданы параметры GigaChat (credentials/scope). "
    + "Укажите их в st.secrets['gigachat'] или в переменных окружения."

  /** Python's f-string rendering of an optional text. */
  function Render(v: Option<string>): string {
    match v
    case Some(t) => t
    case None => "None"
  }

  /** The error raised when the pre-flight request fails certificate validation; it names the bundle path. */
  function SslFailureError(caBundleFile: Option<string>, detail: string): string {
    "Ошибка проверки SSL-сертификата GigaChat. "
    + "Проверь ca_bundle_file='" + Render(caBundleFile) + "': " + detail
  }

  /** `settings.get(key)` */
  function Setting(settings: Settings, key: string): Option<string> {
    if key in settings then settings[key] else None
  }

  /** Python truthiness of an optional text: present and non-empty. */
  predicate Filled(v: Option<string>) {
    v.Some? && v.value != ""
  }

  /** `if not credentials or not scope` does not fire. */
  predicate HasCredentials(settings: Settings) {
    Filled(Setting(settings, "credentials")) && Filled(Setting(settings, "scope"))
  }

  /** `_create_client()` once the settings are resolved. */
  function ClientGate(settings: Settings, preflight: Preflight): (r: Result<ClientConfig, string>)
    // missing or empty credentials or scope: fails, whatever the network would do
    ensures !Filled(Setting(settings, "credentials")) || !Filled(Setting(settings, "scope")) ==>
      r == Failure(MissingCredentialsError)
    // otherwise only a certificate failure of the pre-flight stops it
    ensures Filled(Setting(settings, "credentials")) && Filled(Setting(settings, "scope")) ==>
      (r.Failure? <==> preflight.PreflightSslError?)
    ensures Filled(Setting(settings, "credentials")) && Filled(Setting(settings, "scope")) && preflight.PreflightSslError? ==>
      r == Failure(SslFailureError(Setting(settings, "ca_bundle_file"), preflight.detail))
    ensures r.Success? ==>
      && Some(r.value.credentials) == Setting(settings, "credentials")
      && Some(r.value.scope) == Setting(settings, "scope")
      && r.value.model == Get(settings, "model", Some(DefaultModel))
      && r.value.caBundleFile == Setting(settings, "ca_bundle_file")
  {
    var credentials := Setting(settings, "credentials");
    var scope := Setting(settings, "scope");
    var model := Get(settings, "model", Some(DefaultModel));
    var caBundleFile := Setting(settings, "ca_bundle_file");
    if !Filled(credentials) || !Filled(scope) then
      Failure(MissingCredentialsError)
    else if preflight.PreflightSslError? then
      Failure(SslFailureError(caBundleFile, preflight.detail))
    else
      Success(ClientConfig(credentials.value, scope.value, model, caBundleFile))
  }

  /** Where credentials or scope are missing the outcome does not depend on the pre-flight request. */
  lemma GateIgnoresNetwork(settings: Settings, p: Preflight, q: Preflight)
    requires !Filled(Setting(settings, "credentials")) || !Filled(Setting(settings, "scope"))
    ensures ClientGate(settings, p) == ClientGate(settings, q)
  {
  }

  /**
   * Credentials and scope in the environment, no `gigachat` section, and a
   * pre-flight that does not fail on the certificate: the client is created.
   */
  lemma EnvCredentialsPass(environ: map<string, string>, store: SecretsStore, preflight: Preflight)
    requires Filled(EnvVar(environ, "GIGACHAT_CREDENTIALS")) && Filled(EnvVar(environ, "GIGACHAT_SCOPE"))
    requires !HasSection(store) && !preflight.PreflightSslError?
    ensures HasCredentials(LayeredSettings(environ, store))
    ensures ClientGate(LayeredSettings(environ, store), preflight).Success?
  {
    NoSectionMeansEnv(environ, store);
  }

  /** `_create_client()` */
  method CreateClient(environ: map<string, string>, store: SecretsStore, preflight: Preflight)
    returns (client: Result<ClientConfig, string>)
    ensures client == ClientGate(LayeredSettings(environ, store), preflight)
  {
    var settings := ResolveSettings(environ, store);
    client := ClientGate(settings, preflight);
  }

  // ---------------------------------------------------------------------------
  // The wire message list

  /** `MessagesRole` */
  datatype Role = User | Assistant | System

  /** One `Messages(role=..., content=...)` of the SDK. */
  datatype WireMessage = WireMessage(role: Role, content: Value)

  /** The role string each SDK role stands for. */
  function RoleName(role: Role): string {
    match role
    case User => "user"
    case Assistant => "assistant"
    case System => "system"
  }

  /** The role chosen for a transcript entry's `role` value: unknown values become USER. */
  function CoerceRole(role: Value): (r: Role)
    ensures r == Assistant <==> role == VStr("assistant")
    ensures r == System <==> role == VStr("system")
    ensures r == User <==> role != VStr("assistant") && role != VStr("system")
  {
    if role == VStr("user") then User
    else if role == VStr("assistant") then Assistant
    else if role == VStr("system") then System
    else User
  }

  /** Coercion inverts `RoleName`: each role's own string maps back to it. */
  lemma CoerceRoleName(role: Role)
    ensures CoerceRole(VStr(RoleName(role))) == role
  {
  }

  /** The SDK message built for one transcript entry: a missing role is "user", missing content "". */
  function ToWire(m: State.Message): (w: WireMessage)
    ensures "role" in m ==> w.role == CoerceRole(m["role"])
    ensures "role" !in m ==> w.role == User
    ensures "content" !in m ==> w.content == VStr("")
    ensures "content" in m ==> w.content == m["content"]
  {
    WireMessage(CoerceRole(Get(m, "role", VStr("user"))), Get(m, "content", VStr("")))
  }

  /** An entry made by `add_message` goes out with its own role and content; metadata is dropped. */
  lemma ToWireOfNewMessage(role: string, content: Value, meta: map<string, Value>)
    requires "role" !in meta && "content" !in meta
    ensures ToWire(State.NewMessage(role, content, meta)) == WireMessage(CoerceRole(VStr(role)), content)
  {
  }

  /** `if system_prompt:` */
  predicate HasSystemPrompt(systemPrompt: Option<string>) {
    systemPrompt.Some? && systemPrompt.value != ""
  }

  /** The `sdk_messages` list `generate_reply` sends. */
  function WireMessages(systemPrompt: Option<string>, messages: seq<State.Message>): (ws: seq<WireMessage>)
    ensures |ws| == |messages| + (if HasSystemPrompt(systemPrompt) then 1 else 0)
    ensures HasSystemPrompt(systemPrompt) ==> ws[0] == WireMessage(System, VStr(systemPrompt.value))
    ensures forall i :: 0 <= i < |messages| ==>
      ws[i + (if HasSystemPrompt(systemPrompt) then 1 else 0)] == ToWire(messages[i])
  {
    (if HasSystemPrompt(systemPrompt) then [WireMessage(System, VStr(systemPrompt.value))] else [])
    + seq(|messages|, i requires 0 <= i < |messages| => ToWire(messages[i]))
  }

  /** The loop of `generate_reply` that builds `sdk_messages`. */
  method BuildWireMessages(systemPrompt: Option<string>, messages: seq<State.Message>)
    returns (sdkMessages: seq<WireMessage>)
    ensures sdkMessages == WireMessages(systemPrompt, messages)
  {
    sdkMessages := [];
    if systemPrompt.Some? && systemPrompt.value != "" {
      sdkMessages := sdkMessages + [WireMessage(System, VStr(systemPrompt.value))];
    }
    ghost var offset := |sdkMessages|;
    var i := 0;
    while i < |messages|
      invariant 0 <= i <= |messages|
      invariant |sdkMessages| == offset + i
      invariant offset == (if HasSystemPrompt(systemPrompt) then 1 else 0)
      invariant HasSystemPrompt(systemPrompt) ==> sdkMessages[0] == WireMessage(System, VStr(systemPrompt.value))
      invariant forall j :: 0 <= j < i ==> sdkMessages[offset + j] == ToWire(messages[j])
    {
      var m := messages[i];
      var roleStr := Get(m, "role", VStr("user"));
      var role: Role;
      if roleStr == VStr("user") {
        role := User;
      } else if roleStr == VStr("assistant") {
        role := Assistant;
      } else if roleStr == VStr("system") {
        role := System;
      } else {
        role := User;
      }
      sdkMessages := sdkMessages + [WireMessage(role, Get(m, "content", VStr("")))];
      i := i + 1;
    }
    assert |sdkMessages| == |WireMessages(systemPrompt, messages)|;
  }

  // ---------------------------------------------------------------------------
  // The reply

  /** What `json.loads(raw_content)` gives: a decode error, or a value. */
  datatype Decoded = NotJson | Json(value: Value)

  /** The text of the `AttributeError` raised by calling `.get` on a non-dictionary. */
  function NoGetError(v: Value): string {
    "'" + TypeName(v) + "' object has no attribute 'get'"
  }

  /** `data.get("answer", {})` once `data` is known to be a dictionary. */
  function Answer(data: map<string, Value>): Value {
    Get(data, "answer", VDict(map[]))
  }

  /**
   * The unwrap at the end of `generate_reply`: the truthy `answer.user`, else
   * the raw text. Only a decode error is caught; a non-dictionary at the top
   * or under `answer` raises `AttributeError`, which is a `Failure` here.
   */
  function UnwrapReply(raw: string, decoded: Decoded): (r: Result<Value, string>)
    // not JSON: the raw text, never an exception
    ensures decoded.NotJson? ==> r == Success(VStr(raw))
    // it raises exactly for a non-dictionary top level or a non-dictionary `answer`
    ensures r.Failure? <==>
      decoded.Json? && (!decoded.value.VDict? || !Answer(decoded.value.entries).VDict?)
    ensures r.Failure? && !decoded.value.VDict? ==> r.error == NoGetError(decoded.value)
    ensures r.Failure? && decoded.value.VDict? ==> r.error == NoGetError(Answer(decoded.value.entries))
    // a truthy `answer.user` under a dictionary `answer` is the result, whatever its type
    ensures decoded.Json? && decoded.value.VDict? && Answer(decoded.value.entries).VDict? ==>
      var user := Get(Answer(decoded.value.entries).entries, "user", VNone);
      Truthy(user) ==> r == Success(user)
    // anything other than the raw text is a truthy `answer.user`
    ensures r.Success? && r.value != VStr(raw) ==>
      && decoded.Json? && decoded.value.VDict?
      && "answer" in decoded.value.entries && decoded.value.entries["answer"].VDict?
      && "user" in decoded.value.entries["answer"].entries
      && r.value == decoded.value.entries["answer"].entries["user"]
      && Truthy(r.value)
  {
    match decoded
    case NotJson => Success(VStr(raw))
    case Json(data) =>
      if !data.VDict? then Failure(NoGetError(data))
      else
        var answer := Answer(data.entries);
        if !answer.VDict? then Failure(NoGetError(answer))
        else
          var user := Get(answer.entries, "user", VNone);
          if Truthy(user) then Success(user) else Success(VStr(raw))
  }

  /** `{"answer": {"reasoning": ..., "user": ...}}` */
  function Envelope(reasoning: Value, user: Value): Value {
    VDict(map["answer" := VDict(map["reasoning" := reasoning, "user" := user])])
  }

  /** A well-formed envelope with a non-empty `user` text unwraps to that text. */
  lemma EnvelopeRoundTrip(raw: string, reasoning: Value, user: string)
    requires user != ""
    ensures UnwrapReply(raw, Json(Envelope(reasoning, VStr(user)))) == Success(VStr(user))
  {
  }

  /** A dictionary without `answer`, or an `answer` without a truthy `user`, gives the raw text. */
  lemma OtherShapesFallBack(raw: string, data: map<string, Value>)
    requires "answer" !in data || (data["answer"].VDict? && !Truthy(Get(data["answer"].entries, "user", VNone)))
    ensures UnwrapReply(raw, Json(VDict(data))) == Success(VStr(raw))
  {
  }

  // ---------------------------------------------------------------------------
  // generate_reply

  /** What the chat call did: returned a first choice's text (and its decoding), or raised. */
  datatype ChatOutcome = ChatReturned(raw: string, decoded: Decoded) | ChatRaised(text: string)

  /** The `Chat(...)` payload. */
  datatype ChatPayload = ChatPayload(messages: seq<WireMessage>, temperature: Value, maxTokens: Value, model: Option<string>)

  /** The collaborators `generate_reply` reaches: environment, secrets, pre-flight outcome. */
  datatype Environment = Environment(environ: map<string, string>, secrets: SecretsStore, preflight: Preflight)

  /** `model_name or settings.get("model", "GigaChat-2")` */
  function EffectiveModel(modelName: Option<string>, settings: Settings): Option<string> {
    if Filled(modelName) then modelName else Get(settings, "model", Some(DefaultModel))
  }

  /**
   * The model a request names: the caller's non-empty model name, else the
   * `gigachat` section's model (even where `GIGACHAT_MODEL` is set), else
   * `GIGACHAT_MODEL`, else "GigaChat-2". There always is one.
   */
  lemma EffectiveModelSources(modelName: Option<string>, environ: map<string, string>, store: SecretsStore)
    ensures EffectiveModel(modelName, LayeredSettings(environ, store)).Some?
    ensures Filled(modelName) ==> EffectiveModel(modelName, LayeredSettings(environ, store)) == modelName
    ensures !Filled(modelName) && HasSection(store) ==>
      EffectiveModel(modelName, LayeredSettings(environ, store)) == Some(SectionValue(store, "model").GetOr(DefaultModel))
    ensures !Filled(modelName) && !HasSection(store) ==>
      EffectiveModel(modelName, LayeredSettings(environ, store)) == Some(EnvVar(environ, "GIGACHAT_MODEL").GetOr(DefaultModel))
  {
    if HasSection(store) {
      SectionAlwaysSetsModel(environ, store);
    } else {
      NoSectionMeansEnv(environ, store);
    }
  }

  /**
   * What `generate_reply` returns or raises for a given environment and chat
   * outcome: the configuration error, the certificate error, the chat call's
   * exception, or its unwrapped text.
   */
  function ExpectedReply(env: Environment, outcome: ChatOutcome): (r: Result<Value, string>)
    ensures !HasCredentials(LayeredSettings(env.environ, env.secrets)) ==> r == Failure(MissingCredentialsError)
    ensures HasCredentials(LayeredSettings(env.environ, env.secrets)) && env.preflight.PreflightSslError? ==>
      r == Failure(SslFailureError(Setting(LayeredSettings(env.environ, env.secrets), "ca_bundle_file"), env.preflight.detail))
    ensures HasCredentials(LayeredSettings(env.environ, env.secrets)) && !env.preflight.PreflightSslError? ==>
      && (outcome.ChatRaised? ==> r == Failure(outcome.text))
      && (outcome.ChatReturned? ==> r == UnwrapReply(outcome.raw, outcome.decoded))
  {
    match ClientGate(LayeredSettings(env.environ, env.secrets), env.preflight)
    case Failure(e) => Failure(e)
    case Success(_) =>
      match outcome
      case ChatRaised(text) => Failure(text)
      case ChatReturned(raw, decoded) => UnwrapReply(raw, decoded)
  }

  /**
   * With credentials and a pre-flight that passes the certificate check, a
   * provider text that decodes to a well-formed envelope makes
   * `generate_reply` return the envelope's `user` text.
   */
  lemma EnvelopeAnswered(env: Environment, raw: string, reasoning: Value, answer: string)
    requires HasCredentials(LayeredSettings(env.environ, env.secrets)) && !env.preflight.PreflightSslError?
    requires answer != ""
    ensures ExpectedReply(env, ChatReturned(raw, Json(Envelope(reasoning, VStr(answer))))) == Success(VStr(answer))
  {
    EnvelopeRoundTrip(raw, reasoning, answer);
  }

  /**
   * `generate_reply(messages, model_params, system_prompt, model_name)`.
   * `sent` is the payload handed to `client.chat`, `None` when the client could
   * not be created; `reply` is the returned value or the raised exception's text.
   */
  method GenerateReply(
    messages: seq<State.Message>,
    modelParams: Option<map<string, Value>>,
    systemPrompt: Option<string>,
    modelName: Option<string>,
    env: Environment,
    outcome: ChatOutcome)
    returns (sent: Option<ChatPayload>, reply: Result<Value, string>)
    ensures reply == ExpectedReply(env, outcome)
    // a payload goes out exactly when the client could be created
    ensures sent.Some? <==> ClientGate(LayeredSettings(env.environ, env.secrets), env.preflight).Success?
    ensures sent.Some? ==>
      var params := modelParams.GetOr(Config.DefaultModelParams);
      && sent.value.messages == WireMessages(systemPrompt, messages)
      && sent.value.temperature == Get(params, "temperature", VFloat(0.5))
      && sent.value.maxTokens == Get(params, "max_tokens", VInt(1024))
      && sent.value.model == EffectiveModel(modelName, LayeredSettings(env.environ, env.secrets))
  {
    var params := if modelParams.None? then Config.DefaultModelParams else modelParams.value;
    var settings := ResolveSettings(env.environ, env.secrets);
    var effectiveModel := if modelName.Some? && modelName.value != "" then modelName
                          else Get(settings, "model", Some(DefaultModel));
    var sdkMessages := BuildWireMessages(systemPrompt, messages);
    var payload := ChatPayload(
      sdkMessages,
      Get(params, "temperature", VFloat(0.5)),
      Get(params, "max_tokens", VInt(1024)),
      effectiveModel);
    var client := CreateClient(env.environ, env.secrets, env.preflight);
    if client.Failure? {
      return None, Failure(client.error);
    }
    sent := Some(payload);
    match outcome
    case ChatRaised(text) =>
      reply := Failure(text);
    case ChatReturned(raw, decoded) =>
      reply := UnwrapReply(raw, decoded);
  }
}
