/**
 * app.py: what one run of the page does to the session state. The sidebar
 * falls back to the first entry for an unknown mode or model and writes the
 * slider values back; the chat area runs one turn per submitted text.
 *
 * The widgets are inputs: a select box yields the option the user picked, or
 * the one at its initial index when untouched; a slider yields the user's value,
 * or its initial value when untouched.
 */
module App {
  import opened Wrappers
  import opened Values
  import Config
  import opened State
  import opened GigaChatClient

  /** The options of the model select box. */
  const ModelOptions: seq<string> := ["GigaChat-2", "GigaChat-2-Pro", "GigaChat-2-Max"]

  /** What a failed turn's error text starts with. */
  const ErrorPrefix: string := "Ошибка при обращении к GigaChat: "

  // ---------------------------------------------------------------------------
  // Select boxes

  /** `names.index(x)` when `x in names`: the position of its first occurrence. */
  function IndexOf(names: seq<string>, x: string): (r: Option<nat>)
    ensures r.Some? <==> x in names
    ensures r.Some? ==> r.value < |names| && names[r.value] == x && x !in names[..r.value]
  {
    if names == [] then None
    else if names[0] == x then Some(0)
    else
      match IndexOf(names[1..], x)
      case None => None
      case Some(i) =>
        assert names[..i + 1] == [names[0]] + names[1..][..i];
        Some(i + 1)
  }

  /** `names.index(x) if x in names else 0` */
  function SelectedIndex(names: seq<string>, x: string): (i: nat)
    requires |names| > 0
    ensures i < |names|
    ensures x in names ==> names[i] == x && x !in names[..i]
    ensures x !in names ==> i == 0
  {
    match IndexOf(names, x)
    case Some(i) => i
    case None => 0
  }

  /** A select box's value: the picked option, or the option at its initial index. */
  function Chosen(options: seq<string>, index: nat, pick: Option<nat>): (r: string)
    requires index < |options|
    requires pick.Some? ==> pick.value < |options|
    ensures r in options
    ensures pick.Some? ==> r == options[pick.value]
    ensures pick.None? ==> r == options[index]
  {
    options[pick.GetOr(index)]
  }

  /** An untouched select box keeps a known current value, and shows the first option for an unknown one. */
  lemma UntouchedSelection(options: seq<string>, current: string)
    requires |options| > 0
    ensures current in options ==> Chosen(options, SelectedIndex(options, current), None) == current
    ensures current !in options ==> Chosen(options, SelectedIndex(options, current), None) == options[0]
  {
  }

  // ---------------------------------------------------------------------------
  // The sidebar

  /** What the user did with the sidebar's widgets during this run. */
  datatype SidebarInput = SidebarInput(
    modePick: Option<nat>,
    modelPick: Option<nat>,
    temperature: Option<Value>,
    maxTokens: Option<Value>,
    clearPressed: bool)

  /** A select box only yields indices of its own options. */
  predicate ValidPicks(input: SidebarInput) {
    && (input.modePick.Some? ==> input.modePick.value < |Config.ModeNames|)
    && (input.modelPick.Some? ==> input.modelPick.value < |ModelOptions|)
  }

  /** The mode the mode select box yields for a session whose mode is `current`. */
  function SelectedMode(current: string, input: SidebarInput): string
    requires ValidPicks(input)
  {
    Chosen(Config.ModeNames, SelectedIndex(Config.ModeNames, current), input.modePick)
  }

  /** The mode block of `render_sidebar()`: a switch loads the new mode's prompt. */
  method SelectMode(s: Session, files: Config.PromptFiles, modePick: Option<nat>)
    requires s.mode.Some?
    requires modePick.Some? ==> modePick.value < |Config.ModeNames|
    modifies s
    ensures s.mode == Some(Chosen(Config.ModeNames, SelectedIndex(Config.ModeNames, old(s.mode.value)), modePick))
    ensures s.mode != old(s.mode) ==> s.systemPrompt == Config.Lookup(Config.AvailableModes(files), s.mode.value)
    ensures s.mode == old(s.mode) ==> s.systemPrompt == old(s.systemPrompt)
    ensures s.Record() == old(s.Record()).(mode := s.mode, systemPrompt := s.systemPrompt)
  {
    var modes := Config.AvailableModes(files);
    var currentMode := s.mode.value;
    var modeNames := Config.Names(modes);
    var modeIndex := SelectedIndex(modeNames, currentMode);
    var selectedMode := Chosen(modeNames, modeIndex, modePick);
    if selectedMode != s.mode.value {
      var prompt := Config.Lookup(modes, selectedMode);
      s.mode := Some(selectedMode);
      s.systemPrompt := Some(prompt.value);
    }
  }

  /** `render_sidebar()` */
  method RenderSidebar(s: Session, files: Config.PromptFiles, input: SidebarInput)
    requires s.mode.Some? && s.modelParams.Some?
    requires ValidPicks(input)
    modifies s
    // the mode is always a registry key afterwards
    ensures s.mode == Some(SelectedMode(old(s.mode.value), input))
    ensures s.mode.value in Config.ModeNames
    // a switch loads the new mode's prompt; staying keeps the prompt, whatever it is
    ensures s.mode != old(s.mode) ==> s.systemPrompt == Config.Lookup(Config.AvailableModes(files), s.mode.value)
    ensures s.mode == old(s.mode) ==> s.systemPrompt == old(s.systemPrompt)
    ensures old(s.mode.value) !in Config.ModeNames && input.modePick.None? ==>
      s.mode == Some(Config.ModeNames[0])
    ensures s.modelName ==
      Some(Chosen(ModelOptions, SelectedIndex(ModelOptions, old(s.modelName).GetOr(DefaultModel)), input.modelPick))
    // the sliders' values are written over the two keys; other keys stay
    ensures s.modelParams == Some(old(s.modelParams.value)
      ["temperature" := input.temperature.GetOr(Get(old(s.modelParams.value), "temperature", VFloat(0.5)))]
      ["max_tokens" := input.maxTokens.GetOr(Get(old(s.modelParams.value), "max_tokens", VInt(1024)))])
    // a mode switch does not clear the transcript; only the button does
    ensures input.clearPressed ==> s.messages == Some([]) && s.lastError == Some(None)
    ensures !input.clearPressed ==> s.messages == old(s.messages) && s.lastError == old(s.lastError)
    ensures s.isThinking == old(s.isThinking)
  {
    SelectMode(s, files, input.modePick);
    SelectModelAndParams(s, input);
    if input.clearPressed {
      s.ClearChat();
    }
  }

  /** The model select box and the two sliders of `render_sidebar()`. */
  method SelectModelAndParams(s: Session, input: SidebarInput)
    requires s.modelParams.Some?
    requires ValidPicks(input)
    modifies s
    ensures s.modelName ==
      Some(Chosen(ModelOptions, SelectedIndex(ModelOptions, old(s.modelName).GetOr(DefaultModel)), input.modelPick))
    ensures s.modelParams == Some(old(s.modelParams.value)
      ["temperature" := input.temperature.GetOr(Get(old(s.modelParams.value), "temperature", VFloat(0.5)))]
      ["max_tokens" := input.maxTokens.GetOr(Get(old(s.modelParams.value), "max_tokens", VInt(1024)))])
    ensures s.Record() == old(s.Record()).(modelName := s.modelName, modelParams := s.modelParams)
  {
    var currentModel := s.modelName.GetOr(DefaultModel);
    var modelIndex := SelectedIndex(ModelOptions, currentModel);
    var selectedModel := Chosen(ModelOptions, modelIndex, input.modelPick);
    s.modelName := Some(selectedModel);

    var temperature := input.temperature.GetOr(Get(s.modelParams.value, "temperature", VFloat(0.5)));
    var maxTokens := input.maxTokens.GetOr(Get(s.modelParams.value, "max_tokens", VInt(1024)));
    s.modelParams := Some(s.modelParams.value["temperature" := temperature]);
    s.modelParams := Some(s.modelParams.value["max_tokens" := maxTokens]);
  }

  // ---------------------------------------------------------------------------
  // The chat turn

  /** `if user_input:` */
  predicate Submitted(userInput: Option<string>) {
    userInput.Some? && userInput.value != ""
  }

  /** The transcript entry a submission appends. */
  function UserMessage(text: string): Message {
    NewMessage("user", VStr(text), map[])
  }

  /** The transcript entry a successful reply appends. */
  function AssistantMessage(reply: Value): Message {
    NewMessage("assistant", reply, map[])
  }

  /**
   * `render_chat()`: on a submission, clear the error, append the user's entry,
   * call `generate_reply` with the transcript including it, then append the
   * reply or record the error. `sent` is the payload handed to the SDK, if any.
   */
  method RenderChat(s: Session, userInput: Option<string>, env: Environment, outcome: ChatOutcome)
    returns (sent: Option<ChatPayload>)
    requires s.messages.Some? && s.systemPrompt.Some? && s.modelParams.Some?
    modifies s
    // nothing submitted: nothing changes, nothing is sent
    ensures !Submitted(userInput) ==> s.Record() == old(s.Record()) && sent.None?
    ensures Submitted(userInput) ==>
      var transcript := old(s.messages.value) + [UserMessage(userInput.value)];
      var reply := ExpectedReply(env, outcome);
      // the call sees the transcript that already ends with the user's entry
      && (sent.Some? ==> sent.value.messages == WireMessages(old(s.systemPrompt), transcript))
      && (sent.Some? <==> ClientGate(LayeredSettings(env.environ, env.secrets), env.preflight).Success?)
      // the model and the sampling parameters are the session's
      && (sent.Some? ==>
            && sent.value.model == EffectiveModel(Some(old(s.modelName).GetOr(DefaultModel)), LayeredSettings(env.environ, env.secrets))
            && sent.value.temperature == Get(old(s.modelParams.value), "temperature", VFloat(0.5))
            && sent.value.maxTokens == Get(old(s.modelParams.value), "max_tokens", VInt(1024)))
      // failure: error recorded, transcript ends with the user's entry
      && (reply.Failure? ==>
            s.messages == Some(transcript) && s.lastError == Some(Some(ErrorPrefix + reply.error)))
      // success: exactly one assistant entry holding the reply, no error
      && (reply.Success? ==>
            s.messages == Some(transcript + [AssistantMessage(reply.value)]) && s.lastError == Some(None))
      && s.isThinking == Some(false)
      && s.mode == old(s.mode) && s.systemPrompt == old(s.systemPrompt)
      && s.modelParams == old(s.modelParams) && s.modelName == old(s.modelName)
  {
    sent := None;
    if userInput.Some? && userInput.value != "" {
      s.SetError(None);
      s.AddMessage("user", VStr(userInput.value), map[]);
      s.isThinking := Some(true);
      var reply;
      sent, reply := GenerateReply(
        s.messages.value, s.modelParams, s.systemPrompt, Some(s.modelName.GetOr(DefaultModel)), env, outcome);
      if reply.Failure? {
        var errorMessage := ErrorPrefix + reply.error;
        s.SetError(Some(errorMessage));
        s.isThinking := Some(false);
        return;
      }
      s.AddMessage("assistant", reply.value, map[]);
      s.isThinking := Some(false);
    }
  }

  // ---------------------------------------------------------------------------
  // One run of the page

  /**
   * `main()`: `init_state`, then the sidebar, then the chat area. When
   * `init_state` raises, the run stops there.
   */
  method RunPage(
    s: Session, files: Config.PromptFiles, sidebar: SidebarInput,
    userInput: Option<string>, env: Environment, outcome: ChatOutcome)
    returns (ok: bool, sent: Option<ChatPayload>)
    requires ValidPicks(sidebar)
    modifies s
    ensures ok == InitRecord(old(s.Record()), files).InitDone?
    ensures !ok ==> s.Record() == InitRecord(old(s.Record()), files).record && sent.None?
    // after a run, every key is present and the mode is a registry key
    ensures ok ==> Complete(s.Record()) && s.mode.value in Config.ModeNames
    // a payload goes out exactly on a submission the client gate lets through
    ensures ok ==>
      (sent.Some? <==> Submitted(userInput) && ClientGate(LayeredSettings(env.environ, env.secrets), env.preflight).Success?)
    // after a submission the page is not left waiting, and the error reflects the reply
    ensures ok && Submitted(userInput) ==> s.isThinking == Some(false)
    ensures ok && Submitted(userInput) && ExpectedReply(env, outcome).Failure? ==>
      s.lastError == Some(Some(ErrorPrefix + ExpectedReply(env, outcome).error))
    ensures ok && Submitted(userInput) && ExpectedReply(env, outcome).Success? ==> s.lastError == Some(None)
    // the transcript: the one `init_state` left, emptied by the button, plus this turn's entries
    ensures ok ==>
      var t := if sidebar.clearPressed then [] else InitRecord(old(s.Record()), files).record.messages.value;
      && (!Submitted(userInput) ==> s.messages == Some(t))
      && (Submitted(userInput) && ExpectedReply(env, outcome).Failure? ==>
            s.messages == Some(t + [UserMessage(userInput.value)]))
      && (Submitted(userInput) && ExpectedReply(env, outcome).Success? ==>
            s.messages == Some(t + [UserMessage(userInput.value)] + [AssistantMessage(ExpectedReply(env, outcome).value)]))
  {
    sent := None;
    ok := s.InitState(files);
    if !ok {
      return;
    }
    RenderSidebar(s, files, sidebar);
    sent := RenderChat(s, userInput, env, outcome);
  }

  // ---------------------------------------------------------------------------
  // Two runs of the page on a new session

  /** Credentials and scope in the environment, no `gigachat` section in the secrets, a clean pre-flight. */
  const WorkingEnv: Environment :=
    Environment(map["GIGACHAT_CREDENTIALS" := "key", "GIGACHAT_SCOPE" := "GIGACHAT_API_PERS"], Streamlit(map[]), PreflightPassed)

  /** A new session after the first run of the page, with the sidebar's mode pick. */
  method OpenSession(files: Config.PromptFiles, modePick: Option<nat>) returns (s: Session)
    requires modePick.Some? ==> modePick.value < |Config.ModeNames|
    ensures fresh(s)
    ensures s.messages == Some([]) && s.systemPrompt.Some? && s.modelParams.Some?
    ensures modePick.Some? ==> s.mode == Some(Config.ModeNames[modePick.value])
    ensures modePick.None? ==> s.mode == Some(Config.ModeNames[0])
    // the prompt is the registry's prompt for the session's mode
    ensures s.mode.Some? && s.systemPrompt == Config.Lookup(Config.AvailableModes(files), s.mode.value)
  {
    s := new Session();
    InitEmptySession(files);
    Config.ModePrompts(files);
    var ok := s.InitState(files);
    assert ok && s.messages == Some([]);
    assert s.systemPrompt == Config.Lookup(Config.AvailableModes(files), s.mode.value);
    RenderSidebar(s, files, SidebarInput(modePick, None, None, None, false));
  }

  /**
   * A turn on an empty transcript in an environment with credentials and scope
   * and a pre-flight that is not an SSL failure, whose provider text `raw`
   * decodes to an envelope holding `reasoning` and `answer`: the transcript
   * holds the question and the unwrapped answer, and there is no error.
   */
  method EnvelopeTurn(s: Session, env: Environment, question: string, raw: string, reasoning: Value, answer: string)
    requires s.messages == Some([]) && s.systemPrompt.Some? && s.modelParams.Some?
    requires HasCredentials(LayeredSettings(env.environ, env.secrets)) && !env.preflight.PreflightSslError?
    requires question != "" && answer != ""
    modifies s
    ensures s.messages == Some([UserMessage(question), AssistantMessage(VStr(answer))])
    ensures s.lastError == Some(None) && s.isThinking == Some(false)
    ensures s.mode == old(s.mode) && s.systemPrompt == old(s.systemPrompt)
  {
    var outcome := ChatReturned(raw, Json(Envelope(reasoning, VStr(answer))));
    EnvelopeAnswered(env, raw, reasoning, answer);
    var sent := RenderChat(s, Some(question), env, outcome);
    ghost var empty: seq<Message> := [];
    assert s.messages == Some(empty + [UserMessage(question)] + [AssistantMessage(VStr(answer))]);
    assert empty + [UserMessage(question)] + [AssistantMessage(VStr(answer))]
      == [UserMessage(question), AssistantMessage(VStr(answer))] by {
    }
  }

  /**
   * A new session in `WorkingEnv` switches to "Кодер" and asks a question; the
   * provider's text `raw` decodes to an envelope holding `reasoning` and
   * `answer`. The session's prompt is the coder prompt, the transcript holds the
   * question and the unwrapped answer, and there is no error.
   */
  method CoderTurn(files: Config.PromptFiles, question: string, raw: string, reasoning: Value, answer: string)
    returns (r: SessionRecord)
    requires question != "" && answer != ""
    ensures r.mode == Some("Кодер")
    ensures r.systemPrompt == Some(Config.ReadPrompt(files.coder, Config.CoderFallback))
    ensures r.messages == Some([UserMessage(question), AssistantMessage(VStr(answer))])
    ensures r.lastError == Some(None) && r.isThinking == Some(false)
  {
    var s := OpenSession(files, Some(1));
    Config.ModePrompts(files);
    EnvCredentialsPass(WorkingEnv.environ, WorkingEnv.secrets, WorkingEnv.preflight);
    EnvelopeTurn(s, WorkingEnv, question, raw, reasoning, answer);
    r := s.Record();
  }

  /**
   * A new session, in an environment with credentials and scope and a
   * pre-flight that is not an SSL failure, whose chat call raises: the
   * transcript keeps only the question, the error names the cause, and the
   * session is not left waiting.
   */
  method FailedTurn(files: Config.PromptFiles, env: Environment, question: string, cause: string)
    returns (r: SessionRecord)
    requires HasCredentials(LayeredSettings(env.environ, env.secrets)) && !env.preflight.PreflightSslError?
    requires question != ""
    ensures r.messages == Some([UserMessage(question)])
    ensures r.lastError == Some(Some(ErrorPrefix + cause))
    ensures r.isThinking == Some(false)
  {
    assert ExpectedReply(env, ChatRaised(cause)) == Failure(cause);
    var s := OpenSession(files, None);
    var sent := RenderChat(s, Some(question), env, ChatRaised(cause));
    ghost var empty: seq<Message> := [];
    assert s.messages == Some(empty + [UserMessage(question)]);
    assert empty + [UserMessage(question)] == [UserMessage(question)];
    r := s.Record();
  }
}
