/**
 * state.py: the per-session record (`st.session_state`) and the four
 * operations that fill and change it.
 *
 * A key that is absent from the session state is `None` here. `last_error` is
 * an `Option<Option<string>>`: absent, present and `None`, or present with a
 * text. `model_name` is not created by `init_state`; the sidebar writes it.
 */
module State {
  import opened Wrappers
  import opened Values
  import Config

  /** A transcript entry: `{"role": ..., "content": ...}` plus any metadata keys. */
  type Message = map<string, Value>

  /**
   * The dictionary `add_message` appends. Python refuses `role=` or `content=`
   * among the extra keyword arguments, so `meta` never holds those keys.
   */
  function NewMessage(role: string, content: Value, meta: map<string, Value>): (m: Message)
    requires "role" !in meta && "content" !in meta
    ensures m.Keys == meta.Keys + {"role", "content"}
    ensures m["role"] == VStr(role) && m["content"] == content
    ensures forall k :: k in meta ==> m[k] == meta[k]
  {
    map["role" := VStr(role), "content" := content] + meta
  }

  /** A snapshot of the session's fields. */
  datatype SessionRecord = SessionRecord(
    messages: Option<seq<Message>>,
    mode: Option<string>,
    systemPrompt: Option<string>,
    modelParams: Option<map<string, Value>>,
    isThinking: Option<bool>,
    lastError: Option<Option<string>>,
    modelName: Option<string>)

  /** A new session: no key is present. */
  const EmptySession := SessionRecord(None, None, None, None, None, None, None)

  /** Every key `init_state` creates is present. */
  predicate Complete(r: SessionRecord) {
    && r.messages.Some?
    && r.mode.Some?
    && r.systemPrompt.Some?
    && r.modelParams.Some?
    && r.isThinking.Some?
    && r.lastError.Some?
  }

  /**
   * What `init_state` leaves behind: the completed record, or, when the system
   * prompt is absent and the mode is not a registry key, the record as it was
   * when the registry lookup raised `KeyError`.
   */
  datatype InitResult = InitDone(record: SessionRecord) | UnknownMode(record: SessionRecord)

  /** The mode `init_state` looks the prompt up under: the present one, else the first key. */
  function ModeAfterInit(r: SessionRecord, files: Config.PromptFiles): string {
    r.mode.GetOr(Config.AvailableModes(files)[0].name)
  }

  /** `init_state()` on a snapshot. */
  function InitRecord(r: SessionRecord, files: Config.PromptFiles): (res: InitResult)
    ensures res.InitDone? ==> Complete(res.record)
    // a present key keeps its value
    ensures r.messages.Some? ==> res.record.messages == r.messages
    ensures r.mode.Some? ==> res.record.mode == r.mode
    ensures r.systemPrompt.Some? ==> res.record.systemPrompt == r.systemPrompt
    ensures r.modelParams.Some? ==> res.record.modelParams == r.modelParams
    ensures r.isThinking.Some? ==> res.record.isThinking == r.isThinking
    ensures r.lastError.Some? ==> res.record.lastError == r.lastError
    ensures res.record.modelName == r.modelName
    // an absent key gets its default (those before the lookup even when it raises)
    ensures r.messages.None? ==> res.record.messages == Some([])
    ensures r.mode.None? ==> res.record.mode == Some(Config.ModeNames[0])
    ensures res.InitDone? && r.systemPrompt.None? ==>
      Config.ModeEntry(ModeAfterInit(r, files), res.record.systemPrompt.value) in Config.AvailableModes(files)
    ensures res.InitDone? && r.modelParams.None? ==> res.record.modelParams == Some(Config.DefaultModelParams)
    ensures res.InitDone? && r.isThinking.None? ==> res.record.isThinking == Some(false)
    ensures res.InitDone? && r.lastError.None? ==> res.record.lastError == Some(None)
    // after a raise, nothing past the lookup was filled
    ensures res.UnknownMode? ==>
      res.record == r.(messages := res.record.messages, mode := res.record.mode)
  {
    var modes := Config.AvailableModes(files);
    var r1 := if r.messages.None? then r.(messages := Some([])) else r;
    var r2 := if r1.mode.None? then r1.(mode := Some(Config.Names(modes)[0])) else r1;
    var prompt := Config.Lookup(modes, r2.mode.value);
    if r2.systemPrompt.None? && prompt.None? then
      UnknownMode(r2)
    else
      var r3 := if r2.systemPrompt.None? then r2.(systemPrompt := prompt) else r2;
      InitDone(FillDefaults(r3))
  }

  /** The keys `init_state` fills after the prompt lookup, each only when absent. */
  function FillDefaults(r: SessionRecord): (res: SessionRecord)
    ensures res.messages == r.messages && res.mode == r.mode && res.systemPrompt == r.systemPrompt
    ensures res.modelName == r.modelName
    ensures res.modelParams == Some(r.modelParams.GetOr(Config.DefaultModelParams))
    ensures res.isThinking == Some(r.isThinking.GetOr(false))
    ensures res.lastError == Some(r.lastError.GetOr(None))
  {
    var r1 := if r.modelParams.None? then r.(modelParams := Some(Config.DefaultModelParams)) else r;
    var r2 := if r1.isThinking.None? then r1.(isThinking := Some(false)) else r1;
    if r2.lastError.None? then r2.(lastError := Some(None)) else r2
  }

  /** `init_state` raises exactly when the prompt must be looked up under a mode that is not a registry key. */
  lemma InitRaisesExactly(r: SessionRecord, files: Config.PromptFiles)
    ensures InitRecord(r, files).InitDone? <==> r.systemPrompt.Some? || ModeAfterInit(r, files) in Config.ModeNames
  {
  }

  /**
   * `init_state` is idempotent: a second call changes nothing, whether the
   * first one completed or raised on an unknown mode.
   */
  lemma InitIdempotent(r: SessionRecord, files: Config.PromptFiles)
    ensures InitRecord(InitRecord(r, files).record, files) == InitRecord(r, files)
  {
  }

  /** A complete record is a fixed point of `init_state`. */
  lemma InitKeepsComplete(r: SessionRecord, files: Config.PromptFiles)
    requires Complete(r)
    ensures InitRecord(r, files) == InitDone(r)
  {
  }

  /** On a new session: empty transcript, the first mode and its prompt, default parameters. */
  lemma InitEmptySession(files: Config.PromptFiles)
    ensures InitRecord(EmptySession, files) == InitDone(SessionRecord(
      Some([]),
      Some("Ассистент"),
      Some(Config.ReadPrompt(files.assistant, Config.AssistantFallback)),
      Some(Config.DefaultModelParams),
      Some(false),
      Some(None),
      None))
  {
  }

  /** A pre-set mode that is not a registry key, with no prompt, makes `init_state` raise. */
  lemma InitUnknownModeRaises(r: SessionRecord, files: Config.PromptFiles)
    requires r.mode.Some? && r.mode.value !in Config.ModeNames && r.systemPrompt.None?
    ensures InitRecord(r, files).UnknownMode?
  {
  }

  /** The session state of one user session. */
  class Session {
    var messages: Option<seq<Message>>
    var mode: Option<string>
    var systemPrompt: Option<string>
    var modelParams: Option<map<string, Value>>
    var isThinking: Option<bool>
    var lastError: Option<Option<string>>
    var modelName: Option<string>

    function Record(): SessionRecord
      reads this
    {
      SessionRecord(messages, mode, systemPrompt, modelParams, isThinking, lastError, modelName)
    }

    /** A session starts with no key present. */
    constructor ()
      ensures Record() == EmptySession
    {
      messages, mode, systemPrompt, modelParams := None, None, None, None;
      isThinking, lastError, modelName := None, None, None;
    }

    /**
     * `init_state()`. `ok` is false where Python raises `KeyError`; the keys
     * filled before the lookup stay filled.
     */
    method InitState(files: Config.PromptFiles) returns (ok: bool)
      modifies this
      ensures ok == InitRecord(old(Record()), files).InitDone?
      ensures Record() == InitRecord(old(Record()), files).record
    {
      var modes := Config.AvailableModes(files);
      ghost var expected := InitRecord(Record(), files);
      if messages.None? {
        messages := Some([]);
      }
      if mode.None? {
        mode := Some(Config.Names(modes)[0]);
      }
      assert messages == expected.record.messages && mode == expected.record.mode;
      if systemPrompt.None? {
        var prompt := Config.Lookup(modes, mode.value);
        if prompt.None? {
          assert expected.UnknownMode?;
          return false;
        }
        systemPrompt := prompt;
      }
      assert expected.InitDone? && systemPrompt == expected.record.systemPrompt;
      FillDefaultKeys();
      ok := true;
    }

    /** The keys `init_state` fills after the prompt lookup, each only when absent. */
    method FillDefaultKeys()
      modifies this
      ensures Record() == FillDefaults(old(Record()))
    {
      if modelParams.None? {
        modelParams := Some(Config.DefaultModelParams);
      }
      if isThinking.None? {
        isThinking := Some(false);
      }
      if lastError.None? {
        lastError := Some(None);
      }
    }

    /** `add_message(role, content, **meta)`: one new entry at the end, nothing else changes. */
    method AddMessage(role: string, content: Value, meta: map<string, Value>)
      requires messages.Some?
      requires "role" !in meta && "content" !in meta
      modifies this
      ensures messages == Some(old(messages.value) + [NewMessage(role, content, meta)])
      ensures Record() == old(Record()).(messages := messages)
    {
      messages := Some(messages.value + [NewMessage(role, content, meta)]);
    }

    /** `clear_chat()`: empty transcript, no error; mode, prompt and parameters stay. */
    method ClearChat()
      modifies this
      ensures messages == Some([]) && lastError == Some(None)
      ensures Record() == old(Record()).(messages := Some([]), lastError := Some(None))
    {
      messages := Some([]);
      lastError := Some(None);
    }

    /** `set_error(error_text)`: `None` clears the error; nothing else changes. */
    method SetError(errorText: Option<string>)
      modifies this
      ensures lastError == Some(errorText)
      ensures Record() == old(Record()).(lastError := Some(errorText))
    {
      lastError := Some(errorText);
    }
  }
}
