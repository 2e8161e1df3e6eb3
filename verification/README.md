# GigaChat_VSA chat front-end, modelled in Dafny

GigaChat_VSA is a Streamlit page that keeps one chat transcript per user session.
The session state holds the transcript, the operating mode and its system prompt,
two sampling parameters, a "thinking" flag and the last error. The sidebar picks
the mode, the model variant and the sampling parameters, and can clear the dialog.
A submitted message goes to the GigaChat chat-completion endpoint with the system
prompt in front. The answer is unwrapped from a `{"answer": {"user": ...}}` JSON
envelope and appended to the transcript. A failure is recorded as the session's
error instead.

The model follows the four core source files, one module each:

- `config.dfy` (`Config`) models `config.py`:
  - `str.strip` with Python's whitespace set;
  - `_read_prompt` and its fallbacks;
  - the mode registry `AVAILABLE_MODES`;
  - `DEFAULT_MODEL_PARAMS`.
- `state.dfy` (`State`) models `state.py`:
  - The session state is the class `Session`. A key absent from `st.session_state` is `None`.
  - `init_state`, `add_message`, `clear_chat` and `set_error` are its methods.
  - The pure function `InitRecord` specifies `init_state`. Lemmas about it give idempotence, the fixed points and exactly when it raises `KeyError`.
- `gigachat_client.dfy` (`GigaChatClient`) models `gigachat_client.py`:
  - settings from the environment and from `st.secrets`, and their layering (a loop proved against `Overlay`);
  - the credentials and certificate gate of `_create_client`;
  - the SDK message list (a loop proved against `WireMessages`);
  - the reply unwrap;
  - `generate_reply`.
- `app.dfy` (`App`) models `app.py`:
  - `render_sidebar`, `render_chat` and `main` as methods on a `Session`;
  - two whole runs of the page on a new session: a successful "Кодер" turn and a turn whose call raises.
- `values.dfy` (`Values`) holds the Python values `json.loads` can produce, their truthiness and `dict.get`.
- `wrappers.dfy` (`Wrappers`) holds `Option` and `Result`.

Inputs replace what the program reads from outside:

- the prompt files' contents (`PromptFiles`; `None` is a read that raised);
- `os.environ`;
- `st.secrets`, or the absence of Streamlit (`SecretsStore`);
- the outcome of the TLS pre-flight request (`Preflight`);
- the outcome of the SDK chat call, together with what `json.loads` makes of its text (`ChatOutcome`, `Decoded`);
- what the user did with each widget (`SidebarInput`, the chat input).

Where a documented contract of the system and the code disagree, the model follows the code:

- The reply unwrap is not total. `data.get(...)` on a decoded value that is not a dictionary raises `AttributeError`. So does a value under `answer` that is not a dictionary. Only `JSONDecodeError` and `TypeError` are caught. `UnwrapReply` returns `Failure` with that error's text, and the chat turn records it as a provider error.
- A truthy `answer.user` that is not a string (a number, a list) is returned as it is. There is no fallback to the raw text.
- A secret overrides the environment when it is not `None`, so an empty string in `st.secrets` wins too.
- A present `gigachat` section always sets `model`, to `"GigaChat-2"` when the section has none. This happens even where `GIGACHAT_MODEL` is set.
- `init_state` has no fallback for a pre-set mode that is not a registry key. It raises `KeyError` after filling `messages` and `mode`. Only the sidebar falls back to the first mode.

## Model

| member | source | states |
|---|---|---|
| Config.TrimStart | config.py:48 | the result is the suffix of the input left after a maximal run of leading whitespace |
| Config.TrimEnd | config.py:48 | the result is the prefix of the input before a maximal run of trailing whitespace |
| Config.Strip | config.py:48-50 | the result has no whitespace at either end, is no longer than the input, and is empty exactly when the input is all whitespace |
| Config.StripKeepsMiddle | config.py:48-50 | the result is a window of the input with only whitespace before and after it, so only surrounding whitespace is removed |
| Config.StrippedIsFixed | config.py:48 | stripping text without surrounding whitespace returns it unchanged |
| Config.StripIdempotent | config.py:48-50 | stripping twice is stripping once |
| Config.ReadPrompt | config.py:41-50 | a readable file gives its stripped text, an unreadable one the stripped fallback; either way there is no surrounding whitespace |
| Config.AvailableModes | config.py:79-89 | the registry's keys are "Ассистент", "Кодер", "Аналитик" in this order, whatever the files hold |
| Config.RegistryPromptsStripped | config.py:70-72 | every registered system prompt is free of surrounding whitespace |
| Config.Lookup | state.py:86-88 | the lookup succeeds exactly for a registry key, and then yields that key's own entry |
| Config.LookupFindsFirst | state.py:86-88 | looking up a name that no earlier entry carries yields that entry's prompt |
| Config.ModePrompts | config.py:70-88 | each mode's prompt is what reading its own file (or its own fallback) gave |
| Config.RegistryKeysDistinct | config.py:79-89 | the three mode keys are pairwise distinct |
| State.NewMessage | state.py:122-124 | the entry holds `role`, `content` and every metadata key with its value, and no other key |
| State.InitRecord | state.py:57-106 | every present key keeps its value; every absent key gets its default; after a `KeyError` only `messages` and `mode` were filled; a completed record has every key |
| State.InitRaisesExactly | state.py:85-88 | `init_state` completes if and only if a prompt is present or the mode is a registry key |
| State.InitIdempotent | state.py:73-106 | calling `init_state` again changes nothing, whether or not the first call completed |
| State.InitKeepsComplete | state.py:73-106 | a record holding every key is left unchanged |
| State.InitEmptySession | state.py:57-106 | a new session gets an empty transcript, mode "Ассистент" with the assistant prompt, the default parameters, not thinking, no error |
| State.InitUnknownModeRaises | state.py:85-88 | a pre-set unknown mode without a prompt makes `init_state` raise |
| State.Session.constructor | state.py:61-63 | a new session has no key |
| State.Session.InitState | state.py:57-106 | the new state is `InitRecord` of the old one, and the result says whether it completed |
| State.FillDefaults | state.py:94-106 | `model_params`, `is_thinking` and `last_error` get their defaults exactly when absent; every other key stays |
| State.Session.FillDefaultKeys | state.py:94-106 | the new state is `FillDefaults` of the old one |
| State.Session.AddMessage | state.py:109-125 | exactly one entry is appended to the transcript and nothing else changes |
| State.Session.ClearChat | state.py:128-136 | the transcript is empty and the error cleared; mode, prompt and parameters stay |
| State.Session.SetError | state.py:139-149 | only `last_error` changes, to the given text or `None` |
| GigaChatClient.EnvSettings | gigachat_client.py:63-81 | exactly the four keys, each from its variable; the model is `GIGACHAT_MODEL`'s value when that is set and "GigaChat-2" otherwise, so it is never missing |
| GigaChatClient.SecretsSettings | gigachat_client.py:84-107 | empty exactly when there is no Streamlit or no `gigachat` section; otherwise the four keys from the section, the model always set |
| GigaChatClient.Overlay | gigachat_client.py:123-127 | a key is kept or added exactly when the base has it or the overlay's value is not `None`; non-`None` overlay values win, other keys keep the base value |
| GigaChatClient.LayeredSettings | gigachat_client.py:121-129 | the four keys; per key, the secret when it is not `None`, else the environment's value (with no Streamlit, the environment's) |
| GigaChatClient.ResolveSettings | gigachat_client.py:110-129 | the loop's result is the environment settings overlaid with the secrets settings |
| GigaChatClient.NoSectionMeansEnv | gigachat_client.py:110-129 | without Streamlit or without a section, the environment alone decides |
| GigaChatClient.SectionAlwaysSetsModel | gigachat_client.py:105-127 | with a section, `model` comes from the section or its default, never from the environment |
| GigaChatClient.SecretWins | gigachat_client.py:123-127 | a key present in the section wins over the environment, an empty text included |
| GigaChatClient.EnvFillsGaps | gigachat_client.py:121-127 | a key the section leaves out keeps the environment's value |
| GigaChatClient.LayeredComplete | gigachat_client.py:110-129 | the resolved settings always hold a model |
| GigaChatClient.ClientGate | gigachat_client.py:139-174 | missing or empty credentials or scope fail with the configuration error; otherwise it fails exactly on a certificate error, with a message naming the CA bundle; a success carries the resolved settings |
| GigaChatClient.GateIgnoresNetwork | gigachat_client.py:146-155 | with credentials or scope missing, the pre-flight outcome cannot change the result |
| GigaChatClient.EnvCredentialsPass | gigachat_client.py:139-164 | credentials and scope in the environment, no `gigachat` section, and a pre-flight without a certificate error: the client is created |
| GigaChatClient.CreateClient | gigachat_client.py:132-174 | creating the client is the gate applied to the resolved settings |
| GigaChatClient.CoerceRole | gigachat_client.py:213-221 | "assistant" and "system" map to their roles; every other value, a missing role included, maps to USER |
| GigaChatClient.CoerceRoleName | gigachat_client.py:213-221 | coercion inverts the role's name |
| GigaChatClient.ToWire | gigachat_client.py:213-228 | a present role is coerced, a missing role goes out as USER; a missing content goes out as "", a present content unchanged |
| GigaChatClient.ToWireOfNewMessage | gigachat_client.py:213-228 | an entry made by `add_message` goes out with its role and content; metadata is dropped |
| GigaChatClient.WireMessages | gigachat_client.py:202-228 | the system prompt goes first exactly when it is non-empty, then one SDK message per transcript entry, in order |
| GigaChatClient.BuildWireMessages | gigachat_client.py:202-228 | the loop builds exactly `WireMessages` |
| GigaChatClient.UnwrapReply | gigachat_client.py:250-257 | non-JSON gives the raw text; it fails exactly for a non-dictionary top level or `answer`, with the `AttributeError` text naming that value's type; a truthy `answer.user` under a dictionary `answer` is the result whatever its type; any other result is the raw text |
| GigaChatClient.EnvelopeRoundTrip | gigachat_client.py:243-255 | a well-formed envelope with a non-empty `user` text unwraps to that text |
| GigaChatClient.OtherShapesFallBack | gigachat_client.py:252-255 | a dictionary without `answer`, or without a truthy `user`, gives back the raw text |
| GigaChatClient.EffectiveModelSources | gigachat_client.py:198-199 | there is always a model: a non-empty model name wins; otherwise the section's model or "GigaChat-2" when there is a section, even where `GIGACHAT_MODEL` is set; otherwise `GIGACHAT_MODEL` or "GigaChat-2" |
| GigaChatClient.ExpectedReply | gigachat_client.py:237-257 | missing or empty credentials or scope give the configuration error whatever the network does; then a certificate failure gives the SSL error naming the CA bundle; then a raising call fails with its text and a returning call gives the unwrapped reply |
| GigaChatClient.EnvelopeAnswered | gigachat_client.py:237-255 | with credentials and a passing pre-flight, a text that decodes to a well-formed envelope makes the turn return its non-empty `user` text |
| GigaChatClient.GenerateReply | gigachat_client.py:177-259 | the reply is `ExpectedReply`; a payload is sent exactly when the client was created, holding the wire messages, the temperature (default 0.5), max_tokens (default 1024) and the effective model |
| App.IndexOf | app.py:71 | found exactly when present, at the first occurrence |
| App.SelectedIndex | app.py:71 | the index of the current value's first occurrence, or 0 when it is not an option |
| App.Chosen | app.py:73-77 | the select box yields one of its options: the picked one, or untouched, the one at its index |
| App.UntouchedSelection | app.py:69-77 | an untouched select box keeps a known value and shows the first option for an unknown one |
| App.SelectMode | app.py:68-82 | the mode becomes the selection; a switch loads the new mode's prompt; staying keeps the prompt; nothing else changes |
| App.SelectModelAndParams | app.py:84-113 | the model becomes the selection (the first option when the current model is not offered); the sliders' values overwrite the two parameter keys and keep the others; nothing else changes |
| App.RenderSidebar | app.py:64-117 | afterwards the mode is a registry key (the first one for an unknown mode); the model is the selection; the sliders' values overwrite the two parameters; only the button clears the transcript and the error |
| App.RenderChat | app.py:149-226 | no input changes nothing; a submission appends the user's entry and sends the transcript with it; a failure records the prefixed error with no assistant entry; a success appends exactly one assistant entry and clears the error; the session is no longer thinking; the payload carries the session's model (or the settings' model when it is empty), temperature and `max_tokens`, with 0.5 and 1024 when a key is missing |
| App.RunPage | app.py:230-234 | the run stops exactly where `init_state` raises; otherwise every key is present afterwards and the mode is a registry key; the transcript is the one `init_state` left (emptied when the button was pressed) plus the user's entry on a submission and the reply on success; a payload is sent exactly on a submission the client gate lets through, and after a submission the session is not thinking and the error is the prefixed failure or cleared on success |
| App.OpenSession | app.py:230-233 | a first run of the page leaves an empty transcript, parameters, the picked mode (the first mode when nothing is picked), and that mode's registry prompt |
| App.EnvelopeTurn | app.py:190-226 | on an empty transcript, in any environment with credentials and scope and a pre-flight that is not an SSL failure, a reply that decodes to an envelope leaves the question and the unwrapped answer in the transcript, with no error and the mode and prompt unchanged |
| App.CoderTurn | app.py:190-226 | in `WorkingEnv` (credentials and scope from the environment, no `gigachat` section), switching to "Кодер" loads the coder prompt, and getting an envelope leaves the question and the unwrapped answer in the transcript, with no error |
| App.FailedTurn | app.py:207-219 | in any environment with credentials and scope and a pre-flight that is not an SSL failure, a raising call on a new session leaves only the question in the transcript, the prefixed error, and the session not thinking |

## Left out

- App.RunPage: does not restate the mode, prompt, model and parameters the sidebar leaves; `App.RenderSidebar` states them for the record `init_state` completed, and `App.RenderChat` states that the turn keeps them.
- Rendering: titles, markdown, captions, the footer, `render_message` and `render_error`. The model keeps only the session state and the data sent to the provider.
- The network and the GigaChat SDK are inputs. The pre-flight request's outcome and the chat call's outcome (its first choice's text, or an exception's text) are given. `json.loads` is an input too: `Decoded` is what it made of the text.
- The prompt files, `os.environ` and `st.secrets` are inputs. A secret's value is modelled as a text.
- The two `_resolve_settings` calls in one `generate_reply` turn see the same environment. So the model resolves the settings once per `GenerateReply` and once per `CreateClient`, with the same inputs.
- Floating-point numbers are opaque reals (`VFloat`); no arithmetic is done on them.
- App.RenderSidebar: does not model Streamlit's slider range validation. The widget library is not part of this model, so the default `max_tokens` of 8192 is written back as the slider's value, although it lies outside the slider's 256..4096 range. If Streamlit rejects a value outside the range, the first `render_sidebar` of every new session raises, and `App.OpenSession`, `App.CoderTurn` and `App.FailedTurn` describe runs that would not get that far; whether it does cannot be settled from the source text alone.
- App.RenderSidebar: the step sizes of the sliders (0.05 and 256) are not modelled. A slider value is whatever the input gives.
- `model_params` is a map held by value. The `.copy()` in `init_state` and `generate_reply` exists to avoid aliasing, and with values there is no aliasing to avoid.
- Python exceptions other than those the source raises or catches are not modelled. That covers, for example, `add_message` on a session without `messages`; its precondition requires the transcript.
- Concurrency between sessions, and Streamlit's reruns beyond one call of `main` at a time, are not modelled.
- `ui_components.py`, `PROJECT_NAME` and `PROJECT_VERSION` are not part of this model.
