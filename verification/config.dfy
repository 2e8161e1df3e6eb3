/**
 * config.py: the mode registry and the default sampling parameters.
 *
 * The three prompt files are read once when the module is imported; their
 * contents are an input here (`PromptFiles`), `None` standing for a read that
 * raised for any reason (missing file, permissions, bad UTF-8).
 */
module Config {
  import opened Wrappers
  import opened Values

  // ---------------------------------------------------------------------------
  // str.strip()

  /** Python's `str.isspace()` for a single character. */
  predicate IsSpace(c: char) {
    || ('\t' <= c <= '\r')
    || ('\U{1C}' <= c <= '\U{1F}')
    || c == ' '
    || c == '\U{85}'
    || c == '\U{A0}'
    || c == '\U{1680}'
    || ('\U{2000}' <= c <= '\U{200A}')
    || c == '\U{2028}'
    || c == '\U{2029}'
    || c == '\U{202F}'
    || c == '\U{205F}'
    || c == '\U{3000}'
  }

  predicate AllSpace(s: string) {
    forall i :: 0 <= i < |s| ==> IsSpace(s[i])
  }

  /** No whitespace at either end. */
  predicate Stripped(s: string) {
    s == [] || (!IsSpace(s[0]) && !IsSpace(s[|s| - 1]))
  }

  /** `s.lstrip()`: the longest suffix of `s` after a run of whitespace. */
  function TrimStart(s: string): (r: string)
    ensures |r| <= |s| && r == s[|s| - |r|..]
    ensures AllSpace(s[..|s| - |r|])
    ensures r == [] || !IsSpace(r[0])
  {
    if s != [] && IsSpace(s[0]) then
      var r := TrimStart(s[1..]);
      assert s[..|s| - |r|] == [s[0]] + s[1..][..|s| - 1 - |r|];
      r
    else
      s
  }

  /** `s.rstrip()`: the longest prefix of `s` followed only by whitespace. */
  function TrimEnd(s: string): (r: string)
    ensures |r| <= |s| && r == s[..|r|]
    ensures AllSpace(s[|r|..])
    ensures r == [] || !IsSpace(r[|r| - 1])
  {
    if s != [] && IsSpace(s[|s| - 1]) then
      var r := TrimEnd(s[..|s| - 1]);
      assert s[|r|..] == s[..|s| - 1][|r|..] + [s[|s| - 1]];
      r
    else
      s
  }

  /** `s.strip()` */
  function Strip(s: string): (r: string)
    ensures Stripped(r)
    ensures |r| <= |s|
    ensures r == [] <==> AllSpace(s)
  {
    var t := TrimStart(s);
    var r := TrimEnd(t);
    assert r != [] ==> r[0] == t[0];
    assert t != [] ==> t[0] == s[|s| - |t|];
    assert t == [] ==> s[..|s|] == s;
    r
  }

  /**
   * `strip` removes only the surrounding whitespace: its result is a window of
   * the input with nothing but whitespace before and after it.
   */
  lemma StripKeepsMiddle(s: string)
    ensures exists k ::
              && 0 <= k <= |s| - |Strip(s)|
              && Strip(s) == s[k..k + |Strip(s)|]
              && AllSpace(s[..k])
              && AllSpace(s[k + |Strip(s)|..])
  {
    var t := TrimStart(s);
    var r := TrimEnd(t);
    assert r == Strip(s);
    var k := |s| - |t|;
    assert r == s[k..k + |r|] by {
      assert t == s[k..];
    }
    assert AllSpace(s[k + |r|..]) by {
      assert s[k + |r|..] == t[|r|..];
    }
  }

  /** Stripping text that has no surrounding whitespace changes nothing. */
  lemma StrippedIsFixed(s: string)
    requires Stripped(s)
    ensures Strip(s) == s
  {
  }

  /** `strip` is idempotent. */
  lemma StripIdempotent(s: string)
    ensures Strip(Strip(s)) == Strip(s)
  {
    StrippedIsFixed(Strip(s));
  }

  /**
   * `_read_prompt(filename, fallback)`: the file's text without surrounding
   * whitespace, or the fallback without surrounding whitespace when the read
   * raised.
   */
  function ReadPrompt(contents: Option<string>, fallback: string): (r: string)
    ensures Stripped(r)
    ensures contents.Some? ==> r == Strip(contents.value)
    ensures contents.None? ==> r == Strip(fallback)
  {
    match contents
    case Some(text) => Strip(text)
    case None => Strip(fallback)
  }

  // ---------------------------------------------------------------------------
  // The registry

  const AssistantFallback: string :=
    "Ты умный и лаконичный ассистент. Отвечай чётко и по сути, "
    + "используя понятные формулировки и по возможности примеры."

  const CoderFallback: string :=
    "Ты опытный разработчик. Объясняй решение кратко, приводя примеры кода "
    + "и минимально необходимую теорию."

  const AnalystFallback: string :=
    "Ты бизнес-аналитик. Отвечай структурированно, выделяй ключевые тезисы, "
    + "делай короткие выводы и рекомендации."

  /** What reading Prompts/Assistent.txt, Prompts/Coder.txt and Prompts/Analyst.txt gave. */
  datatype PromptFiles = PromptFiles(assistant: Option<string>, coder: Option<string>, analyst: Option<string>)

  /** One entry of `AVAILABLE_MODES`: the mode's key and its `system_prompt`. */
  datatype ModeEntry = ModeEntry(name: string, systemPrompt: string)

  /** The keys of `AVAILABLE_MODES`, in insertion order. */
  const ModeNames: seq<string> := ["Ассистент", "Кодер", "Аналитик"]

  /** `list(modes.keys())` */
  function Names(modes: seq<ModeEntry>): (names: seq<string>)
    ensures |names| == |modes|
    ensures forall i :: 0 <= i < |modes| ==> names[i] == modes[i].name
  {
    seq(|modes|, i requires 0 <= i < |modes| => modes[i].name)
  }

  /** `AVAILABLE_MODES`, as built when config.py is imported. */
  function AvailableModes(files: PromptFiles): (modes: seq<ModeEntry>)
    ensures Names(modes) == ModeNames
  {
    var prompts := [ ReadPrompt(files.assistant, AssistantFallback),
                     ReadPrompt(files.coder, CoderFallback),
                     ReadPrompt(files.analyst, AnalystFallback) ];
    seq(|ModeNames|, i requires 0 <= i < |ModeNames| => ModeEntry(ModeNames[i], prompts[i]))
  }

  /** Every registered prompt is free of surrounding whitespace, whichever way it was obtained. */
  lemma RegistryPromptsStripped(files: PromptFiles)
    ensures forall i :: 0 <= i < |AvailableModes(files)| ==> Stripped(AvailableModes(files)[i].systemPrompt)
  {
    var modes := AvailableModes(files);
    assert |modes| == |Names(modes)| == 3;
    forall i | 0 <= i < |modes|
      ensures Stripped(modes[i].systemPrompt)
    {
      if i == 0 {
        assert modes[0].systemPrompt == ReadPrompt(files.assistant, AssistantFallback);
      } else if i == 1 {
        assert modes[1].systemPrompt == ReadPrompt(files.coder, CoderFallback);
      } else {
        assert modes[2].systemPrompt == ReadPrompt(files.analyst, AnalystFallback);
      }
    }
  }

  /** `modes[name]["system_prompt"]`, or `None` where Python raises `KeyError`. */
  function Lookup(modes: seq<ModeEntry>, name: string): (r: Option<string>)
    ensures r.Some? <==> name in Names(modes)
    ensures r.Some? ==> ModeEntry(name, r.value) in modes
  {
    if modes == [] then None
    else if modes[0].name == name then Some(modes[0].systemPrompt)
    else
      var r := Lookup(modes[1..], name);
      assert Names(modes) == [modes[0].name] + Names(modes[1..]);
      r
  }

  /** A lookup finds an entry whose name no earlier entry carries. */
  lemma {:induction false} LookupFindsFirst(modes: seq<ModeEntry>, i: nat)
    requires i < |modes|
    requires forall j :: 0 <= j < i ==> modes[j].name != modes[i].name
    ensures Lookup(modes, modes[i].name) == Some(modes[i].systemPrompt)
  {
    if i > 0 {
      LookupFindsFirst(modes[1..], i - 1);
    }
  }

  /** Each mode's prompt is the `_read_prompt` result of its own file. */
  lemma ModePrompts(files: PromptFiles)
    ensures Lookup(AvailableModes(files), "Ассистент") == Some(ReadPrompt(files.assistant, AssistantFallback))
    ensures Lookup(AvailableModes(files), "Кодер") == Some(ReadPrompt(files.coder, CoderFallback))
    ensures Lookup(AvailableModes(files), "Аналитик") == Some(ReadPrompt(files.analyst, AnalystFallback))
  {
    var modes := AvailableModes(files);
    assert modes[0].name == "Ассистент" && modes[1].name == "Кодер" && modes[2].name == "Аналитик";
    RegistryKeysDistinct();
    LookupFindsFirst(modes, 0);
    LookupFindsFirst(modes, 1);
    LookupFindsFirst(modes, 2);
  }

  /** The registry's keys are pairwise distinct, so each lookup names one entry. */
  lemma RegistryKeysDistinct()
    ensures forall i, j :: 0 <= i < j < |ModeNames| ==> ModeNames[i] != ModeNames[j]
  {
  }

  /** `DEFAULT_MODEL_PARAMS` */
  const DefaultModelParams: map<string, Value> := map["temperature" := VFloat(0.1), "max_tokens" := VInt(8192)]
}
