/** `GLM4BaseFixed` and `GLM4Chat`: the text handling around the model call.

    Loading the model and running it are not modelled; their outcomes are
    parameters. `loadOk` is whether `load_model()` would succeed if it were
    called now, and `decoded` is the decoded output of `model.generate` for the
    prompt (`None` when tokenizing, generating or decoding raises).

    `GLM4Chat` is declared as a subclass of `GLMFixed`, a name the module never
    defines. The model gives it the evidently intended base, `GLM4BaseFixed`.
 */
module Chat {
  import opened Wrappers
  import opened PySeq
  import opened Text

  /** `format_chat_prompt` renders at most this many of the latest turns. */
  const WindowSize: nat := 5

  /** What `chat` returns when generation gave nothing. */
  const Apology: string := "I'm sorry, I couldn't generate a response."

  /** One entry of `conversation_history`: `{"user": …, "assistant": …}`. */
  datatype Turn = Turn(user: string, assistant: string)

  /** The state a `GLM4Chat` keeps: whether a model is loaded, and the history. */
  datatype ChatModel = ChatModel(loaded: bool, history: seq<Turn>)

  /** `f"User: {turn['user']}\nAssistant: {turn['assistant']}\n"`. */
  function TurnText(t: Turn): string
  {
    "User: " + t.user + "\nAssistant: " + t.assistant + "\n"
  }

  /** The turns rendered one after another, oldest first. */
  function RenderTurns(turns: seq<Turn>): string
  {
    if |turns| == 0 then "" else TurnText(turns[0]) + RenderTurns(turns[1..])
  }

  lemma {:induction false} RenderTurnsAppend(a: seq<Turn>, b: seq<Turn>)
    ensures RenderTurns(a + b) == RenderTurns(a) + RenderTurns(b)
    decreases |a|
  {
    if |a| == 0 {
      assert a + b == b;
    } else {
      assert (a + b)[1..] == a[1..] + b;
      RenderTurnsAppend(a[1..], b);
    }
  }

  /** The closing line `f"User: {message}\nAssistant:"`. */
  function Question(message: string): string
  {
    "User: " + message + "\nAssistant:"
  }

  /** `format_chat_prompt(message, history)`: a missing history means the
      instance's own; the last five turns (`history[-5:]`), then the question. */
  function FormatChatPrompt(c: ChatModel, message: string, history: Option<seq<Turn>>): (r: string)
    ensures var h := history.GetOr(c.history);
            var w := Tail(h, -(WindowSize as int));
            && |w| == Min(WindowSize, |h|) && w == h[|h| - |w|..]
            && r == RenderTurns(w) + Question(message)
    ensures |Question(message)| <= |r| && r[|r| - |Question(message)|..] == Question(message)
    ensures history.GetOr(c.history) == [] ==> r == Question(message)
  {
    var h := history.GetOr(c.history);
    var r := RenderTurns(Tail(h, -(WindowSize as int))) + Question(message);
    assert r[|r| - |Question(message)|..] == Question(message);
    r
  }

  /** Only the window matters: turns older than the last five never reach the prompt. */
  lemma WindowIgnoresOlder(c: ChatModel, message: string, older: seq<Turn>, h: seq<Turn>)
    requires |h| >= WindowSize
    ensures FormatChatPrompt(c, message, Some(older + h)) == FormatChatPrompt(c, message, Some(h))
  {
    var s := older + h;
    assert s[|s| - WindowSize..] == h[|h| - WindowSize..];
  }

  /** A short history is rendered whole, in order. */
  lemma ShortHistoryWhole(c: ChatModel, message: string, h: seq<Turn>)
    requires |h| <= WindowSize
    ensures FormatChatPrompt(c, message, Some(h)) == RenderTurns(h) + Question(message)
  {
    assert h[0..] == h;
  }

  /** `generated_text[len(prompt):].strip()` when the output starts with the
      prompt, the output unchanged otherwise. */
  function StripPrompt(prompt: string, text: string): (r: string)
    ensures !StartsWith(text, prompt) ==> r == text
    ensures StartsWith(text, prompt) ==> exists i :: Padded(text[|prompt|..], i, r)
    ensures StartsWith(text, prompt) ==> (r == [] || (!IsSpace(r[0]) && !IsSpace(r[|r| - 1])))
  {
    if StartsWith(text, prompt) then Strip(text[|prompt|..]) else text
  }

  /** Echo removal undoes the echo: a reply after the prompt, padded with
      whitespace, comes back exactly. */
  lemma StripPromptEcho(prompt: string, pre: string, reply: string, post: string)
    requires AllSpace(pre) && AllSpace(post)
    requires reply == [] || (!IsSpace(reply[0]) && !IsSpace(reply[|reply| - 1]))
    ensures StripPrompt(prompt, prompt + pre + reply + post) == reply
  {
    var t := prompt + pre + reply + post;
    assert t[..|prompt|] == prompt;
    assert t[|prompt|..] == pre + reply + post;
    StripPadding(pre, reply, post);
  }

  /** The outcome of one `generate_text` call: the text, and whether a model is
      loaded afterwards. */
  datatype Generation = Generation(text: Option<string>, loaded: bool)

  /** `generate_text(prompt)`: load first if needed (a failed load gives `None`);
      an empty or whitespace-only prompt then gives `""`; otherwise the decoded
      output with the echoed prompt removed, or `None` if generation raised. */
  function GenerateText(loaded: bool, prompt: string, loadOk: bool, decoded: Option<string>)
    : (g: Generation)
    ensures g.loaded <==> loaded || loadOk
    ensures !g.loaded ==> g.text == None
    ensures g.loaded && AllSpace(prompt) ==> g.text == Some("")
    ensures g.loaded && !AllSpace(prompt) && decoded.None? ==> g.text == None
    ensures g.loaded && !AllSpace(prompt) && decoded.Some? ==>
              g.text == Some(StripPrompt(prompt, decoded.value))
  {
    if !loaded && !loadOk then Generation(None, false)
    else if prompt == "" || Strip(prompt) == "" then
      StripBlank(prompt);
      Generation(Some(""), true)
    else
      StripBlank(prompt);
      match decoded
      case None => Generation(None, true)
      case Some(t) => Generation(Some(StripPrompt(prompt, t)), true)
  }

  /** Whether a model is loaded before the `i`-th call of a run of calls. */
  function LoadedBefore(loaded: bool, loadOk: nat -> bool, i: nat): bool
  {
    if i == 0 then loaded else LoadedBefore(loaded, loadOk, i - 1) || loadOk(i - 1)
  }

  /** Once a load succeeds the model stays loaded: it is loaded before call `i`
      exactly when it was loaded at the start or some earlier call loaded it. */
  lemma {:induction false} LoadedBeforeSpec(loaded: bool, loadOk: nat -> bool, i: nat)
    ensures LoadedBefore(loaded, loadOk, i) <==> loaded || exists j :: 0 <= j < i && loadOk(j)
  {
    if i > 0 {
      LoadedBeforeSpec(loaded, loadOk, i - 1);
      if loadOk(i - 1) {
        assert 0 <= i - 1 < i && loadOk(i - 1);
      }
      if exists j :: 0 <= j < i && loadOk(j) {
        var j :| 0 <= j < i && loadOk(j);
        if j < i - 1 {
          assert 0 <= j < i - 1 && loadOk(j);
        }
      }
    }
  }

  /** The `k`-th call of a batch: the state left by the calls before it. */
  function NthGeneration(loaded: bool, prompts: seq<string>, loadOk: nat -> bool,
                         decode: nat -> Option<string>, k: nat): Generation
    requires k < |prompts|
  {
    GenerateText(LoadedBefore(loaded, loadOk, k), prompts[k], loadOk(k), decode(k))
  }

  /** The first `i` results are those of the first `i` calls. */
  predicate ResultsSoFar(loaded: bool, prompts: seq<string>, loadOk: nat -> bool,
                         decode: nat -> Option<string>, results: seq<Option<string>>)
  {
    |results| <= |prompts| &&
    forall k :: 0 <= k < |results| ==> results[k] == NthGeneration(loaded, prompts, loadOk, decode, k).text
  }

  lemma ResultsStep(loaded: bool, prompts: seq<string>, loadOk: nat -> bool,
                    decode: nat -> Option<string>, results: seq<Option<string>>)
    requires ResultsSoFar(loaded, prompts, loadOk, decode, results) && |results| < |prompts|
    ensures var g := NthGeneration(loaded, prompts, loadOk, decode, |results|);
            && ResultsSoFar(loaded, prompts, loadOk, decode, results + [g.text])
            && g.loaded == LoadedBefore(loaded, loadOk, |results| + 1)
  {
    var i := |results|;
    var g := NthGeneration(loaded, prompts, loadOk, decode, i);
    assert g.loaded <==> LoadedBefore(loaded, loadOk, i) || loadOk(i);
    var next := results + [g.text];
    forall k | 0 <= k < |next| ensures next[k] == NthGeneration(loaded, prompts, loadOk, decode, k).text {
      if k < i { assert next[k] == results[k]; }
    }
  }

  /** `batch_generate(prompts)`: one `generate_text` call per prompt, in order,
      each seeing the loaded state the calls before it left; `loadOk(i)` and
      `decode(i)` are the outcomes the `i`-th call would see. */
  method BatchGenerate(loaded: bool, prompts: seq<string>, loadOk: nat -> bool, decode: nat -> Option<string>)
    returns (results: seq<Option<string>>, loadedAfter: bool)
    ensures |results| == |prompts|
    ensures forall i :: 0 <= i < |prompts| ==>
              results[i] == GenerateText(LoadedBefore(loaded, loadOk, i), prompts[i], loadOk(i), decode(i)).text
    ensures loadedAfter <==> loaded || exists j :: 0 <= j < |prompts| && loadOk(j)
  {
    results := [];
    loadedAfter := loaded;
    while |results| < |prompts|
      invariant ResultsSoFar(loaded, prompts, loadOk, decode, results)
      invariant loadedAfter == LoadedBefore(loaded, loadOk, |results|)
      decreases |prompts| - |results|
    {
      var i := |results|;
      var g := GenerateText(loadedAfter, prompts[i], loadOk(i), decode(i));
      ResultsStep(loaded, prompts, loadOk, decode, results);
      results := results + [g.text];
      loadedAfter := g.loaded;
    }
    LoadedBeforeSpec(loaded, loadOk, |prompts|);
  }

  /** `chat(message)`: build the prompt from the instance's history, generate,
      record the turn (`response or ""`), and answer with the response or the
      apology when there is none. */
  function ChatTurn(c: ChatModel, message: string, loadOk: bool, decoded: Option<string>)
    : (r: (string, ChatModel))
    ensures |r.1.history| == |c.history| + 1 && r.1.history[..|c.history|] == c.history
    ensures r.1.history[|c.history|].user == message
    ensures r.0 != ""
    ensures r.1.history[|c.history|].assistant != "" ==> r.0 == r.1.history[|c.history|].assistant
    ensures r.1.history[|c.history|].assistant == "" ==> r.0 == Apology
    ensures r.1.loaded <==> c.loaded || loadOk
  {
    var prompt := FormatChatPrompt(c, message, None);
    var g := GenerateText(c.loaded, prompt, loadOk, decoded);
    var stored := if g.text.Some? then g.text.value else "";
    var next := ChatModel(g.loaded, c.history + [Turn(message, stored)]);
    assert next.history[..|c.history|] == c.history;
    (if stored == "" then Apology else stored, next)
  }

  /** The reply `chat` records is what `generate_text` produced for the prompt
      built from the instance's history and the new message (`""` when it
      produced nothing), and the load flag is the one `generate_text` left. */
  lemma ChatTurnReply(c: ChatModel, message: string, loadOk: bool, decoded: Option<string>)
    ensures var r := ChatTurn(c, message, loadOk, decoded);
            var g := GenerateText(c.loaded, FormatChatPrompt(c, message, None), loadOk, decoded);
            && r.1.history[|c.history|].assistant == g.text.GetOr("")
            && r.1.loaded == g.loaded
  {
  }

  /** The turn `chat` records is the newest one the next prompt shows, right
      before the next question. */
  lemma ChatFeedsNextPrompt(c: ChatModel, message: string, loadOk: bool, decoded: Option<string>, next: string)
    ensures var after := ChatTurn(c, message, loadOk, decoded).1;
            EndsWith(FormatChatPrompt(after, next, None), TurnText(after.history[|c.history|]) + Question(next))
  {
    var after := ChatTurn(c, message, loadOk, decoded).1;
    ChatTurnAppends(c, message, loadOk, decoded);
    LatestTurnLast(after, c.history, after.history[|c.history|], next);
  }

  lemma ChatTurnAppends(c: ChatModel, message: string, loadOk: bool, decoded: Option<string>)
    ensures var h := ChatTurn(c, message, loadOk, decoded).1.history;
            |h| == |c.history| + 1 && h == c.history + [h[|c.history|]]
  {
    var h := ChatTurn(c, message, loadOk, decoded).1.history;
    assert h == h[..|c.history|] + [h[|c.history|]];
  }

  lemma LatestTurnLast(m: ChatModel, h: seq<Turn>, t: Turn, next: string)
    requires m.history == h + [t]
    ensures EndsWith(FormatChatPrompt(m, next, None), TurnText(t) + Question(next))
  {
    var w := Tail(h + [t], -(WindowSize as int));
    assert w == w[..|w| - 1] + [t];
    RenderTurnsAppend(w[..|w| - 1], [t]);
    assert RenderTurns([t]) == TurnText(t) + RenderTurns([]);
    var prompt := FormatChatPrompt(m, next, None);
    var tail := TurnText(t) + Question(next);
    assert prompt == RenderTurns(w[..|w| - 1]) + tail;
  }
}
