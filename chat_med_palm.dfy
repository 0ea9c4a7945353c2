/** The parts of `ChatMedPalm` that do not talk to the endpoint: folding a
    conversation into one request message, picking the reply text out of the
    predictions, and cutting a reply into per-character stream chunks. */
module ChatMedPalm {
  import opened Wrappers
  import opened Text

  /** A chat message; `Other` is any message kind the merger does not
      know (tool or function messages, for instance). */
  datatype Message =
    | SystemMessage(content: string)
    | HumanMessage(content: string)
    | AiMessage(content: string)
    | OtherMessage(content: string)

  const AiRejected: string := "AI messages are not allowed for medPalm models."
  const NoResponse: string := "No response generated."
  const ContentSeparator: string := ". "

  /** The request text built from the joined system and human contents. */
  function Prompt(system: string, human: string): string {
    "your instructions:\n<" + system + ">\nthe request:\n<" + human + ">"
  }

  /** The contents of the system messages, in order. */
  function SystemContents(ms: seq<Message>): seq<string> {
    if ms == [] then []
    else SystemContents(ms[..|ms| - 1])
         + (if ms[|ms| - 1].SystemMessage? then [ms[|ms| - 1].content] else [])
  }

  /** The contents of the human messages, in order. */
  function HumanContents(ms: seq<Message>): seq<string> {
    if ms == [] then []
    else HumanContents(ms[..|ms| - 1])
         + (if ms[|ms| - 1].HumanMessage? then [ms[|ms| - 1].content] else [])
  }

  predicate HasAiMessage(ms: seq<Message>) {
    exists i :: 0 <= i < |ms| && ms[i].AiMessage?
  }

  /** `_merge_messages`: any AI message raises; otherwise one human message
      carrying the system contents and the human contents, each joined with
      `". "` in order. Messages of other kinds are skipped. */
  method MergeMessages(messages: seq<Message>) returns (r: Result<Message, string>)
    ensures r.Failure? <==> HasAiMessage(messages)
    ensures r.Failure? ==> r.error == AiRejected
    ensures r.Success? ==> r.value == HumanMessage(Prompt(
      Join(ContentSeparator, SystemContents(messages)),
      Join(ContentSeparator, HumanContents(messages))))
  {
    var systemMessages: seq<string> := [];
    var humanMessages: seq<string> := [];
    for i := 0 to |messages|
      invariant systemMessages == SystemContents(messages[..i])
      invariant humanMessages == HumanContents(messages[..i])
      invariant !HasAiMessage(messages[..i])
    {
      assert messages[..i + 1][..i] == messages[..i];
      var msg := messages[i];
      match msg
      case SystemMessage(c) =>
        systemMessages := systemMessages + [c];
      case HumanMessage(c) =>
        humanMessages := humanMessages + [c];
      case AiMessage(_) =>
        assert messages[..i + 1][i].AiMessage?;
        AiAnywhere(messages, i);
        return Failure(AiRejected);
      case OtherMessage(_) =>
    }
    assert messages[..|messages|] == messages;
    var mergedSystem := Join(ContentSeparator, systemMessages);
    var mergedHuman := Join(ContentSeparator, humanMessages);
    return Success(HumanMessage(Prompt(mergedSystem, mergedHuman)));
  }

  /** An AI message at any position makes the whole conversation rejected. */
  lemma AiAnywhere(ms: seq<Message>, i: nat)
    requires i < |ms| && ms[i].AiMessage?
    ensures HasAiMessage(ms)
  {
  }

  // ---------------------------------------------------------------------
  // Properties of the merge
  // ---------------------------------------------------------------------

  /** Both content lists distribute over concatenation: contents keep the
      order of the conversation. */
  lemma {:induction false} ContentsAppend(a: seq<Message>, b: seq<Message>)
    ensures SystemContents(a + b) == SystemContents(a) + SystemContents(b)
    ensures HumanContents(a + b) == HumanContents(a) + HumanContents(b)
    decreases |b|
  {
    if b == [] {
      AppendEmpty(a);
    } else {
      var q := b[..|b| - 1];
      var last := b[|b| - 1];
      InitOfAppend(a, b);
      ContentsAppend(a, q);
      ConcatAssoc(SystemContents(a), SystemContents(q), if last.SystemMessage? then [last.content] else []);
      ConcatAssoc(HumanContents(a), HumanContents(q), if last.HumanMessage? then [last.content] else []);
    }
  }

  /** A message of another kind changes neither content list. */
  lemma OtherMessageIgnored(a: seq<Message>, c: string, b: seq<Message>)
    ensures SystemContents(a + [OtherMessage(c)] + b) == SystemContents(a + b)
    ensures HumanContents(a + [OtherMessage(c)] + b) == HumanContents(a + b)
  {
    ContentsAppend(a + [OtherMessage(c)], b);
    ContentsAppend(a, [OtherMessage(c)]);
    ContentsAppend(a, b);
    assert [OtherMessage(c)][..0] == [];
  }

  /** The system list holds exactly the system messages' contents. */
  lemma {:induction false} SystemContentsMembers(ms: seq<Message>, c: string)
    ensures c in SystemContents(ms) <==> exists i :: 0 <= i < |ms| && ms[i] == SystemMessage(c)
  {
    if ms != [] {
      var init := ms[..|ms| - 1];
      SystemContentsMembers(init, c);
      if c in SystemContents(init) {
        var i :| 0 <= i < |init| && init[i] == SystemMessage(c);
        assert ms[i] == SystemMessage(c);
      }
      if exists i :: 0 <= i < |ms| && ms[i] == SystemMessage(c) {
        var i :| 0 <= i < |ms| && ms[i] == SystemMessage(c);
        if i < |init| {
          assert init[i] == SystemMessage(c);
        }
      }
    }
  }

  /** The request text frames the two joined lists, and the lists can be
      read back from it once the length of the system part is known. */
  lemma PromptFraming(s1: string, h1: string, s2: string, h2: string)
    requires Prompt(s1, h1) == Prompt(s2, h2) && |s1| == |s2|
    ensures s1 == s2 && h1 == h2
  {
    var p := "your instructions:\n<";
    var q := ">\nthe request:\n<";
    var t1 := Prompt(s1, h1);
    assert t1 == p + s1 + q + h1 + ">";
    assert Prompt(s2, h2) == p + s2 + q + h2 + ">";
    assert s1 == t1[|p|..|p| + |s1|];
    assert s2 == t1[|p|..|p| + |s2|];
    assert h1 == t1[|p| + |s1| + |q|..|t1| - 1];
    assert h2 == t1[|p| + |s2| + |q|..|t1| - 1];
  }

  /** The conversation of the example below. */
  const ExampleConversation: seq<Message> :=
    [SystemMessage("be brief"), OtherMessage("x"), HumanMessage("hi"), SystemMessage("cite")]

  lemma ExamplePrefixes(ms: seq<Message>)
    requires ms == ExampleConversation
    ensures ms[..|ms| - 1] == ms[..3] && ms[..3][..2] == ms[..2]
    ensures ms[..2][..1] == ms[..1] && ms[..1][..0] == []
  {
  }

  lemma ExampleSystem(ms: seq<Message>)
    requires ms == ExampleConversation
    ensures SystemContents(ms) == ["be brief", "cite"]
  {
    ExamplePrefixes(ms);
    assert SystemContents(ms[..1]) == ["be brief"];
    assert SystemContents(ms[..2]) == ["be brief"];
    assert SystemContents(ms[..3]) == ["be brief"];
  }

  lemma ExampleHuman(ms: seq<Message>)
    requires ms == ExampleConversation
    ensures HumanContents(ms) == ["hi"]
  {
    ExamplePrefixes(ms);
    assert HumanContents(ms[..1]) == [];
    assert HumanContents(ms[..2]) == [];
    assert HumanContents(ms[..3]) == ["hi"];
  }

  /** A conversation with two system messages, a message of another kind
      and a human message. */
  lemma MergeExample()
    ensures var ms := ExampleConversation;
      Join(ContentSeparator, SystemContents(ms)) == "be brief. cite"
      && Join(ContentSeparator, HumanContents(ms)) == "hi"
      && Prompt(Join(ContentSeparator, SystemContents(ms)), Join(ContentSeparator, HumanContents(ms)))
         == "your instructions:\n<be brief. cite>\nthe request:\n<hi>"
  {
    ExampleSystem(ExampleConversation);
    ExampleHuman(ExampleConversation);
    assert Join(ContentSeparator, ["be brief", "cite"]) == "be brief. cite";
    ExamplePrompt();
  }

  lemma ExamplePrompt()
    ensures Prompt("be brief. cite", "hi") == "your instructions:\n<be brief. cite>\nthe request:\n<hi>"
  {
  }

  // ---------------------------------------------------------------------
  // The reply
  // ---------------------------------------------------------------------

  /** A value in a prediction: a string or anything else. */
  datatype Value = Str(text: string) | NonString

  /** One prediction; `content` is `None` when the key is absent. */
  datatype Prediction = Prediction(content: Option<Value>)

  /** The reply content `_generate` extracts from the endpoint's predictions.
      A leaf selection: its three cases are its definition. */
  function ResponseContent(predictions: seq<Prediction>): (r: Value)
    ensures predictions == [] ==> r == Str(NoResponse)
    ensures predictions != [] && predictions[0].content.None? ==> r == Str("")
    ensures predictions != [] && predictions[0].content.Some? ==> r == predictions[0].content.value
  {
    if predictions == [] then Str(NoResponse)
    else if predictions[0].content.Some? then predictions[0].content.value
    else Str("")
  }

  /** Only the first prediction matters. */
  lemma LaterPredictionsIgnored(p: Prediction, rest1: seq<Prediction>, rest2: seq<Prediction>)
    ensures ResponseContent([p] + rest1) == ResponseContent([p] + rest2)
  {
  }

  /** `_stream`: one chunk per character of a string reply, nothing for any
      other reply. */
  method Stream(content: Value) returns (chunks: seq<string>)
    ensures content.NonString? ==> chunks == []
    ensures content.Str? ==> |chunks| == |content.text|
    ensures content.Str? ==> forall i :: 0 <= i < |chunks| ==> chunks[i] == [content.text[i]]
    ensures content.Str? ==> Concat(chunks) == content.text
  {
    chunks := [];
    if content.Str? {
      var s := content.text;
      for i := 0 to |s|
        invariant |chunks| == i
        invariant forall j :: 0 <= j < i ==> chunks[j] == [s[j]]
        invariant Concat(chunks) == s[..i]
      {
        ConcatAppend(chunks, [[s[i]]]);
        assert Concat([[s[i]]]) == [s[i]];
        assert s[..i + 1] == s[..i] + [s[i]];
        chunks := chunks + [[s[i]]];
      }
      assert s[..|s|] == s;
    }
  }
}
