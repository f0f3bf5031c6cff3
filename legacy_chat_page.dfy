/** The older chat page (`Pages/Index`): a conversation that starts with one
    system message, answered by a streamed completion over which the page's
    token is passed, and exported as Markdown. Nothing is stored. */
module LegacyChatPage {
  import opened Wrappers
  import opened Text
  import opened Cancellation
  import opened Conversation

  /** An Azure `ChatMessage`: its role and its content (a null content
      reads as ""). */
  datatype ChatMessage = ChatMessage(role: Role, content: string)

  /** A snapshot of the page's fields. */
  datatype LegacyView = LegacyView(
    messages: seq<ChatMessage>, token: TokenView, warning: string,
    next: string, stream: string, loading: bool, selectedModel: string)

  /** `AbortSearch`: the guarded `Cancel()`; what it throws becomes the
      warning. Nothing else changes. */
  function Abort(v: LegacyView): LegacyView {
    var (token, error) := CancelField(v.token);
    v.(token := token, warning := error.GetOr(v.warning))
  }

  /** `RunSearch` as written, for the completion that `chat` streams for a
      model and a conversation: the user turn is appended first; every
      `TaskCanceledException` is ignored whatever the token says; a
      completed stream appends one assistant message with the text in
      `stream`, which starts from whatever `stream` held before. */
  function Search(v: LegacyView, chat: (string, seq<ChatMessage>) -> StreamRun): LegacyView {
    var asked := v.(loading := true, messages := v.messages + [ChatMessage(User, v.next)], next := "",
                    token := Source(false, false));
    var run := chat(v.selectedModel, asked.messages);
    var streamed := asked.(stream := asked.stream + Streamed(run.updates));
    var q := if run.abortPressed then Abort(streamed) else streamed;
    match run.end
    case Completed =>
      q.(messages := q.messages + [ChatMessage(Assistant, q.stream)], loading := false, stream := "", warning := "")
    case Broke(Canceled) => q.(loading := false)
    case Broke(Raised(message)) => q.(warning := message, loading := false)
  }

  /** `RunSearch` with `stream` emptied when it starts, so that an answer
      holds only the fragments of its own stream. */
  function FreshSearch(v: LegacyView, chat: (string, seq<ChatMessage>) -> StreamRun): LegacyView {
    Search(v.(stream := ""), chat)
  }

  /** Every search first appends the user turn with `next`, empties `next`
      and ends with `loading` false. */
  lemma SearchAsksFirst(v: LegacyView, chat: (string, seq<ChatMessage>) -> StreamRun)
    ensures var w := FreshSearch(v, chat);
      && |w.messages| >= |v.messages| + 1
      && w.messages[..|v.messages| + 1] == v.messages + [ChatMessage(User, v.next)]
      && w.next == "" && !w.loading
  {
  }

  /** A completed stream adds exactly one assistant message, whose text is
      the in-order concatenation of the stream's fragments, and clears
      `stream` and the warning. */
  lemma SearchCompletes(v: LegacyView, chat: (string, seq<ChatMessage>) -> StreamRun)
    requires chat(v.selectedModel, v.messages + [ChatMessage(User, v.next)]).end.Completed?
    ensures var run := chat(v.selectedModel, v.messages + [ChatMessage(User, v.next)]);
      var w := FreshSearch(v, chat);
      && w.messages == v.messages + [ChatMessage(User, v.next), ChatMessage(Assistant, Concat(Flatten(run.updates)))]
      && w.stream == "" && w.warning == "" && !w.loading
  {
    var run := chat(v.selectedModel, v.messages + [ChatMessage(User, v.next)]);
    StreamedIsConcatenation(run.updates);
    assert "" + Streamed(run.updates) == Streamed(run.updates);
  }

  /** A broken stream adds no assistant message; a `TaskCanceledException`
      leaves the warning alone whether or not Abort was pressed, and any
      other exception shows its message. */
  lemma SearchFails(v: LegacyView, chat: (string, seq<ChatMessage>) -> StreamRun)
    requires chat(v.selectedModel, v.messages + [ChatMessage(User, v.next)]).end.Broke?
    ensures var run := chat(v.selectedModel, v.messages + [ChatMessage(User, v.next)]);
      var w := FreshSearch(v, chat);
      && w.messages == v.messages + [ChatMessage(User, v.next)] && !w.loading
      && (run.end.fault.Canceled? ==> w.warning == v.warning)
      && (run.end.fault.Raised? ==> w.warning == run.end.fault.message)
  {
  }

  /** `RunSearch` as written: the user turn comes first and `next` is
      emptied; the stream's fragments are appended to what `stream` already
      held. A completed stream turns all of it into the one assistant
      message and clears `stream`; a broken stream leaves it in `stream`,
      and only an exception other than a `TaskCanceledException` sets the
      warning. */
  lemma SearchAsWritten(v: LegacyView, chat: (string, seq<ChatMessage>) -> StreamRun)
    ensures var run := chat(v.selectedModel, v.messages + [ChatMessage(User, v.next)]);
      var w := Search(v, chat);
      && |w.messages| >= |v.messages| + 1
      && w.messages[..|v.messages| + 1] == v.messages + [ChatMessage(User, v.next)]
      && w.next == "" && !w.loading
      && (run.end.Completed? ==>
            && w.messages == v.messages + [ChatMessage(User, v.next),
                                           ChatMessage(Assistant, v.stream + Concat(Flatten(run.updates)))]
            && w.stream == "" && w.warning == "")
      && (run.end.Broke? ==>
            && w.messages == v.messages + [ChatMessage(User, v.next)]
            && w.stream == v.stream + Concat(Flatten(run.updates))
            && (run.end.fault.Canceled? ==> w.warning == v.warning)
            && (run.end.fault.Raised? ==> w.warning == run.end.fault.message))
  {
    var run := chat(v.selectedModel, v.messages + [ChatMessage(User, v.next)]);
    StreamedIsConcatenation(run.updates);
  }

  /** A completion that the user aborts after the fragment "Hel". */
  function AbortedAfterHel(model: string, conversation: seq<ChatMessage>): StreamRun {
    StreamRun([["Hel"]], true, Broke(Canceled))
  }

  /** A completion that delivers "Hi". */
  function AnsweredHi(model: string, conversation: seq<ChatMessage>): StreamRun {
    StreamRun([["Hi"]], false, Completed)
  }

  /** As written, an aborted stream keeps its fragments in `stream`, and
      the next completed search puts them in front of its own answer. */
  lemma StaleStreamLeaks()
    ensures var v := LegacyView([], NoSource, "", "first", "", false, "gpt-4");
      var v1 := Search(v, AbortedAfterHel);
      var v2 := Search(v1.(next := "second"), AnsweredHi);
      v2.messages == [ChatMessage(User, "first"), ChatMessage(User, "second"), ChatMessage(Assistant, "HelHi")]
  {
    var v := LegacyView([], NoSource, "", "first", "", false, "gpt-4");
    assert Streamed([["Hel"]]) == "Hel" by {
      assert [["Hel"]][..0] == [];
    }
    assert Streamed([["Hi"]]) == "Hi" by {
      assert [["Hi"]][..0] == [];
    }
    var v1 := Search(v, AbortedAfterHel);
    assert v1.stream == "Hel";
    assert v1.messages == [ChatMessage(User, "first")];
    assert "Hel" + "Hi" == "HelHi";
    var v2 := Search(v1.(next := "second"), AnsweredHi);
    assert v2.messages == v1.messages + [ChatMessage(User, "second"), ChatMessage(Assistant, "Hel" + "Hi")];
  }

  /** `DeleteMessage`: the message at `i` is removed and the others keep
      their order; no message, no change. */
  function Delete(v: LegacyView, i: nat): (w: LegacyView)
    ensures i < |v.messages| ==> (|w.messages| == |v.messages| - 1
      && (forall k :: 0 <= k < i ==> w.messages[k] == v.messages[k])
      && (forall k :: i <= k < |w.messages| ==> w.messages[k] == v.messages[k + 1]))
    ensures i >= |v.messages| ==> w == v
  {
    if i < |v.messages| then v.(messages := v.messages[..i] + v.messages[i + 1..]) else v
  }

  /** The (role, content) pairs `DownloadConversation` writes. */
  function Entries(ms: seq<ChatMessage>): seq<(string, string)> {
    seq(|ms|, i requires 0 <= i < |ms| => (RoleName(ms[i].role), ms[i].content))
  }

  class LegacyChatPage {
    var messages: seq<ChatMessage>
    var cts: TokenSource?
    var warning: string
    var next: string
    var stream: string
    var loading: bool
    var selectedModel: string

    function View(): LegacyView
      reads this, cts
    {
      LegacyView(messages, ViewOf(cts), warning, next, stream, loading, selectedModel)
    }

    /** The field initialisers: the chat holds the system prompt for
        `today` and nothing else. */
    constructor (today: string, selectedModel: string)
      ensures View() == LegacyView([ChatMessage(System, SystemPrompt(today))], NoSource, "", "", "", true, selectedModel)
    {
      messages := [ChatMessage(System, SystemPrompt(today))];
      cts, warning, next, stream := null, "", "", "";
      loading := true;
      this.selectedModel := selectedModel;
    }

    /** `OnAfterRenderAsync` on the first render. */
    method FirstRender()
      modifies this
      ensures View() == old(View()).(loading := false)
    {
      loading := false;
    }

    method AbortSearch()
      modifies this, cts
      ensures cts == old(cts)
      ensures View() == Abort(old(View()))
    {
      if cts != null {
        var error := cts.Cancel();
        if error.Some? {
          warning := error.value;
        }
      }
    }

    /** The inner `await foreach`: every fragment of one update is appended
        to `stream`, in order. */
    method ReceiveUpdate(contents: seq<string>)
      modifies this
      ensures cts == old(cts)
      ensures View() == old(View()).(stream := old(stream) + Concat(contents))
    {
      var j := 0;
      while j < |contents|
        invariant 0 <= j <= |contents| && cts == old(cts)
        invariant View() == old(View()).(stream := old(stream) + Concat(contents[..j]))
      {
        ConcatStep(contents, j);
        stream := stream + contents[j];
        j := j + 1;
      }
      assert contents[..j] == contents;
    }

    /** The `await foreach` over the choices and the `await foreach` over
        each choice's message updates, appending every content to `stream`. */
    method ReceiveStream(choices: seq<seq<string>>)
      modifies this
      ensures cts == old(cts)
      ensures View() == old(View()).(stream := old(stream) + Streamed(choices))
    {
      var i := 0;
      while i < |choices|
        invariant 0 <= i <= |choices| && cts == old(cts)
        invariant View() == old(View()).(stream := old(stream) + Streamed(choices[..i]))
      {
        ReceiveUpdate(choices[i]);
        StreamedStep(choices, i);
        assert stream == old(stream) + (Streamed(choices[..i]) + Concat(choices[i]));
        i := i + 1;
      }
      assert choices[..i] == choices;
    }

    /** The start of `RunSearch`: the stream is emptied, the user turn with
        `next` is appended, `next` is emptied and a new source is created. */
    method BeginSearch()
      modifies this
      ensures cts != null && fresh(cts)
      ensures View() == old(View()).(stream := "", loading := true, messages := old(messages) + [ChatMessage(User, old(next))],
                                     next := "", token := Source(false, false))
    {
      stream := "";
      loading := true;
      messages := messages + [ChatMessage(User, next)];
      next := "";
      cts := new TokenSource();
    }

    /** `RunSearch`, with `stream` emptied when it starts (see Findings in
        the README). */
    method RunSearch(chat: (string, seq<ChatMessage>) -> StreamRun)
      modifies this
      ensures View() == FreshSearch(old(View()), chat)
      ensures cts != null && fresh(cts)
    {
      BeginSearch();
      var run := chat(selectedModel, messages);
      ReceiveStream(run.updates);
      if run.abortPressed {
        AbortSearch();
      }
      match run.end {
        case Completed =>
          messages := messages + [ChatMessage(Assistant, stream)];
          loading := false;
          stream := "";
          warning := "";
        case Broke(Canceled) =>
        case Broke(Raised(message)) =>
          warning := message;
      }
      loading := false;
    }

    method DeleteMessage(i: nat)
      modifies this
      ensures View() == Delete(old(View()), i)
    {
      if i < |messages| {
        messages := messages[..i] + messages[i + 1..];
      }
    }

    method CopyMessageToNext(m: ChatMessage)
      modifies this
      ensures View() == old(View()).(next := m.content)
    {
      next := m.content;
    }

    /** `DownloadConversation`: the Markdown text handed to the download. */
    method DownloadConversation() returns (markdown: string)
      ensures markdown == Export(Entries(messages))
    {
      var entries := Entries(messages);
      markdown := ExportHeader + [NewLine];
      assert markdown == Terminated(ExportLines(entries[..0]));
      for i := 0 to |messages|
        invariant markdown == Terminated(ExportLines(entries[..i]))
      {
        ExportStep(entries, i);
        markdown := markdown + "## " + RoleName(messages[i].role) + [NewLine];
        markdown := markdown + messages[i].content + [NewLine];
      }
      assert entries[..|messages|] == entries;
    }
  }
}
