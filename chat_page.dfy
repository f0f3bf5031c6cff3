/** The chat page (`Components/Pages/Index`): a conversation kept as a list
    of messages, answered by a streamed chat completion, saved to and
    restored from the browser's local storage as (role, text) records, and
    exported as Markdown. */
module ChatPage {
  import opened Wrappers
  import opened Text
  import opened Cancellation
  import opened Conversation

  /** One content part of a message: text, or a part without text (an
      image). */
  datatype Part = TextPart(text: string) | NonTextPart

  /** A `ChatMessage`: its kind and its content parts. */
  datatype Message = Message(role: Role, parts: seq<Part>)

  /** `new SystemChatMessage(text)` and its siblings: a single text part. */
  function TextMessage(role: Role, text: string): Message {
    Message(role, [TextPart(text)])
  }

  const NoText: string := "[No Text]"

  /** `GetChatMessageContent`: the text of the first part, or "[No Text]"
      when there is no part or the first carries no text. */
  function Content(m: Message): (text: string)
    ensures m.parts != [] && m.parts[0].TextPart? ==> text == m.parts[0].text
    ensures text == NoText || (m.parts != [] && m.parts[0] == TextPart(text))
  {
    if m.parts != [] && m.parts[0].TextPart? then m.parts[0].text else NoText
  }

  /** `MyChatMessage`, the record a message is saved as. */
  datatype Record = Record(role: string, message: string)

  /** The switch in `StoreChatHistory`: the role's name and the content; a
      message of any other kind is saved as an empty record. */
  function Save(m: Message): (r: Record)
    ensures m.role != Other ==> r == Record(RoleName(m.role), Content(m))
    ensures m.role == Other ==> r == Record("", "")
  {
    match m.role
    case System => Record(RoleSystem, Content(m))
    case User => Record(RoleUser, Content(m))
    case Assistant => Record(RoleAssistant, Content(m))
    case Other => Record("", "")
  }

  /** The switch in `JsonToChat`: roles are compared ordinally, and every
      role other than "system" and "assistant" loads as a user message. */
  function Load(r: Record): (m: Message)
    ensures m == TextMessage(m.role, r.message) && m.role != Other
    ensures r.role in {RoleSystem, RoleUser, RoleAssistant} ==> RoleName(m.role) == r.role
    ensures r.role !in {RoleSystem, RoleAssistant} ==> m.role == User
  {
    if r.role == RoleSystem then TextMessage(System, r.message)
    else if r.role == RoleAssistant then TextMessage(Assistant, r.message)
    else TextMessage(User, r.message)
  }

  /** A message as it comes back from storage: its kind and its content as
      a single text part. */
  function Normalized(m: Message): Message {
    TextMessage(m.role, Content(m))
  }

  /** Saving and loading keep the kind and the content of system, user and
      assistant messages, a message without text being saved as "[No Text]";
      a record comes back unchanged exactly when its role is one of the
      three names, and any other role loads as user. */
  lemma RoleMappingRoundTrip(m: Message, r: Record)
    ensures m.role != Other ==> Load(Save(m)) == Normalized(m)
    ensures m.role == Other ==> Load(Save(m)) == TextMessage(User, "")
    ensures m.role != Other && (m.parts == [] || !m.parts[0].TextPart?) ==> Save(m).message == NoText
    ensures Save(Load(r)) == r <==> r.role in {RoleSystem, RoleUser, RoleAssistant}
    ensures r.role !in {RoleSystem, RoleAssistant} ==> Load(r) == TextMessage(User, r.message)
    ensures Content(Load(r)) == r.message
  {
  }

  function SaveAll(ms: seq<Message>): seq<Record> {
    seq(|ms|, i requires 0 <= i < |ms| => Save(ms[i]))
  }

  function LoadAll(rs: seq<Record>): seq<Message> {
    seq(|rs|, i requires 0 <= i < |rs| => Load(rs[i]))
  }

  predicate KnownRoles(ms: seq<Message>) {
    forall i :: 0 <= i < |ms| ==> ms[i].role != Other
  }

  /** A saved history loads back with the same length and order, and each
      message with its kind and content. */
  lemma HistoryRoundTrip(ms: seq<Message>)
    requires KnownRoles(ms)
    ensures |LoadAll(SaveAll(ms))| == |ms|
    ensures forall i :: 0 <= i < |ms| ==>
      LoadAll(SaveAll(ms))[i] == Normalized(ms[i]) && Content(LoadAll(SaveAll(ms))[i]) == Content(ms[i])
  {
    forall i | 0 <= i < |ms|
      ensures LoadAll(SaveAll(ms))[i] == Normalized(ms[i])
    {
      RoleMappingRoundTrip(ms[i], Record("", ""));
    }
  }

  /** What local storage holds under "ChatHistoryV1": nothing, text that
      does not deserialize, or a list of records. */
  datatype History = NoHistory | Unreadable | Records(records: seq<Record>)

  /** The page's entries in local storage: the history, "SelectedModel" and
      "IsAutoscrollEnabled". */
  datatype Storage = Storage(history: History, selectedModel: Option<string>, autoscroll: Option<bool>)

  /** The messages `InitiateChat` obtains from storage: an absent entry
      reads as "[]" and one that fails to deserialize as no message. */
  function Stored(h: History): seq<Message> {
    match h
    case NoHistory => []
    case Unreadable => []
    case Records(records) => LoadAll(records)
  }

  /** A configured model; its `Key` is "{DeploymentName}-{Hint}". */
  datatype ModelOption = ModelOption(deploymentName: string, hint: string)

  function Key(o: ModelOption): string {
    o.deploymentName + "-" + o.hint
  }

  /** `FirstOrDefault(x => x.Key == key)`: the first option with that key. */
  function FindOption(options: seq<ModelOption>, key: string): (r: Option<ModelOption>)
    ensures r.None? <==> forall i :: 0 <= i < |options| ==> Key(options[i]) != key
    ensures r.Some? ==> exists i :: (0 <= i < |options| && options[i] == r.value && Key(r.value) == key
      && forall j :: 0 <= j < i ==> Key(options[j]) != key)
  {
    if options == [] then None
    else if Key(options[0]) == key then Some(options[0])
    else
      var r := FindOption(options[1..], key);
      assert r.Some? ==> exists i :: (0 < i < |options| && options[i] == r.value && Key(r.value) == key
        && forall j :: 0 <= j < i ==> Key(options[j]) != key) by {
        if r.Some? {
          var i :| 0 <= i < |options| - 1 && options[1..][i] == r.value && Key(r.value) == key
            && forall j :: 0 <= j < i ==> Key(options[1..][j]) != key;
          assert options[i + 1] == r.value;
          assert forall j :: 0 < j < i + 1 ==> Key(options[j]) == Key(options[1..][j - 1]);
        }
      }
      r
  }

  /** A snapshot of the page's fields. */
  datatype ChatView = ChatView(
    messages: seq<Message>, token: TokenView, warning: string,
    next: string, stream: string, loading: bool,
    autoscroll: bool, selectedKey: string, storage: Storage)

  const ModelNotFoundMessage: string := "Selected model is not found."

  /** `AbortSearch`: the guarded `Cancel()`; what it throws becomes the
      warning. Nothing else changes. */
  function Abort(v: ChatView): ChatView {
    var (token, error) := CancelField(v.token);
    v.(token := token, warning := error.GetOr(v.warning))
  }

  /** `StoreChatHistory`: the history entry holds the messages' records. */
  function Persist(v: ChatView): ChatView {
    v.(storage := v.storage.(history := Records(SaveAll(v.messages))))
  }

  /** `RunSearch` as written, for the completion that `chat` streams for a
      deployment and a conversation: the user turn is appended first; a
      completed stream appends one assistant message with the text in
      `stream`, which starts from whatever `stream` held before. The page
      does not hand its token to the stream, so an Abort press does not
      stop it. */
  function Search(v: ChatView, options: seq<ModelOption>, chat: (string, seq<Message>) -> StreamRun): ChatView {
    var asked := v.(loading := true, messages := v.messages + [TextMessage(User, v.next)], next := "",
                    token := Source(false, false));
    match FindOption(options, v.selectedKey)
    case None => asked.(warning := ModelNotFoundMessage, loading := false)
    case Some(option) =>
      var run := chat(option.deploymentName, asked.messages);
      var streamed := asked.(stream := asked.stream + Streamed(run.updates));
      var q := if run.abortPressed then Abort(streamed) else streamed;
      match run.end
      case Completed =>
        Persist(q.(messages := q.messages + [TextMessage(Assistant, q.stream)]))
          .(loading := false, stream := "", warning := "")
      case Broke(fault) =>
        if fault.Canceled? && Cancelled(q.token) then q.(loading := false)
        else q.(warning := FaultMessage(fault), loading := false)
  }

  /** `RunSearch` with `stream` emptied when it starts, so that an answer
      holds only the fragments of its own stream. */
  function FreshSearch(v: ChatView, options: seq<ModelOption>, chat: (string, seq<Message>) -> StreamRun): ChatView {
    Search(v.(stream := ""), options, chat)
  }

  /** Every search first appends the user turn with `next`, empties `next`
      and ends with `loading` false. */
  lemma SearchAsksFirst(v: ChatView, options: seq<ModelOption>, chat: (string, seq<Message>) -> StreamRun)
    ensures var w := FreshSearch(v, options, chat);
      && |w.messages| >= |v.messages| + 1
      && w.messages[..|v.messages| + 1] == v.messages + [TextMessage(User, v.next)]
      && w.next == "" && !w.loading
  {
  }

  /** A completed stream adds exactly one assistant message, whose text is
      the in-order concatenation of the stream's fragments, saves the
      history and clears `stream` and the warning; an Abort press meanwhile
      does not prevent it. */
  lemma SearchCompletes(v: ChatView, options: seq<ModelOption>, chat: (string, seq<Message>) -> StreamRun)
    requires FindOption(options, v.selectedKey).Some?
    requires chat(FindOption(options, v.selectedKey).value.deploymentName,
                  v.messages + [TextMessage(User, v.next)]).end.Completed?
    ensures var run := chat(FindOption(options, v.selectedKey).value.deploymentName,
                            v.messages + [TextMessage(User, v.next)]);
      var w := FreshSearch(v, options, chat);
      && w.messages == v.messages + [TextMessage(User, v.next), TextMessage(Assistant, Concat(Flatten(run.updates)))]
      && w.storage.history == Records(SaveAll(w.messages))
      && w.stream == "" && w.warning == "" && !w.loading
  {
    var run := chat(FindOption(options, v.selectedKey).value.deploymentName,
                    v.messages + [TextMessage(User, v.next)]);
    StreamedIsConcatenation(run.updates);
    assert "" + Streamed(run.updates) == Streamed(run.updates);
  }

  /** A stream broken by a `TaskCanceledException` after an Abort press
      adds no assistant message and leaves the warning alone; any other
      failure adds none either and shows the exception's message. */
  lemma SearchFails(v: ChatView, options: seq<ModelOption>, chat: (string, seq<Message>) -> StreamRun)
    requires FindOption(options, v.selectedKey).Some?
    requires chat(FindOption(options, v.selectedKey).value.deploymentName,
                  v.messages + [TextMessage(User, v.next)]).end.Broke?
    ensures var run := chat(FindOption(options, v.selectedKey).value.deploymentName,
                            v.messages + [TextMessage(User, v.next)]);
      var w := FreshSearch(v, options, chat);
      && w.messages == v.messages + [TextMessage(User, v.next)]
      && w.storage == v.storage && !w.loading
      && (run.end.fault.Canceled? && run.abortPressed ==> w.warning == v.warning)
      && (!(run.end.fault.Canceled? && run.abortPressed) ==> w.warning == FaultMessage(run.end.fault))
  {
  }

  /** An unknown model key fails after the user turn was appended. */
  lemma SearchWithoutModel(v: ChatView, options: seq<ModelOption>, chat: (string, seq<Message>) -> StreamRun)
    requires forall i :: 0 <= i < |options| ==> Key(options[i]) != v.selectedKey
    ensures var w := FreshSearch(v, options, chat);
      && w.messages == v.messages + [TextMessage(User, v.next)]
      && w.warning == ModelNotFoundMessage && !w.loading && w.storage == v.storage
  {
  }

  /** `RunSearch` as written: the user turn comes first and `next` is
      emptied; with a model found, the stream's fragments are appended to
      what `stream` already held. A completed stream turns all of it into
      the one assistant message, saves the history and clears `stream`; a
      broken stream leaves it in `stream`, saves nothing, and is quiet only
      for a `TaskCanceledException` with the token cancelled. */
  lemma SearchAsWritten(v: ChatView, options: seq<ModelOption>, chat: (string, seq<Message>) -> StreamRun)
    ensures var w := Search(v, options, chat);
      && |w.messages| >= |v.messages| + 1
      && w.messages[..|v.messages| + 1] == v.messages + [TextMessage(User, v.next)]
      && w.next == "" && !w.loading
    ensures FindOption(options, v.selectedKey).None? ==>
      var w := Search(v, options, chat);
      w.messages == v.messages + [TextMessage(User, v.next)]
      && w.warning == ModelNotFoundMessage && w.storage == v.storage && w.stream == v.stream
    ensures FindOption(options, v.selectedKey).Some? ==>
      var run := chat(FindOption(options, v.selectedKey).value.deploymentName,
                      v.messages + [TextMessage(User, v.next)]);
      var w := Search(v, options, chat);
      && (run.end.Completed? ==>
            && w.messages == v.messages + [TextMessage(User, v.next),
                                           TextMessage(Assistant, v.stream + Concat(Flatten(run.updates)))]
            && w.storage.history == Records(SaveAll(w.messages))
            && w.stream == "" && w.warning == "")
      && (run.end.Broke? ==>
            && w.messages == v.messages + [TextMessage(User, v.next)]
            && w.storage == v.storage
            && w.stream == v.stream + Concat(Flatten(run.updates))
            && (run.end.fault.Canceled? && run.abortPressed ==> w.warning == v.warning)
            && (!(run.end.fault.Canceled? && run.abortPressed) ==> w.warning == FaultMessage(run.end.fault)))
  {
    if FindOption(options, v.selectedKey).Some? {
      var run := chat(FindOption(options, v.selectedKey).value.deploymentName,
                      v.messages + [TextMessage(User, v.next)]);
      StreamedIsConcatenation(run.updates);
    }
  }

  /** A completion broken off after the fragment "Hel". */
  function BrokenOff(deployment: string, conversation: seq<Message>): StreamRun {
    StreamRun([["Hel"]], false, Broke(Raised("reset")))
  }

  /** A completion that delivers "Hi". */
  function Answered(deployment: string, conversation: seq<Message>): StreamRun {
    StreamRun([["Hi"]], false, Completed)
  }

  /** As written, a stream broken off keeps its fragments in `stream`, and
      the next completed search puts them in front of its own answer. */
  lemma StaleStreamLeaks()
    ensures var options := [ModelOption("gpt", "4o")];
      var v := ChatView([], NoSource, "", "first", "", false, true, "gpt-4o", Storage(NoHistory, None, None));
      var v1 := Search(v, options, BrokenOff);
      var v2 := Search(v1.(next := "second"), options, Answered);
      v2.messages == [TextMessage(User, "first"), TextMessage(User, "second"), TextMessage(Assistant, "HelHi")]
  {
    var options := [ModelOption("gpt", "4o")];
    var v := ChatView([], NoSource, "", "first", "", false, true, "gpt-4o", Storage(NoHistory, None, None));
    assert Key(options[0]) == "gpt-4o";
    assert FindOption(options, "gpt-4o") == Some(options[0]);
    assert Streamed([["Hel"]]) == "Hel" by {
      assert [["Hel"]][..0] == [];
    }
    assert Streamed([["Hi"]]) == "Hi" by {
      assert [["Hi"]][..0] == [];
    }
    var v1 := Search(v, options, BrokenOff);
    assert v1.stream == "Hel";
    assert v1.messages == [TextMessage(User, "first")];
    assert "Hel" + "Hi" == "HelHi";
    var v2 := Search(v1.(next := "second"), options, Answered);
    assert v2.messages == v1.messages + [TextMessage(User, "second"), TextMessage(Assistant, "Hel" + "Hi")];
  }

  /** `ResetChat`: one system message and the history saved. */
  function Reset(v: ChatView, today: string): (w: ChatView)
    ensures w.messages == [TextMessage(System, SystemPrompt(today))]
    ensures w.storage.history == Records([Record(RoleSystem, SystemPrompt(today))])
  {
    var m := TextMessage(System, SystemPrompt(today));
    assert SaveAll([m]) == [Save(m)];
    Persist(v.(messages := [m]))
  }

  /** `InitiateChat`: a non-empty stored history is taken over verbatim;
      otherwise (none, empty or unreadable) the chat is reset. */
  function Initiate(v: ChatView, today: string): ChatView {
    var chat := Stored(v.storage.history);
    if |chat| > 0 then v.(messages := chat) else Reset(v, today)
  }

  /** A stored non-empty history is taken over as it loads, and the
      chat is reset to the one system message when the entry is absent,
      empty or unreadable. */
  lemma InitiateKeepsOrResets(v: ChatView, today: string)
    ensures v.storage.history.Records? && |v.storage.history.records| > 0 ==>
      Initiate(v, today).messages == LoadAll(v.storage.history.records)
      && Initiate(v, today).storage == v.storage
    ensures !(v.storage.history.Records? && |v.storage.history.records| > 0) ==>
      Initiate(v, today).messages == [TextMessage(System, SystemPrompt(today))]
      && Initiate(v, today).storage.history == Records([Record(RoleSystem, SystemPrompt(today))])
  {
  }

  /** The first `OnAfterRenderAsync`: the stored settings, then the chat. */
  function Restore(v: ChatView, today: string): ChatView {
    Initiate(v.(selectedKey := v.storage.selectedModel.GetOr(v.selectedKey),
                autoscroll := v.storage.autoscroll.GetOr(v.autoscroll)), today).(loading := false)
  }

  /** `OnSettingsChanged`: both settings are stored. */
  function SaveSettings(v: ChatView): ChatView {
    v.(storage := v.storage.(autoscroll := Some(v.autoscroll), selectedModel := Some(v.selectedKey)))
  }

  /** A page opened on the storage another page saved its settings and a
      non-empty history to shows that page's model, autoscroll setting and
      conversation. */
  lemma ReloadRestores(v: ChatView, w: ChatView, today: string)
    requires |v.messages| > 0 && KnownRoles(v.messages)
    ensures var r := Restore(w.(storage := SaveSettings(Persist(v)).storage), today);
      && r.selectedKey == v.selectedKey && r.autoscroll == v.autoscroll
      && |r.messages| == |v.messages|
      && forall i :: 0 <= i < |v.messages| ==> r.messages[i] == Normalized(v.messages[i])
  {
    var saved := SaveSettings(Persist(v)).storage;
    assert saved.history == Records(SaveAll(v.messages));
    assert |SaveAll(v.messages)| > 0;
    HistoryRoundTrip(v.messages);
    var u := w.(storage := saved);
    var u1 := u.(selectedKey := saved.selectedModel.GetOr(u.selectedKey),
                 autoscroll := saved.autoscroll.GetOr(u.autoscroll));
    assert Initiate(u1, today) == u1.(messages := LoadAll(SaveAll(v.messages)));
  }

  /** `DeleteMessage`: the message at `i` is removed and the others keep
      their order; no message, no change. The history is not saved. */
  function Delete(v: ChatView, i: nat): (w: ChatView)
    ensures i < |v.messages| ==> (|w.messages| == |v.messages| - 1
      && (forall k :: 0 <= k < i ==> w.messages[k] == v.messages[k])
      && (forall k :: i <= k < |w.messages| ==> w.messages[k] == v.messages[k + 1]))
    ensures i >= |v.messages| ==> w == v
    ensures w.storage == v.storage
  {
    if i < |v.messages| then v.(messages := v.messages[..i] + v.messages[i + 1..]) else v
  }

  /** The (role, content) pairs `DownloadConversation` writes. */
  function Entries(ms: seq<Message>): seq<(string, string)> {
    seq(|ms|, i requires 0 <= i < |ms| => (RoleName(ms[i].role), Content(ms[i])))
  }

  class ChatPage {
    var messages: seq<Message>
    var cts: TokenSource?
    var warning: string
    var next: string
    var stream: string
    var loading: bool
    var autoscroll: bool
    var selectedKey: string
    var storage: Storage

    function View(): ChatView
      reads this, cts
    {
      ChatView(messages, ViewOf(cts), warning, next, stream, loading, autoscroll, selectedKey, storage)
    }

    /** The field initialisers, on the browser's storage as it is. */
    constructor (storage: Storage)
      ensures View() == ChatView([], NoSource, "", "", "", true, true, "", storage)
    {
      messages, cts, warning, next, stream := [], null, "", "", "";
      loading, autoscroll, selectedKey := true, true, "";
      this.storage := storage;
    }

    /** `OnInitialized`: the first configured model is selected. */
    method OnInitialized(options: seq<ModelOption>)
      modifies this
      ensures View() == old(View()).(selectedKey := if options == [] then old(selectedKey) else Key(options[0]))
    {
      if options != [] {
        selectedKey := Key(options[0]);
      }
    }

    /** `StoreChatHistory`: the records are built one message at a time. */
    method StoreChatHistory()
      modifies this
      ensures cts == old(cts)
      ensures View() == Persist(old(View()))
    {
      var mapped: seq<Record> := [];
      for i := 0 to |messages|
        invariant mapped == SaveAll(messages[..i])
      {
        mapped := mapped + [Save(messages[i])];
      }
      assert messages[..|messages|] == messages;
      storage := storage.(history := Records(mapped));
    }

    /** `JsonToChat` on the deserialized records. */
    static method JsonToChat(records: seq<Record>) returns (chat: seq<Message>)
      ensures chat == LoadAll(records)
    {
      chat := [];
      for i := 0 to |records|
        invariant chat == LoadAll(records[..i])
      {
        chat := chat + [Load(records[i])];
      }
      assert records[..|records|] == records;
    }

    method ResetChat(today: string)
      modifies this
      ensures View() == Reset(old(View()), today)
    {
      messages := [TextMessage(System, SystemPrompt(today))];
      StoreChatHistory();
    }

    /** The stored history as `InitiateChat` reads it: an absent entry
        deserializes as "[]", an unreadable one as no message. */
    static method ReadHistory(h: History) returns (chat: seq<Message>)
      ensures chat == Stored(h)
    {
      match h {
        case NoHistory =>
          chat := JsonToChat([]);
        case Unreadable =>
          chat := [];
        case Records(records) =>
          chat := JsonToChat(records);
      }
    }

    method InitiateChat(today: string)
      modifies this
      ensures View() == Initiate(old(View()), today)
    {
      var chat := ReadHistory(storage.history);
      if |chat| > 0 {
        messages := chat;
      } else {
        ResetChat(today);
      }
    }

    /** `OnAfterRenderAsync` on the first render. */
    method FirstRender(today: string)
      modifies this
      ensures View() == Restore(old(View()), today)
    {
      ghost var v := View();
      selectedKey := storage.selectedModel.GetOr(selectedKey);
      autoscroll := storage.autoscroll.GetOr(autoscroll);
      assert View() == v.(selectedKey := v.storage.selectedModel.GetOr(v.selectedKey),
                          autoscroll := v.storage.autoscroll.GetOr(v.autoscroll));
      InitiateChat(today);
      loading := false;
    }

    method OnSettingsChanged()
      modifies this
      ensures View() == SaveSettings(old(View()))
    {
      storage := storage.(autoscroll := Some(autoscroll));
      storage := storage.(selectedModel := Some(selectedKey));
    }

    method AbortSearch()
      modifies this, cts
      ensures cts == old(cts)
      ensures View() == Abort(old(View()))
    {
      if cts != null {
        var error := cts.Cancel();
        if error.Some? {
          warning := error.value;
        }
      }
    }

    /** The inner `await foreach`: every fragment of one update is appended
        to `stream`, in order. */
    method ReceiveUpdate(parts: seq<string>)
      modifies this
      ensures cts == old(cts)
      ensures View() == old(View()).(stream := old(stream) + Concat(parts))
    {
      var j := 0;
      while j < |parts|
        invariant 0 <= j <= |parts| && cts == old(cts)
        invariant View() == old(View()).(stream := old(stream) + Concat(parts[..j]))
      {
        ConcatStep(parts, j);
        stream := stream + parts[j];
        j := j + 1;
      }
      assert parts[..j] == parts;
    }

    /** The `await foreach` over the updates and the `foreach` over each
        update's parts, appending every fragment to `stream`. */
    method ReceiveStream(updates: seq<seq<string>>)
      modifies this
      ensures cts == old(cts)
      ensures View() == old(View()).(stream := old(stream) + Streamed(updates))
    {
      var i := 0;
      while i < |updates|
        invariant 0 <= i <= |updates| && cts == old(cts)
        invariant View() == old(View()).(stream := old(stream) + Streamed(updates[..i]))
      {
        ReceiveUpdate(updates[i]);
        StreamedStep(updates, i);
        assert stream == old(stream) + (Streamed(updates[..i]) + Concat(updates[i]));
        i := i + 1;
      }
      assert updates[..i] == updates;
    }

    /** The end of `RunSearch` once the stream is over. */
    method Finish(end: StreamEnd)
      requires cts != null
      modifies this
      ensures cts == old(cts)
      ensures View() == (match end
        case Completed =>
          Persist(old(View()).(messages := old(messages) + [TextMessage(Assistant, old(stream))]))
            .(loading := false, stream := "", warning := "")
        case Broke(fault) =>
          if fault.Canceled? && Cancelled(old(View()).token) then old(View()).(loading := false)
          else old(View()).(warning := FaultMessage(fault), loading := false))
    {
      match end {
        case Completed =>
          messages := messages + [TextMessage(Assistant, stream)];
          StoreChatHistory();
          loading := false;
          stream := "";
          warning := "";
        case Broke(fault) =>
          if !(fault.Canceled? && cts.cancelled) {
            warning := FaultMessage(fault);
          }
      }
      loading := false;
    }

    /** The start of `RunSearch`: the stream is emptied, the user turn with
        `next` is appended, `next` is emptied and a new source is created. */
    method BeginSearch()
      modifies this
      ensures cts != null && fresh(cts)
      ensures View() == old(View()).(stream := "", loading := true, messages := old(messages) + [TextMessage(User, old(next))],
                                     next := "", token := Source(false, false))
    {
      stream := "";
      loading := true;
      messages := messages + [TextMessage(User, next)];
      next := "";
      cts := new TokenSource();
    }

    /** `RunSearch`, with `stream` emptied when it starts (see Findings in
        the README): ask with the user turn, stream the answer and append
        it, or report why there is none; `loading` ends false. */
    method RunSearch(options: seq<ModelOption>, chat: (string, seq<Message>) -> StreamRun)
      modifies this
      ensures View() == FreshSearch(old(View()), options, chat)
      ensures cts != null && fresh(cts)
    {
      BeginSearch();
      var option := FindOption(options, selectedKey);
      if option.None? {
        warning := ModelNotFoundMessage;
        loading := false;
        return;
      }
      var run := chat(option.value.deploymentName, messages);
      ReceiveStream(run.updates);
      if run.abortPressed {
        AbortSearch();
      }
      Finish(run.end);
    }

    method DeleteMessage(i: nat)
      modifies this
      ensures View() == Delete(old(View()), i)
    {
      if i < |messages| {
        messages := messages[..i] + messages[i + 1..];
      }
    }

    method CopyMessageToNext(m: Message)
      modifies this
      ensures View() == old(View()).(next := Content(m))
    {
      next := Content(m);
    }

    /** `DownloadConversation`: the Markdown text handed to the download. */
    method DownloadConversation() returns (markdown: string)
      ensures markdown == Export(Entries(messages))
    {
      var entries := Entries(messages);
      markdown := ExportHeader + [NewLine];
      assert markdown == Terminated(ExportLines(entries[..0]));
      for i := 0 to |messages|
        invariant markdown == Terminated(ExportLines(entries[..i]))
      {
        ExportStep(entries, i);
        markdown := markdown + "## " + RoleName(messages[i].role) + [NewLine];
        markdown := markdown + Content(messages[i]) + [NewLine];
      }
      assert entries[..|messages|] == entries;
    }
  }
}
