/** What the two chat pages share: the roles of a conversation, the system
    prompt a new conversation starts with, the text a streamed answer
    accumulates and the Markdown export of a conversation. */
module Conversation {
  import opened Text
  import opened Cancellation

  /** The kinds of message the pages tell apart. `Other` stands for any
      further kind (a tool or developer message), which the pages never
      create themselves. */
  datatype Role = System | User | Assistant | Other

  const RoleSystem: string := "system"
  const RoleUser: string := "user"
  const RoleAssistant: string := "assistant"

  /** The role's name in the export: `GetChatMessageRole`, and likewise the
      text of an Azure `ChatRole`. */
  function RoleName(r: Role): (name: string)
    ensures r == System <==> name == RoleSystem
    ensures r == User <==> name == RoleUser
    ensures r == Assistant <==> name == RoleAssistant
    ensures r == Other <==> name == "unknown"
  {
    match r
    case System => RoleSystem
    case User => RoleUser
    case Assistant => RoleAssistant
    case Other => "unknown"
  }

  /** The first message of a new conversation; `today` is the UTC date
      formatted as `yyyy-MM-dd`. */
  function SystemPrompt(today: string): string {
    SystemPromptIntro + today + "."
  }

  const SystemPromptIntro: string :=
    "You are the assistant of a software engineer mainly working with .NET and Azure. Today is "


  /** How a streamed completion ends. */
  datatype StreamEnd = Completed | Broke(fault: Fault)

  /** One streamed completion as a page lives through it: the updates, each
      a list of fragment texts; whether the user pressed Abort while it ran;
      and how it ended. */
  datatype StreamRun = StreamRun(updates: seq<seq<string>>, abortPressed: bool, end: StreamEnd)

  /** The text of a streamed answer: the fragments of every update, in the
      order they arrive (a fragment without text adds nothing). */
  function Streamed(updates: seq<seq<string>>): string {
    if updates == [] then "" else Streamed(updates[..|updates| - 1]) + Concat(updates[|updates| - 1])
  }

  /** All fragments of all updates, in order. */
  function Flatten(updates: seq<seq<string>>): seq<string> {
    if updates == [] then [] else Flatten(updates[..|updates| - 1]) + updates[|updates| - 1]
  }

  /** The streamed text is the in-order concatenation of every fragment. */
  lemma {:induction false} StreamedIsConcatenation(updates: seq<seq<string>>)
    ensures Streamed(updates) == Concat(Flatten(updates))
    decreases |updates|
  {
    if updates != [] {
      var init := updates[..|updates| - 1];
      StreamedIsConcatenation(init);
      ConcatAppend(Flatten(init), updates[|updates| - 1]);
    }
  }

  /** One more update adds its fragments at the end. */
  lemma StreamedStep(updates: seq<seq<string>>, i: nat)
    requires i < |updates|
    ensures Streamed(updates[..i + 1]) == Streamed(updates[..i]) + Concat(updates[i])
  {
    assert updates[..i + 1][..i] == updates[..i];
  }

  /** One more fragment adds its text at the end. */
  lemma ConcatStep(parts: seq<string>, j: nat)
    requires j < |parts|
    ensures Concat(parts[..j + 1]) == Concat(parts[..j]) + parts[j]
  {
    assert parts[..j + 1][..j] == parts[..j];
  }

  const ExportHeader: string := "# ChatGPT Conversation"

  /** `Environment.NewLine`, which `StringBuilder.AppendLine` writes after
      each line (its Linux value). */
  const NewLine: char := '\n'

  /** The lines of the Markdown export of a conversation given as its
      (role name, content) pairs: the header, then per message a `## role`
      line and its content line. */
  function ExportLines(entries: seq<(string, string)>): (lines: seq<string>)
    ensures |lines| == 1 + 2 * |entries| && lines[0] == ExportHeader
    ensures forall i :: 0 <= i < |entries| ==>
      lines[1 + 2 * i] == "## " + entries[i].0 && lines[2 + 2 * i] == entries[i].1
  {
    if entries == [] then [ExportHeader]
    else
      var last := entries[|entries| - 1];
      ExportLines(entries[..|entries| - 1]) + ["## " + last.0, last.1]
  }

  lemma ExportLinesStep(entries: seq<(string, string)>, i: nat)
    requires i < |entries|
    ensures ExportLines(entries[..i + 1]) == ExportLines(entries[..i]) + ["## " + entries[i].0, entries[i].1]
  {
    assert entries[..i + 1][..i] == entries[..i];
  }

  /** What a `StringBuilder` holds after `AppendLine` of each line in turn. */
  function Terminated(lines: seq<string>): string {
    if lines == [] then "" else lines[0] + [NewLine] + Terminated(lines[1..])
  }

  lemma {:induction false} TerminatedAppend(lines: seq<string>, line: string)
    ensures Terminated(lines + [line]) == Terminated(lines) + line + [NewLine]
    decreases |lines|
  {
    if lines == [] {
      assert lines + [line] == [line];
    } else {
      TerminatedAppend(lines[1..], line);
      assert (lines + [line])[1..] == lines[1..] + [line];
    }
  }

  /** Terminating every line is joining them with an empty last piece. */
  lemma {:induction false} TerminatedIsJoin(lines: seq<string>)
    ensures Terminated(lines) == Join(lines + [""], NewLine)
    decreases |lines|
  {
    if lines != [] {
      TerminatedIsJoin(lines[1..]);
      assert (lines + [""])[1..] == lines[1..] + [""];
    }
  }

  /** Writing one more message's two lines extends the export's text. */
  lemma ExportStep(entries: seq<(string, string)>, i: nat)
    requires i < |entries|
    ensures Terminated(ExportLines(entries[..i + 1]))
         == Terminated(ExportLines(entries[..i])) + "## " + entries[i].0 + [NewLine] + entries[i].1 + [NewLine]
  {
    var lines := ExportLines(entries[..i]);
    var role := "## " + entries[i].0;
    ExportLinesStep(entries, i);
    assert lines + [role, entries[i].1] == lines + [role] + [entries[i].1];
    TerminatedAppend(lines, role);
    TerminatedAppend(lines + [role], entries[i].1);
  }

  /** The export's text. */
  function Export(entries: seq<(string, string)>): string {
    Terminated(ExportLines(entries))
  }

  /** No line of the export spans several lines when no role name or
      content does. */
  lemma {:induction false} ExportLinesSingle(entries: seq<(string, string)>)
    requires forall i :: 0 <= i < |entries| ==> NewLine !in entries[i].0 && NewLine !in entries[i].1
    ensures forall k :: 0 <= k < |ExportLines(entries)| ==> NewLine !in ExportLines(entries)[k]
    decreases |entries|
  {
    if entries != [] {
      var init := entries[..|entries| - 1];
      ExportLinesSingle(init);
      assert NewLine !in "## ";
      var last := entries[|entries| - 1];
      assert NewLine !in "## " + last.0;
    } else {
      assert NewLine !in ExportHeader;
    }
  }

  /** Read back line by line, the export gives the header and then each
      message's role line and content line, in order, when no role name or
      content spans several lines. */
  lemma ExportReadsBack(entries: seq<(string, string)>)
    requires forall i :: 0 <= i < |entries| ==> NewLine !in entries[i].0 && NewLine !in entries[i].1
    ensures Split(Export(entries), NewLine) == ExportLines(entries) + [""]
  {
    var lines := ExportLines(entries);
    ExportLinesSingle(entries);
    SingleLinesJoin(lines);
  }

  lemma SingleLinesJoin(lines: seq<string>)
    requires forall k :: 0 <= k < |lines| ==> NewLine !in lines[k]
    ensures Split(Terminated(lines), NewLine) == lines + [""]
  {
    var pieces := lines + [""];
    assert forall k :: 0 <= k < |pieces| ==> NewLine !in pieces[k] by {
      forall k | 0 <= k < |pieces|
        ensures NewLine !in pieces[k]
      {
        if k < |lines| {
          assert pieces[k] == lines[k];
        }
      }
    }
    TerminatedIsJoin(lines);
    SplitJoin(pieces, NewLine);
  }
}
