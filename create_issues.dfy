/** The task-list reader behind the issue script: a markdown file read line
    by line into tasks grouped under `## ` sections, each with a title, a
    description and check-box subtasks; and the issue body written for one
    task. Reading the file and running `gh issue create` are not modelled:
    the input is the list of lines `readlines` returns, each ending in at
    most one newline. */
module CreateIssues {
  import opened Common
  import opened Text

  datatype Task = Task(section: string, title: string, description: seq<string>, subtasks: seq<string>)

  /** `current_section`, the finished `tasks` and the open `current_task`. */
  datatype ParseState = ParseState(section: string, tasks: seq<Task>, current: Option<Task>)

  const SectionPrefix: string := "## "
  const CheckBox: string := "- [ ]"

  // ---------------------------------------------------------------------
  // The task pattern `^\s*-\s*\[\s*\]\s*\*\*(.*?)\*\*:(.*)`
  // ---------------------------------------------------------------------

  /** `\s*` from position `i`: the first position at or after `i` that is
      the end of `s` or not whitespace. */
  function SkipFrom(s: string, i: nat): (j: nat)
    requires i <= |s|
    ensures i <= j <= |s|
    decreases |s| - i
  {
    if i == |s| || !IsSpace(s[i]) then i else SkipFrom(s, i + 1)
  }

  /** The lazy `(.*?)\*\*:` from position `p`: the first position where
      `**:` starts, provided no newline lies before it (`.` stops at
      newlines). */
  function TitleEnd(s: string, p: nat): (q: Option<nat>)
    requires p <= |s|
    ensures q.Some? ==> p <= q.value && q.value + 3 <= |s|
    decreases |s| - p
  {
    if p + 3 <= |s| && s[p..p + 3] == "**:" then Some(p)
    else if p == |s| || s[p] == '\n' then None
    else TitleEnd(s, p + 1)
  }

  /** The greedy `(.*)` from position `p`: up to the first newline. */
  function LineEnd(s: string, p: nat): (j: nat)
    requires p <= |s|
    ensures p <= j <= |s|
    ensures forall k :: p <= k < j ==> s[k] != '\n'
    decreases |s| - p
  {
    if p == |s| || s[p] == '\n' then p else LineEnd(s, p + 1)
  }

  /** `task_pattern.match(s)`: the two groups, title and description. */
  function TaskMatch(s: string): (m: Option<(string, string)>)
    ensures m.Some? ==> '\n' !in m.value.1
  {
    var i0 := SkipFrom(s, 0);
    if i0 == |s| || s[i0] != '-' then None
    else
      var i1 := SkipFrom(s, i0 + 1);
      if i1 == |s| || s[i1] != '[' then None
      else
        var i2 := SkipFrom(s, i1 + 1);
        if i2 == |s| || s[i2] != ']' then None
        else
          var i3 := SkipFrom(s, i2 + 1);
          if i3 + 2 > |s| || s[i3..i3 + 2] != "**" then None
          else
            match TitleEnd(s, i3 + 2)
            case None => None
            case Some(q) =>
              var j := LineEnd(s, q + 3);
              var desc := s[q + 3..j];
              assert forall k :: 0 <= k < |desc| ==> desc[k] == s[q + 3 + k];
              Some((s[i3 + 2..q], desc))
  }

  // ---------------------------------------------------------------------
  // One line at a time
  // ---------------------------------------------------------------------

  predicate IsHeader(line: string) {
    SectionPrefix <= line
  }

  /** A main task: `- [ ]` at column 0 and the whole pattern on the
      stripped line. */
  predicate IsTaskLine(line: string) {
    CheckBox <= line && TaskMatch(Strip(line)).Some?
  }

  /** `line.replace('## ', '').strip()`: every `## ` is removed, not only
      the leading one. */
  function SectionName(line: string): string {
    Strip(ReplaceAll(line, SectionPrefix, ""))
  }

  function TitleOf(line: string): string
    requires IsTaskLine(line)
  {
    Strip(TaskMatch(Strip(line)).value.0)
  }

  function FirstDescription(line: string): seq<string>
    requires IsTaskLine(line)
  {
    var desc := Strip(TaskMatch(Strip(line)).value.1);
    if desc != [] then [desc] else []
  }

  /** `[current_task]` if a task is open, else nothing. */
  function Open(current: Option<Task>): seq<Task> {
    if current.Some? then [current.value] else []
  }

  /** What one line is to the reader, in the order its tests are made. */
  datatype LineKind =
    | Header(name: string)
    | TaskStart(title: string, firstDescription: seq<string>)
    | Subtask(text: string)
    | Continuation(text: string)
    | Blank

  function Classify(line: string): LineKind {
    if IsHeader(line) then Header(SectionName(line))
    else if IsTaskLine(line) then TaskStart(TitleOf(line), FirstDescription(line))
    else
      var stripped := Strip(line);
      if CheckBox <= stripped then Subtask(Strip(ReplaceFirst(stripped, CheckBox, "")))
      else if stripped != "" then Continuation(stripped)
      else Blank
  }

  /** The body of the `for line in lines` loop. A subtask or continuation
      line read while no task is open is ignored. */
  function Step(st: ParseState, k: LineKind): ParseState {
    match k
    case Header(name) => st.(section := name, current := None)
    case TaskStart(title, desc) =>
      ParseState(st.section, st.tasks + Open(st.current), Some(Task(st.section, title, desc, [])))
    case Subtask(text) =>
      if st.current.None? then st
      else
        var t := st.current.value;
        st.(current := Some(t.(subtasks := t.subtasks + [text])))
    case Continuation(text) =>
      if st.current.None? then st
      else
        var t := st.current.value;
        st.(current := Some(t.(description := t.description + [text])))
    case Blank => st
  }

  const Initial: ParseState := ParseState("", [], None)

  /** The kind of every line, in order. */
  function Kinds(lines: seq<string>): (ks: seq<LineKind>)
    ensures |ks| == |lines|
    ensures forall i :: 0 <= i < |lines| ==> ks[i] == Classify(lines[i])
  {
    seq(|lines|, i requires 0 <= i < |lines| => Classify(lines[i]))
  }

  /** The state after the given kinds of line, in order. */
  function Machine(ks: seq<LineKind>): ParseState {
    if ks == [] then Initial
    else Step(Machine(ks[..|ks| - 1]), ks[|ks| - 1])
  }

  /** The state after reading `lines` in order. */
  function Run(lines: seq<string>): ParseState {
    Machine(Kinds(lines))
  }

  /** The finished tasks and the open one, as appended at end of input. */
  function Finish(st: ParseState): seq<Task> {
    st.tasks + Open(st.current)
  }

  /** What `parse_tasks` returns. */
  function Parsed(lines: seq<string>): seq<Task> {
    Finish(Run(lines))
  }

  lemma MachineStep(ks: seq<LineKind>, k: LineKind)
    ensures Machine(ks + [k]) == Step(Machine(ks), k)
  {
    assert (ks + [k])[..|ks|] == ks;
  }

  /** The first `i` lines are read as the first `i` kinds. */
  lemma RunPrefix(lines: seq<string>, i: nat)
    requires i <= |lines|
    ensures Run(lines[..i]) == Machine(Kinds(lines)[..i])
  {
    assert Kinds(lines[..i]) == Kinds(lines)[..i];
  }

  lemma RunStep(lines: seq<string>, i: nat)
    requires i < |lines|
    ensures Run(lines[..i + 1]) == Step(Run(lines[..i]), Classify(lines[i]))
  {
    assert lines[..i + 1] == lines[..i] + [lines[i]];
    KindsSnoc(lines[..i], lines[i]);
    MachineStep(Kinds(lines[..i]), Classify(lines[i]));
  }

  lemma KindsSnoc(lines: seq<string>, line: string)
    ensures Kinds(lines + [line]) == Kinds(lines) + [Classify(line)]
  {
    var ks := Kinds(lines + [line]);
    forall j | 0 <= j < |lines| ensures ks[j] == Kinds(lines)[j] {
      assert (lines + [line])[j] == lines[j];
    }
  }

  /** `parse_tasks`, with its loop over the lines. */
  method ParseTasks(lines: seq<string>) returns (tasks: seq<Task>)
    ensures tasks == Parsed(lines)
  {
    var section := "";
    var current: Option<Task> := None;
    tasks := [];
    for i := 0 to |lines|
      invariant ParseState(section, tasks, current) == Run(lines[..i])
    {
      RunStep(lines, i);
      ghost var before := ParseState(section, tasks, current);
      var line := lines[i];
      var stripped := Strip(line);
      if SectionPrefix <= line {
        section := Strip(ReplaceAll(line, SectionPrefix, ""));
        current := None;
        continue;
      }
      if CheckBox <= line && TaskMatch(stripped).Some? {
        ClassifyTaskLine(line);
        var m := TaskMatch(stripped).value;
        if current.Some? {
          tasks := tasks + [current.value];
        }
        var title := Strip(m.0);
        var description := Strip(m.1);
        current := Some(Task(section, title, if description != [] then [description] else [], []));
      } else {
        ClassifyTaskLine(line);
        ClassifyOther(line);
        if current.Some? && CheckBox <= stripped {
          var subtask := Strip(ReplaceFirst(stripped, CheckBox, ""));
          current := Some(current.value.(subtasks := current.value.subtasks + [subtask]));
        } else if current.Some? && stripped != "" {
          current := Some(current.value.(description := current.value.description + [stripped]));
        }
      }
      assert ParseState(section, tasks, current) == Step(before, Classify(line));
    }
    assert lines[..|lines|] == lines;
    if current.Some? {
      tasks := tasks + [current.value];
    }
  }

  // ---------------------------------------------------------------------
  // What the reader promises
  // ---------------------------------------------------------------------

  /** A task still open when a header is read contributes nothing: from
      its task line up to and including the header, no line in between
      being a task line or a header, the parsed tasks are those before the
      task line. The header discards the open task before anything appends
      it. */
  lemma TaskBeforeHeaderIsDropped(lines: seq<string>, i: nat, h: nat)
    requires i < h < |lines|
    requires IsTaskLine(lines[i]) && IsHeader(lines[h])
    requires forall j :: i < j < h ==> !IsTaskLine(lines[j]) && !IsHeader(lines[j])
    ensures Parsed(lines[..h + 1]) == Parsed(lines[..i])
    ensures Run(lines[..h + 1]).current.None?
  {
    var ks := Kinds(lines);
    TaskBodyKinds(lines, i, h);
    OpenTaskBody(ks, i, h);
    RunPrefix(lines, i);
    RunPrefix(lines, h);
    RunStep(lines, h);
  }

  lemma TaskBodyKinds(lines: seq<string>, i: nat, h: nat)
    requires i < h <= |lines|
    requires IsTaskLine(lines[i])
    requires forall j :: i < j < h ==> !IsTaskLine(lines[j]) && !IsHeader(lines[j])
    ensures Kinds(lines)[i].TaskStart?
    ensures forall j :: i < j < h ==> !Kinds(lines)[j].Header? && !Kinds(lines)[j].TaskStart?
  {
    ClassifyTaskLine(lines[i]);
    forall j | i < j < h ensures !Kinds(lines)[j].Header? && !Kinds(lines)[j].TaskStart? {
      BodyLineKind(lines[j]);
    }
  }

  /** While no task start or header follows a task start, the finished tasks
      stay those before it and the task stays open. */
  lemma {:induction false} OpenTaskBody(ks: seq<LineKind>, i: nat, k: nat)
    requires i < k <= |ks|
    requires ks[i].TaskStart?
    requires forall j :: i < j < k ==> !ks[j].Header? && !ks[j].TaskStart?
    ensures Machine(ks[..k]).tasks == Finish(Machine(ks[..i]))
    ensures Machine(ks[..k]).current.Some?
    decreases k
  {
    assert ks[..k] == ks[..k - 1] + [ks[k - 1]];
    MachineStep(ks[..k - 1], ks[k - 1]);
    if k > i + 1 {
      OpenTaskBody(ks, i, k - 1);
    }
  }

  /** A line that is neither a header nor a task line neither opens nor
      closes a task. */
  lemma BodyLineKind(line: string)
    requires !IsHeader(line) && !IsTaskLine(line)
    ensures !Classify(line).Header? && !Classify(line).TaskStart?
  {
    ClassifyTaskLine(line);
  }

  /** A task line is read as the start of a task with that line's title. */
  lemma ClassifyTaskLine(line: string)
    ensures Classify(line).TaskStart? <==> IsTaskLine(line)
    ensures IsTaskLine(line) ==> Classify(line) == TaskStart(TitleOf(line), FirstDescription(line))
  {
    if IsTaskLine(line) {
      assert line[0] == '-';
    }
  }

  /** Any other line is a subtask, a continuation or blank by its stripped
      form. */
  lemma ClassifyOther(line: string)
    requires !IsHeader(line) && !IsTaskLine(line)
    ensures var stripped := Strip(line);
            Classify(line) ==
              if CheckBox <= stripped then Subtask(Strip(ReplaceFirst(stripped, CheckBox, "")))
              else if stripped != "" then Continuation(stripped)
              else Blank
  {
  }

  /** A new task closes the open one: it is appended, and the new task
      belongs to the current section. */
  lemma TaskLineClosesOpenTask(st: ParseState, line: string)
    requires IsTaskLine(line)
    ensures Step(st, Classify(line)).tasks == st.tasks + Open(st.current)
    ensures Step(st, Classify(line)).current == Some(Task(st.section, TitleOf(line), FirstDescription(line), []))
  {
    ClassifyTaskLine(line);
  }

  /** One line never removes a finished task. */
  lemma StepKeepsTasks(st: ParseState, k: LineKind)
    ensures st.tasks <= Step(st, k).tasks
  {
  }

  /** Reading more kinds of line only appends finished tasks. */
  lemma {:induction false} MachineKeepsTasks(ks: seq<LineKind>, i: nat)
    requires i <= |ks|
    ensures Machine(ks[..i]).tasks <= Machine(ks).tasks
  {
    if i < |ks| {
      var init := ks[..|ks| - 1];
      assert init[..i] == ks[..i];
      MachineKeepsTasks(init, i);
      StepKeepsTasks(Machine(init), ks[|ks| - 1]);
    } else {
      assert ks[..i] == ks;
    }
  }

  /** Tasks come out in file order: reading more lines only appends. */
  lemma TasksKeepFileOrder(lines: seq<string>, i: nat)
    requires i <= |lines|
    ensures Run(lines[..i]).tasks <= Run(lines).tasks
  {
    RunPrefix(lines, i);
    MachineKeepsTasks(Kinds(lines), i);
  }

  /** After one line, each task is an earlier one, or the task this line
      opened. A subtask or description line keeps the open task's title. */
  lemma StepTitles(st: ParseState, k: LineKind)
    ensures forall t :: t in Finish(Step(st, k)) ==>
              || t in Finish(st)
              || (st.current.Some? && t.title == st.current.value.title)
              || (k.TaskStart? && t.title == k.title)
  {
  }

  /** Every task has the title of some task start. */
  lemma {:induction false} MachineTitles(ks: seq<LineKind>)
    ensures forall t :: t in Finish(Machine(ks)) ==>
              exists i :: 0 <= i < |ks| && ks[i].TaskStart? && ks[i].title == t.title
  {
    if ks != [] {
      var n := |ks|;
      var init := ks[..n - 1];
      MachineTitles(init);
      var st := Machine(init);
      StepTitles(st, ks[n - 1]);
      forall t | t in Finish(Machine(ks))
        ensures exists i :: 0 <= i < n && ks[i].TaskStart? && ks[i].title == t.title
      {
        if ks[n - 1].TaskStart? && ks[n - 1].title == t.title {
        } else {
          assert exists u :: u in Finish(st) && u.title == t.title by {
            if st.current.Some? {
              assert st.current.value in Finish(st);
            }
          }
          var u :| u in Finish(st) && u.title == t.title;
          var i :| 0 <= i < n - 1 && init[i].TaskStart? && init[i].title == u.title;
          assert init[i] == ks[i];
        }
      }
    }
  }

  /** Every task the reader returns was opened by a task line of the input,
      and has that line's title. */
  lemma TitlesComeFromTaskLines(lines: seq<string>)
    ensures forall t :: t in Parsed(lines) ==>
              exists i :: 0 <= i < |lines| && IsTaskLine(lines[i]) && t.title == TitleOf(lines[i])
  {
    var ks := Kinds(lines);
    MachineTitles(ks);
    forall t | t in Parsed(lines)
      ensures exists i :: 0 <= i < |lines| && IsTaskLine(lines[i]) && t.title == TitleOf(lines[i])
    {
      var i :| 0 <= i < |ks| && ks[i].TaskStart? && ks[i].title == t.title;
      ClassifyTaskLine(lines[i]);
    }
  }

  /** Number of task lines in `lines`. */
  function TaskLineCount(lines: seq<string>): nat {
    if lines == [] then 0
    else TaskLineCount(lines[..|lines| - 1]) + (if IsTaskLine(lines[|lines| - 1]) then 1 else 0)
  }

  /** Number of task starts among `ks`. */
  function StartCount(ks: seq<LineKind>): nat {
    if ks == [] then 0
    else StartCount(ks[..|ks| - 1]) + (if ks[|ks| - 1].TaskStart? then 1 else 0)
  }

  lemma {:induction false} TaskLinesAreStarts(lines: seq<string>)
    ensures TaskLineCount(lines) == StartCount(Kinds(lines))
  {
    if lines != [] {
      var init := lines[..|lines| - 1];
      TaskLinesAreStarts(init);
      assert Kinds(lines)[..|lines| - 1] == Kinds(init);
      ClassifyTaskLine(lines[|lines| - 1]);
    }
  }

  /** Only the start of a task adds a task. */
  lemma StepCount(st: ParseState, k: LineKind)
    ensures |Finish(Step(st, k))| <= |Finish(st)| + (if k.TaskStart? then 1 else 0)
  {
  }

  lemma {:induction false} MachineCount(ks: seq<LineKind>)
    ensures |Finish(Machine(ks))| <= StartCount(ks)
  {
    if ks != [] {
      var init := ks[..|ks| - 1];
      MachineCount(init);
      StepCount(Machine(init), ks[|ks| - 1]);
    }
  }

  /** At most one task per task line; fewer when headers drop open tasks. */
  lemma AtMostOneTaskPerTaskLine(lines: seq<string>)
    ensures |Parsed(lines)| <= TaskLineCount(lines)
  {
    MachineCount(Kinds(lines));
    TaskLinesAreStarts(lines);
  }

  /** `lines` as `readlines` returns them: a newline only at the very end. */
  predicate ReadLines(lines: seq<string>) {
    forall i, k :: 0 <= i < |lines| && 0 <= k < |lines[i]| - 1 ==> lines[i][k] != '\n'
  }

  /** A description entry: non-empty, stripped, one line. */
  predicate CleanEntry(d: string) {
    d != [] && !IsSpace(d[0]) && !IsSpace(d[|d| - 1]) && '\n' !in d
  }

  predicate CleanTask(t: Task) {
    forall d :: d in t.description ==> CleanEntry(d)
  }

  /** The description text a line contributes is clean. */
  predicate CleanKind(k: LineKind) {
    match k
    case TaskStart(_, desc) => forall d :: d in desc ==> CleanEntry(d)
    case Continuation(text) => CleanEntry(text)
    case _ => true
  }

  /** A newline inside the stripped part of `s` is also inside `s` before its
      last character. */
  lemma StripOneLine(s: string)
    requires forall k :: 0 <= k < |s| - 1 ==> s[k] != '\n'
    ensures '\n' !in Strip(s)
  {
    var r := Strip(s);
    var i :| StripsAt(s, r, i);
    if r != [] && s[|s| - 1] == '\n' {
      assert i + |r| < |s| by {
        assert IsSpace(s[|s| - 1]);
      }
    }
    forall k | 0 <= k < |r| ensures r[k] != '\n' {
      assert r[k] == s[i + k];
    }
  }

  /** The text after a task's title becomes a clean entry, if any. */
  lemma FirstDescriptionClean(line: string)
    requires IsTaskLine(line)
    ensures forall d :: d in FirstDescription(line) ==> CleanEntry(d)
  {
    StripOneLine(TaskMatch(Strip(line)).value.1);
  }

  /** Every line of `readlines` contributes only clean description text. */
  lemma ClassifyClean(line: string)
    requires forall k :: 0 <= k < |line| - 1 ==> line[k] != '\n'
    ensures CleanKind(Classify(line))
  {
    ClassifyTaskLine(line);
    if IsHeader(line) {
    } else if IsTaskLine(line) {
      FirstDescriptionClean(line);
    } else {
      ClassifyOther(line);
      StripOneLine(line);
    }
  }

  /** One line keeps every task's description clean. */
  lemma StepClean(st: ParseState, k: LineKind)
    requires CleanKind(k)
    requires forall t :: t in Finish(st) ==> CleanTask(t)
    ensures forall t :: t in Finish(Step(st, k)) ==> CleanTask(t)
  {
    if st.current.Some? {
      assert st.current.value in Finish(st);
    }
  }

  lemma {:induction false} MachineClean(ks: seq<LineKind>)
    requires forall i :: 0 <= i < |ks| ==> CleanKind(ks[i])
    ensures forall t :: t in Finish(Machine(ks)) ==> CleanTask(t)
  {
    if ks != [] {
      var init := ks[..|ks| - 1];
      MachineClean(init);
      StepClean(Machine(init), ks[|ks| - 1]);
    }
  }

  /** Every description entry of every returned task is a non-empty,
      stripped line: blank lines are skipped, and an empty text after the
      title does not become an entry. */
  lemma DescriptionsAreCleanLines(lines: seq<string>)
    requires ReadLines(lines)
    ensures forall t :: t in Parsed(lines) ==> CleanTask(t)
  {
    forall i | 0 <= i < |lines| ensures CleanKind(Kinds(lines)[i]) {
      ClassifyClean(lines[i]);
    }
    MachineClean(Kinds(lines));
  }

  // ---------------------------------------------------------------------
  // The issue body
  // ---------------------------------------------------------------------

  const BackgroundHeading: string := "### 작업 배경 (Background)\n이 이슈는 **"
  const BackgroundTail: string := "** 단계의 세부 작업입니다."
  const WorkHeading: string := "### 작업 내용 (Work Draft)\n"
  const SubtaskHeading: string := "\n**세부 할 일:**\n"
  const AcceptanceBase: string := "### 인수 조건 (Acceptance Criteria)\n- [ ] 위 작업 내용이 모두 완료되어야 합니다.\n"
  const AcceptanceSubtasks: string := "- [ ] 모든 세부 할 일이 완료되어야 합니다.\n"

  /** Each entry followed by a newline, in order. */
  function Lines(xs: seq<string>): string {
    if xs == [] then "" else Lines(xs[..|xs| - 1]) + xs[|xs| - 1] + "\n"
  }

  function Background(t: Task): string {
    BackgroundHeading + t.section + BackgroundTail
  }

  function CheckBoxes(subtasks: seq<string>): (r: seq<string>)
    ensures |r| == |subtasks|
    ensures forall i :: 0 <= i < |r| ==> r[i] == "- [ ] " + subtasks[i]
  {
    seq(|subtasks|, i requires 0 <= i < |subtasks| => "- [ ] " + subtasks[i])
  }

  function WorkDetail(t: Task): string {
    WorkHeading + Lines(t.description)
      + (if t.subtasks != [] then SubtaskHeading + Lines(CheckBoxes(t.subtasks)) else "")
  }

  function Acceptance(t: Task): string {
    AcceptanceBase + (if t.subtasks != [] then AcceptanceSubtasks else "")
  }

  /** The three parts of the issue body, separated by blank lines. */
  function IssueBody(t: Task): string {
    Background(t) + "\n\n" + WorkDetail(t) + "\n\n" + Acceptance(t)
  }

  /** The `for ... : text += f"{line}\n"` loops of `create_issue_body`. */
  method AppendLines(head: string, xs: seq<string>) returns (text: string)
    ensures text == head + Lines(xs)
  {
    text := head;
    for i := 0 to |xs|
      invariant text == head + Lines(xs[..i])
    {
      assert xs[..i + 1][..i] == xs[..i];
      text := text + xs[i] + "\n";
    }
    assert xs[..|xs|] == xs;
  }

  /** `create_issue_body`. */
  method CreateIssueBody(t: Task) returns (body: string)
    ensures body == IssueBody(t)
  {
    var background := BackgroundHeading + t.section + BackgroundTail;
    var workDetail := AppendLines(WorkHeading, t.description);
    if t.subtasks != [] {
      workDetail := AppendLines(workDetail + SubtaskHeading, CheckBoxes(t.subtasks));
    }
    var acceptance := AcceptanceBase;
    if t.subtasks != [] {
      acceptance := acceptance + AcceptanceSubtasks;
    }
    body := background + "\n\n" + workDetail + "\n\n" + acceptance;
  }

  /** Reading newline-terminated lines back: the text up to each newline. */
  function SplitLines(s: string): seq<string>
    decreases |s|
  {
    var k := Find(s, '\n');
    if k == -1 then [] else [s[..k]] + SplitLines(s[k + 1..])
  }

  /** One line per entry: splitting the written lines at their newlines
      gives the entries back, as long as no entry holds a newline itself. */
  lemma {:induction false} LinesRoundTrip(xs: seq<string>)
    requires forall i :: 0 <= i < |xs| ==> '\n' !in xs[i]
    ensures SplitLines(Lines(xs)) == xs
    decreases |xs|
  {
    if xs != [] {
      LinesRoundTrip(xs[1..]);
      LinesCons(xs);
      SplitFirstLine(xs[0], Lines(xs[1..]));
    }
  }

  /** Splitting stops at the first newline, which ends a newline-free line. */
  lemma SplitFirstLine(line: string, rest: string)
    requires '\n' !in line
    ensures SplitLines(line + "\n" + rest) == [line] + SplitLines(rest)
  {
    var s := line + "\n" + rest;
    assert s[..|line|] == line;
    assert s[|line|] == '\n';
    assert Find(s, '\n') == |line|;
    assert s[|line| + 1..] == rest;
  }

  /** `Lines` unfolded from the front. */
  lemma {:induction false} LinesCons(xs: seq<string>)
    requires xs != []
    ensures Lines(xs) == xs[0] + "\n" + Lines(xs[1..])
    decreases |xs|
  {
    if |xs| > 1 {
      var init := xs[..|xs| - 1];
      var last := xs[|xs| - 1];
      LinesCons(init);
      assert init[1..] == xs[1..][..|xs[1..]| - 1];
      assert Lines(xs[1..]) == Lines(init[1..]) + last + "\n";
      calc {
        Lines(xs);
        Lines(init) + last + "\n";
        (init[0] + "\n" + Lines(init[1..])) + last + "\n";
        xs[0] + "\n" + (Lines(init[1..]) + last + "\n");
      }
    } else {
      assert xs[..0] == [];
      assert xs[1..] == [];
    }
  }

  /** The description block of a parsed task's issue reads back as exactly
      its description entries. */
  lemma ParsedDescriptionsReadBack(lines: seq<string>, t: Task)
    requires ReadLines(lines) && t in Parsed(lines)
    ensures SplitLines(Lines(t.description)) == t.description
  {
    DescriptionsAreCleanLines(lines);
    assert forall i :: 0 <= i < |t.description| ==> CleanEntry(t.description[i]);
    LinesRoundTrip(t.description);
  }
}
