/** The Todoist script: the spaced-repetition schedule, the `add_task`
    arguments of `create_todo`, the project dictionary and the two number
    prompts, and the content loop of `main` with its summary. */
module Todoist {
  import opened Common
  import opened Calendar
  import opened Text
  import opened Console
  import opened Schedule
  import opened Batches

  /** What `api.add_task` or `api.get_projects` may raise. */
  datatype ApiError = RequestFailed | OtherError

  /** The one exception `create_todo` lets escape. */
  datatype TodoError = ValueError

  /** `generate_spaced_repetition_dates`: the five fixed intervals from `base`. */
  function SpacedRepetitionDates(base: DateTime): (r: seq<DateTime>)
    requires CadenceFits(base)
    ensures |r| == 5 && ValidTimes(r)
    ensures forall i :: 0 <= i < 5 ==>
      && ToOrdinal(r[i].date) == ToOrdinal(base.date) + Cadence[i]
      && r[i].hour == 23 && r[i].minute == 0 && r[i].second == 0 && r[i].microsecond == 0
  {
    CadenceFitsExactly(base);
    DueDates(base, Cadence)
  }

  /** The five dates fall on strictly later calendar days, in order. */
  lemma SpacedDatesIncrease(base: DateTime, i: int, j: int)
    requires CadenceFits(base) && 0 <= i < j < 5
    ensures DateBefore(SpacedRepetitionDates(base)[i].date, SpacedRepetitionDates(base)[j].date)
  {
    var r := SpacedRepetitionDates(base);
    CadenceIncreasing(i, j);
    assert ToOrdinal(r[i].date) < ToOrdinal(r[j].date);
    OrdinalOrder(r[i].date, r[j].date);
  }

  /** `strftime("%Y-%m-%d at %H:%M")`: seconds and microseconds are dropped. */
  function DueString(t: DateTime): (s: string)
    requires ValidDateTime(t)
    ensures |s| == 19
  {
    DateText(t.date) + " at " + ClockText(t.hour, t.minute)
  }

  /** Reads a `YYYY-MM-DD at HH:MM` string back as a date, hour and minute. */
  function DecodeDueString(s: string): (r: Option<(Date, nat, nat)>)
    ensures r.Some? ==> ValidDate(r.value.0) && r.value.1 < 24 && r.value.2 < 60
  {
    if |s| != 19 || s[10..14] != " at " then None
    else
      var d, c := DecodeDate(s[..10]), DecodeClock(s[14..]);
      if d.None? || c.None? then None else Some((d.value, c.value.0, c.value.1))
  }

  lemma DueStringRoundTrip(t: DateTime)
    requires ValidDateTime(t)
    ensures DecodeDueString(DueString(t)) == Some((t.date, t.hour, t.minute))
  {
    var s := DueString(t);
    assert s[..10] == DateText(t.date) && s[10..14] == " at " && s[14..] == ClockText(t.hour, t.minute);
    DateTextRoundTrip(t.date);
    ClockTextRoundTrip(t.hour, t.minute);
  }

  /** The keyword arguments of `api.add_task`. */
  datatype AddTaskArgs = AddTaskArgs(content: string, description: string, projectId: Option<string>,
                                     dueString: string, dueLang: string, priority: int)

  function Args(content: string, description: string, priority: int, projectId: Option<string>,
                t: DateTime): AddTaskArgs
    requires ValidDateTime(t)
  {
    AddTaskArgs(content, description, projectId, DueString(t), "en", priority)
  }

  /** `create_todo`: a due value that is not a datetime raises ValueError
      before anything is sent; otherwise the task is sent, and whatever the
      service does, nothing escapes. */
  function CreateTodo(content: string, due: DueValue, priority: int, description: string,
                      projectId: Option<string>, outcome: Outcome<ApiError>): (r: Call<AddTaskArgs, TodoError>)
    requires due.DateTimeValue? ==> ValidDateTime(due.t)
    ensures due.NotDateTime? ==> r == Call(None, Some(ValueError))
    ensures due.DateTimeValue? ==> r.raised.None? && r.sent == Some(Args(content, description, priority, projectId, due.t))
  {
    if due.NotDateTime? then Call(None, Some(ValueError))
    else Call(Some(Args(content, description, priority, projectId, due.t)), None)
  }

  /** The arguments forward content, description, project and priority
      unchanged, ask for English parsing, and carry a due string that reads
      back as the due date's date, hour and minute. */
  lemma CreateTodoPayload(content: string, t: DateTime, priority: int, description: string,
                          projectId: Option<string>, outcome: Outcome<ApiError>)
    requires ValidDateTime(t)
    ensures var r := CreateTodo(content, DateTimeValue(t), priority, description, projectId, outcome);
      && r.raised.None? && r.sent.Some?
      && r.sent.value.content == content && r.sent.value.description == description
      && r.sent.value.projectId == projectId && r.sent.value.priority == priority
      && r.sent.value.dueLang == "en"
      && DecodeDueString(r.sent.value.dueString) == Some((t.date, t.hour, t.minute))
  {
    DueStringRoundTrip(t);
  }

  /** A project as `api.get_projects` lists it. */
  datatype Project = Project(name: string, id: string)

  /** A Python dict from project name to id: its items in insertion order. */
  type Dict = seq<(string, string)>

  function Keys(d: Dict): (r: seq<string>)
    ensures |r| == |d| && forall i :: 0 <= i < |d| ==> r[i] == d[i].0
  {
    seq(|d|, i requires 0 <= i < |d| => d[i].0)
  }

  predicate DistinctKeys(d: Dict) {
    forall i, j :: 0 <= i < j < |d| ==> d[i].0 != d[j].0
  }

  predicate HasKey(d: Dict, k: string) {
    exists i :: 0 <= i < |d| && d[i].0 == k
  }

  /** `d[k] = v`: an existing key keeps its position and takes the new
      value; a new key goes last. */
  function Put(d: Dict, k: string, v: string): (r: Dict)
    ensures |r| == if HasKey(d, k) then |d| else |d| + 1
    ensures forall i :: 0 <= i < |d| ==> r[i].0 == d[i].0
    ensures !HasKey(d, k) ==> r[|d|] == (k, v)
    ensures forall i :: 0 <= i < |d| ==> r[i].1 == if d[i].0 == k then v else d[i].1
  {
    if HasKey(d, k) then seq(|d|, i requires 0 <= i < |d| => if d[i].0 == k then (k, v) else d[i])
    else d + [(k, v)]
  }

  /** `{project.name: project.id for project in projects}`. */
  function ProjectDict(ps: seq<Project>): Dict {
    if ps == [] then [] else Put(ProjectDict(ps[..|ps| - 1]), ps[|ps| - 1].name, ps[|ps| - 1].id)
  }

  /** Reference definitions: the names without repeats, in order of first
      appearance, and the id of the last project carrying a name. */
  function FirstAppearances(names: seq<string>): seq<string> {
    if names == [] then []
    else
      var earlier := FirstAppearances(names[..|names| - 1]);
      if names[|names| - 1] in earlier then earlier else earlier + [names[|names| - 1]]
  }

  function Names(ps: seq<Project>): (r: seq<string>)
    ensures |r| == |ps| && forall i :: 0 <= i < |ps| ==> r[i] == ps[i].name
  {
    seq(|ps|, i requires 0 <= i < |ps| => ps[i].name)
  }

  function LastId(ps: seq<Project>, name: string): Option<string> {
    if ps == [] then None
    else if ps[|ps| - 1].name == name then Some(ps[|ps| - 1].id)
    else LastId(ps[..|ps| - 1], name)
  }

  lemma {:induction false} FirstAppearancesSameSet(names: seq<string>, k: string)
    ensures k in FirstAppearances(names) <==> k in names
  {
    if names != [] {
      FirstAppearancesSameSet(names[..|names| - 1], k);
      assert names == names[..|names| - 1] + [names[|names| - 1]];
    }
  }

  /** `d[k] = v` adds `k` to the keys exactly when it was not there yet. */
  lemma PutKeys(d: Dict, k: string, v: string)
    ensures Keys(Put(d, k, v)) == if k in Keys(d) then Keys(d) else Keys(d) + [k]
  {
    assert HasKey(d, k) <==> k in Keys(d);
  }

  /** The dictionary's keys are the names, each once, in order of first appearance. */
  lemma {:induction false} ProjectDictKeys(ps: seq<Project>)
    ensures Keys(ProjectDict(ps)) == FirstAppearances(Names(ps))
  {
    if ps != [] {
      var init, p := ps[..|ps| - 1], ps[|ps| - 1];
      ProjectDictKeys(init);
      assert Names(ps)[..|ps| - 1] == Names(init);
      FirstAppearancesSameSet(Names(init), p.name);
      PutKeys(ProjectDict(init), p.name, p.id);
    }
  }

  /** The dictionary holds, for each name, the id of the last project of that name. */
  lemma {:induction false} ProjectDictIsLastWins(ps: seq<Project>)
    ensures forall i :: 0 <= i < |ProjectDict(ps)| ==>
      LastId(ps, ProjectDict(ps)[i].0) == Some(ProjectDict(ps)[i].1)
  {
    if ps != [] {
      var init, p := ps[..|ps| - 1], ps[|ps| - 1];
      ProjectDictIsLastWins(init);
      var d0, d := ProjectDict(init), ProjectDict(ps);
      assert d == Put(d0, p.name, p.id);
      forall i | 0 <= i < |d| ensures LastId(ps, d[i].0) == Some(d[i].1) {
        if i < |d0| {
          assert d[i].0 == d0[i].0;
        }
      }
    }
  }

  lemma {:induction false} FirstAppearancesDistinct(names: seq<string>)
    ensures forall i, j :: 0 <= i < j < |FirstAppearances(names)| ==>
      FirstAppearances(names)[i] != FirstAppearances(names)[j]
  {
    if names != [] {
      FirstAppearancesDistinct(names[..|names| - 1]);
    }
  }

  /** A name maps to one id only: the dictionary's keys are distinct. */
  lemma ProjectDictDistinct(ps: seq<Project>)
    ensures DistinctKeys(ProjectDict(ps))
  {
    ProjectDictKeys(ps);
    FirstAppearancesDistinct(Names(ps));
    var d := ProjectDict(ps);
    forall i, j | 0 <= i < j < |d| ensures d[i].0 != d[j].0 {
      assert Keys(d)[i] == d[i].0 && Keys(d)[j] == d[j].0;
    }
  }

  /** With distinct names, the dictionary lists every project, in order. */
  lemma {:induction false} ProjectDictDistinctNames(ps: seq<Project>)
    requires forall i, j :: 0 <= i < j < |ps| ==> ps[i].name != ps[j].name
    ensures |ProjectDict(ps)| == |ps|
    ensures forall i :: 0 <= i < |ps| ==> ProjectDict(ps)[i] == (ps[i].name, ps[i].id)
  {
    if ps != [] {
      var init, p := ps[..|ps| - 1], ps[|ps| - 1];
      ProjectDictDistinctNames(init);
      assert p.name !in Keys(ProjectDict(init));
      var d := ProjectDict(ps);
      assert Keys(d) == Keys(ProjectDict(init)) + [p.name];
      forall i | 0 <= i < |ps| ensures d[i] == (ps[i].name, ps[i].id) {
        assert Keys(d)[i] == d[i].0;
      }
    }
  }

  /** `get_projects`: the dictionary of the fetched projects, or an empty
      one when the fetch raises. */
  function GetProjects(fetched: Result<seq<Project>, ApiError>): (r: Dict)
    ensures fetched.Err? ==> r == []
    ensures fetched.Ok? ==> r == ProjectDict(fetched.value)
    ensures fetched.Ok? ==> DistinctKeys(r) && Keys(r) == FirstAppearances(Names(fetched.value))
    ensures fetched.Ok? ==> forall i :: 0 <= i < |r| ==> LastId(fetched.value, r[i].0) == Some(r[i].1)
  {
    match fetched
    case Err(_) => []
    case Ok(ps) =>
      ProjectDictDistinct(ps);
      ProjectDictKeys(ps);
      ProjectDictIsLastWins(ps);
      ProjectDict(ps)
  }

  /** The project the `select_project` prompt settles on: 0 is the Inbox
      (None), n in 1 .. |projects| the n-th id in dictionary order. */
  function ProjectPrompt(projects: Dict, lines: seq<Line>): (r: (Prompted<Option<string>>, nat))
    ensures r.1 <= |lines|
    ensures r.0.Exhausted? ==> r.1 == |lines| && forall j :: 0 <= j < |lines| ==> !Accepts(lines[j].number, 0, |projects|)
    ensures r.0.Answer? ==>
      && r.1 >= 1 && Accepts(lines[r.1 - 1].number, 0, |projects|)
      && (forall j :: 0 <= j < r.1 - 1 ==> !Accepts(lines[j].number, 0, |projects|))
      && (r.0.value.None? <==> lines[r.1 - 1].number.value == 0)
      && (r.0.value.Some? ==> r.0.value.value == projects[lines[r.1 - 1].number.value - 1].1)
  {
    var a := AskNumber(lines, 0, |projects|);
    (if a.answer.Exhausted? then Exhausted
     else if a.answer.value == 0 then Answer(None)
     else Answer(Some(projects[a.answer.value - 1].1)),
     a.consumed)
  }

  /** When the projects cannot be fetched, the Inbox is the only choice. */
  lemma FetchFailureMeansInbox(e: ApiError, lines: seq<Line>)
    ensures var r := ProjectPrompt(GetProjects(Err(e)), lines).0;
      r.Answer? ==> r.value.None?
  {
  }

  /** `select_project`'s retry loop. */
  method SelectProject(projects: Dict, lines: seq<Line>) returns (r: Prompted<Option<string>>, consumed: nat)
    ensures (r, consumed) == ProjectPrompt(projects, lines)
  {
    var i := 0;
    while i < |lines|
      invariant 0 <= i <= |lines|
      invariant forall j :: 0 <= j < i ==> !Accepts(lines[j].number, 0, |projects|)
    {
      var choice := lines[i].number;
      if choice.Int? {
        if choice.value == 0 {
          return Answer(None), i + 1;
        }
        if 1 <= choice.value <= |projects| {
          return Answer(Some(projects[choice.value - 1].1)), i + 1;
        }
      }
      i := i + 1;
    }
    return Exhausted, |lines|;
  }

  /** `get_priority`'s retry loop: only 1 .. 4 is ever returned. */
  method GetPriority(lines: seq<Line>) returns (r: Prompted<int>, consumed: nat)
    ensures Asked(r, consumed) == AskNumber(lines, 1, 4)
    ensures r.Answer? ==> 1 <= r.value <= 4
  {
    var i := 0;
    while i < |lines|
      invariant 0 <= i <= |lines|
      invariant forall j :: 0 <= j < i ==> !Accepts(lines[j].number, 1, 4)
    {
      var priority := lines[i].number;
      if priority.Int? && 1 <= priority.value <= 4 {
        return Answer(priority.value), i + 1;
      }
      i := i + 1;
    }
    return Exhausted, |lines|;
  }

  /** The five `add_task` calls for one content line, in date order. */
  function Batch(content: string, description: string, priority: int, projectId: Option<string>,
                 dues: seq<DateTime>): (r: seq<AddTaskArgs>)
    requires ValidTimes(dues)
    ensures |r| == |dues|
  {
    seq(|dues|, k requires 0 <= k < |dues| => Args(content, description, priority, projectId, dues[k]))
  }

  /** Every call of a batch carries the batch's priority and project and `due_lang="en"`. */
  lemma BatchShape(content: string, description: string, priority: int, projectId: Option<string>,
                   dues: seq<DateTime>)
    requires ValidTimes(dues)
    ensures forall c :: c in Batch(content, description, priority, projectId, dues) ==>
      c.priority == priority && c.projectId == projectId && c.dueLang == "en"
  {
  }

  /** One numbered line of the summary: `enumerate(due_dates, 1)` and
      `strftime('%Y-%m-%d %H:%M')`. */
  function SummaryLine(n: nat, t: DateTime): string
    requires ValidDateTime(t)
  {
    "  " + Decimal(n) + ". " + MinuteText(t)
  }

  /** The printed summary: a header that always claims five tasks, then
      the due dates numbered from 1. */
  function Summary(content: string, dues: seq<DateTime>): (r: seq<string>)
    requires ValidTimes(dues)
    ensures |r| == |dues| + 1
  {
    ["Created 5 tasks for '" + content + "' with spaced repetition due dates:"]
      + seq(|dues|, i requires 0 <= i < |dues| => SummaryLine(i + 1, dues[i]))
  }

  /** A summary line with a one-digit number reads back as that number,
      the date and the hour and minute. */
  lemma SummaryLineReadsBack(n: nat, t: DateTime)
    requires 1 <= n <= 9 && ValidDateTime(t)
    ensures var line := SummaryLine(n, t);
      && |line| == 21 && line[..2] == "  " && DigitsValue(line[2..3]) == n && line[3..5] == ". "
      && DecodeDate(line[5..15]) == Some(t.date) && line[15] == ' '
      && DecodeClock(line[16..]) == Some((t.hour, t.minute))
  {
    var line := SummaryLine(n, t);
    var number := Decimal(n);
    assert number == [DigitChar(n)];
    assert line[2..3] == number;
    assert line[5..15] == DateText(t.date);
    assert line[16..] == ClockText(t.hour, t.minute);
    DateTextRoundTrip(t.date);
    ClockTextRoundTrip(t.hour, t.minute);
  }

  /** Line i + 1 of a summary reads back as the number i + 1 and the i-th
      due date's day, hour and minute (for the spaced-repetition dates, the
      time is 23:00). */
  lemma SummaryReadsBack(content: string, dues: seq<DateTime>, i: nat)
    requires ValidTimes(dues) && i < |dues| <= 9
    ensures var line := Summary(content, dues)[i + 1];
      && |line| == 21 && line[..2] == "  " && DigitsValue(line[2..3]) == i + 1 && line[3..5] == ". "
      && DecodeDate(line[5..15]) == Some(dues[i].date) && line[15] == ' '
      && DecodeClock(line[16..]) == Some((dues[i].hour, dues[i].minute))
  {
    assert Summary(content, dues)[i + 1] == SummaryLine(i + 1, dues[i]);
    SummaryLineReadsBack(i + 1, dues[i]);
  }

  /** How `main` ends: `done` was typed, or input ran out (EOFError). */
  datatype Ending = Finished | InputEnded

  /** The calls made, the summary lines printed, and how the loop ended. */
  datatype Transcript = Transcript(calls: seq<AddTaskArgs>, printed: seq<string>, ending: Ending)

  /** `datetime.now()` gives a datetime whose cadence stays within years 1 .. 9999. */
  ghost predicate ClockInRange(now: nat -> DateTime) {
    forall k: nat :: CadenceFits(now(k))
  }

  /** What one pass of the content loop reads from line `pos` on: the loop
      stops (`done`, or input runs out), or one task is read and the next
      task starts at line `next`. */
  datatype TaskRead =
    | Stop(ending: Ending)
    | Task(content: string, description: string, priority: int, next: nat)

  /** Reading one task: the content line, the description line and the
      priority prompt, which skips lines until one holds 1 .. 4. */
  function ReadTask(lines: seq<Line>, pos: nat): (r: TaskRead)
    requires pos <= |lines|
    ensures r.Stop? ==> (r.ending == Finished <==> pos < |lines| && IsDone(lines[pos].text))
    ensures r.Task? ==>
      && pos + 2 < r.next <= |lines| && !IsDone(lines[pos].text)
      && r.content == lines[pos].text && r.description == lines[pos + 1].text
      && 1 <= r.priority <= 4 && Accepts(lines[r.next - 1].number, 1, 4)
      && r.priority == lines[r.next - 1].number.value
    ensures r.Task? ==> forall j :: pos + 2 <= j < r.next - 1 ==> !Accepts(lines[j].number, 1, 4)
    ensures r.Stop? && r.ending == InputEnded ==>
      forall j :: pos + 2 <= j < |lines| ==> !Accepts(lines[j].number, 1, 4)
  {
    if pos == |lines| then Stop(InputEnded)
    else if IsDone(lines[pos].text) then Stop(Finished)
    else if pos + 1 == |lines| then Stop(InputEnded)
    else
      var rest := lines[pos + 2..];
      var a := AskNumber(rest, 1, 4);
      assert forall j :: pos + 2 <= j < |lines| ==> lines[j] == rest[j - (pos + 2)];
      if a.answer.Exhausted? then Stop(InputEnded)
      else Task(lines[pos].text, lines[pos + 1].text, a.answer.value, pos + 2 + a.consumed)
  }

  /** The content loop of `main`, from line `pos` and the `index`-th clock
      reading on, having already made `calls` and printed `printed`: for
      each task read, the clock is read afresh, five tasks are sent and the
      summary is printed. */
  function ContentLoopFrom(lines: seq<Line>, projectId: Option<string>, now: nat -> DateTime,
                           pos: nat, index: nat, calls: seq<AddTaskArgs>, printed: seq<string>): (r: Transcript)
    requires ClockInRange(now) && pos <= |lines|
    decreases |lines| - pos
  {
    match ReadTask(lines, pos)
    case Stop(ending) => Transcript(calls, printed, ending)
    case Task(content, description, priority, next) =>
      var dues := SpacedRepetitionDates(now(index));
      ContentLoopFrom(lines, projectId, now, next, index + 1,
                      calls + Batch(content, description, priority, projectId, dues),
                      printed + Summary(content, dues))
  }

  /** The whole content loop, from its first line and first clock reading. */
  function ContentLoop(lines: seq<Line>, projectId: Option<string>, now: nat -> DateTime): Transcript
    requires ClockInRange(now)
  {
    ContentLoopFrom(lines, projectId, now, 0, 0, [], [])
  }

  /** The number of tasks the content loop reads from line `pos` on. */
  function TasksRead(lines: seq<Line>, pos: nat): nat
    requires pos <= |lines|
    decreases |lines| - pos
  {
    match ReadTask(lines, pos)
    case Stop(_) => 0
    case Task(_, _, _, next) => 1 + TasksRead(lines, next)
  }

  /** Every task read issues exactly five calls and prints exactly six
      lines, whether or not the calls succeed; every call carries a
      priority in 1 .. 4, the chosen project and `due_lang="en"`. */
  lemma {:induction false} ContentLoopShape(lines: seq<Line>, projectId: Option<string>, now: nat -> DateTime,
                                            pos: nat, index: nat, calls: seq<AddTaskArgs>, printed: seq<string>)
    requires ClockInRange(now) && pos <= |lines|
    requires forall c :: c in calls ==> 1 <= c.priority <= 4 && c.projectId == projectId && c.dueLang == "en"
    ensures var r := ContentLoopFrom(lines, projectId, now, pos, index, calls, printed);
      && |r.calls| == |calls| + 5 * TasksRead(lines, pos)
      && |r.printed| == |printed| + 6 * TasksRead(lines, pos)
      && forall c :: c in r.calls ==> 1 <= c.priority <= 4 && c.projectId == projectId && c.dueLang == "en"
    decreases |lines| - pos
  {
    var t := ReadTask(lines, pos);
    if t.Task? {
      var dues := SpacedRepetitionDates(now(index));
      var b := Batch(t.content, t.description, t.priority, projectId, dues);
      BatchShape(t.content, t.description, t.priority, projectId, dues);
      ContentLoopShape(lines, projectId, now, t.next, index + 1, calls + b, printed + Summary(t.content, dues));
    }
  }

  /** `main`: fetch the projects, pick one, then run the content loop on
      the lines that follow. */
  function Session(fetched: Result<seq<Project>, ApiError>, lines: seq<Line>, now: nat -> DateTime): Transcript
    requires ClockInRange(now)
  {
    var picked := ProjectPrompt(GetProjects(fetched), lines);
    if picked.0.Exhausted? then Transcript([], [], InputEnded)
    else ContentLoop(lines[picked.1..], picked.0.value, now)
  }

  /** The `for due_date in due_dates` loop: one `create_todo` per date; the
      outcomes are swallowed, so all of them are sent. */
  method IssueBatch(content: string, description: string, priority: int, projectId: Option<string>,
                    dues: seq<DateTime>, respond: nat -> Outcome<ApiError>, start: nat)
    returns (batch: seq<AddTaskArgs>)
    requires ValidTimes(dues)
    ensures batch == Batch(content, description, priority, projectId, dues)
  {
    batch := [];
    for k := 0 to |dues|
      invariant batch == Batch(content, description, priority, projectId, dues)[..k]
    {
      var call := CreateTodo(content, DateTimeValue(dues[k]), priority, description, projectId, respond(start + k));
      TakeOneMore(Batch(content, description, priority, projectId, dues), k);
      batch := batch + [call.sent.value];
    }
  }

  /** The summary `print`s. */
  method PrintSummary(content: string, dues: seq<DateTime>) returns (printed: seq<string>)
    requires ValidTimes(dues)
    ensures printed == Summary(content, dues)
  {
    printed := ["Created 5 tasks for '" + content + "' with spaced repetition due dates:"];
    for i := 0 to |dues|
      invariant |printed| == i + 1 && printed == Summary(content, dues)[..i + 1]
    {
      TakeOneMore(Summary(content, dues), i + 1);
      printed := printed + [SummaryLine(i + 1, dues[i])];
    }
  }

  /** The reading half of the loop body: `input()` for the content, the
      `done` test, `input()` for the description and `get_priority()`. */
  method ReadTaskRun(lines: seq<Line>, pos: nat) returns (t: TaskRead)
    requires pos <= |lines|
    ensures t == ReadTask(lines, pos)
  {
    if pos == |lines| {
      return Stop(InputEnded);
    }
    var content := lines[pos].text;
    if IsDone(content) {
      return Stop(Finished);
    }
    if pos + 1 == |lines| {
      return Stop(InputEnded);
    }
    var description := lines[pos + 1].text;
    var priority, used := GetPriority(lines[pos + 2..]);
    if priority.Exhausted? {
      return Stop(InputEnded);
    }
    return Task(content, description, priority.value, pos + 2 + used);
  }

  /** The content loop of `main`: read a task, then send its five calls
      and print its summary, until the reading stops. */
  method ContentLoopRun(lines: seq<Line>, projectId: Option<string>, now: nat -> DateTime,
                        respond: nat -> Outcome<ApiError>)
    returns (calls: seq<AddTaskArgs>, printed: seq<string>, ending: Ending)
    requires ClockInRange(now)
    ensures Transcript(calls, printed, ending) == ContentLoop(lines, projectId, now)
  {
    calls, printed := [], [];
    var pos, index := 0, 0;
    while true
      invariant pos <= |lines|
      invariant ContentLoopFrom(lines, projectId, now, pos, index, calls, printed) == ContentLoop(lines, projectId, now)
      decreases |lines| - pos
    {
      var t := ReadTaskRun(lines, pos);
      if t.Stop? {
        return calls, printed, t.ending;
      }
      var dues := SpacedRepetitionDates(now(index));
      var batch := IssueBatch(t.content, t.description, t.priority, projectId, dues, respond, |calls|);
      var summary := PrintSummary(t.content, dues);
      calls, printed := calls + batch, printed + summary;
      pos, index := t.next, index + 1;
    }
  }

  /** `main`: the project prompt, then the content loop. */
  method Run(fetched: Result<seq<Project>, ApiError>, lines: seq<Line>, now: nat -> DateTime,
             respond: nat -> Outcome<ApiError>)
    returns (calls: seq<AddTaskArgs>, printed: seq<string>, ending: Ending)
    requires ClockInRange(now)
    ensures Transcript(calls, printed, ending) == Session(fetched, lines, now)
  {
    var projects := GetProjects(fetched);
    var projectId, consumed := SelectProject(projects, lines);
    if projectId.Exhausted? {
      return [], [], InputEnded;
    }
    calls, printed, ending := ContentLoopRun(lines[consumed..], projectId.value, now, respond);
  }
}
