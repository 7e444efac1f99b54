/** The Habitica script: `generate_due_dates` in its loop-and-append form,
    the JSON body of `create_todo`, which exceptions `create_todo` swallows,
    and the task-by-date loop of `main`. */
module Habitica {
  import opened Common
  import opened Calendar
  import opened Text
  import opened Schedule
  import opened Batches

  /** What `requests.post(...)` followed by `raise_for_status()` may raise:
      an `HTTPError` for an error status, another `RequestException`
      (connection, timeout, ...), or an exception outside `requests`. */
  datatype PostError = HttpStatus(status: int) | Network | OtherException

  /** The two `except` clauses of `create_todo` catch `HTTPError` and
      `RequestException`; `HTTPError` is itself a `RequestException`. */
  predicate Caught(e: PostError) {
    e.HttpStatus? || e.Network?
  }

  /** What `create_todo` lets escape: the `isinstance` check's ValueError,
      or an exception neither `except` clause names. */
  datatype TodoError = ValueError | Escaped(error: PostError)

  /** `generate_due_dates`: an empty list, then one `append` per offset. */
  method GenerateDueDates(base: DateTime, days: seq<int>) returns (dueDates: seq<DateTime>)
    requires InRange(base, days)
    ensures dueDates == DueDates(base, days)
  {
    dueDates := [];
    for i := 0 to |days|
      invariant dueDates == DueDates(base, days)[..i]
    {
      var dueDatetime := DueAt(base, days[i]);
      TakeOneMore(DueDates(base, days), i);
      dueDates := dueDates + [dueDatetime];
    }
  }

  /** The JSON body `create_todo` posts. */
  datatype TodoBody = TodoBody(text: string, kind: string, date: string, notes: string, priority: int)

  function Body(text: string, note: string, t: DateTime): TodoBody
    requires ValidDateTime(t)
  {
    TodoBody(text, "todo", DateText(t.date), note, 2)
  }

  /** `create_todo`: the type check, the body, the post and the two
      `except` clauses; `outcome` is what the post and `raise_for_status` did. */
  function CreateTodo(text: string, due: DueValue, note: string, outcome: Outcome<PostError>): (r: Call<TodoBody, TodoError>)
    requires due.DateTimeValue? ==> ValidDateTime(due.t)
    ensures due.NotDateTime? ==> r == Call(None, Some(ValueError))
    ensures due.DateTimeValue? ==> r.sent == Some(Body(text, note, due.t))
    ensures due.DateTimeValue? ==> (r.raised.Some? <==> outcome.Raised? && !Caught(outcome.error))
    ensures r.raised.Some? && due.DateTimeValue? ==> r.raised.value == Escaped(outcome.error)
  {
    if due.NotDateTime? then Call(None, Some(ValueError))
    else
      Call(Some(Body(text, note, due.t)),
           match outcome
           case Succeeded => None
           case Raised(e) => if Caught(e) then None else Some(Escaped(e)))
  }

  /** The body carries the text and the note unchanged, type "todo",
      priority 2, and a `YYYY-MM-DD` date that reads back as the due date's
      calendar day; the time of day is not sent, so two due datetimes on the
      same day give the same body. */
  lemma CreateTodoPayload(text: string, note: string, t: DateTime, t': DateTime, outcome: Outcome<PostError>)
    requires ValidDateTime(t) && ValidDateTime(t')
    ensures var r := CreateTodo(text, DateTimeValue(t), note, outcome);
      && r.sent.Some?
      && r.sent.value.text == text && r.sent.value.notes == note
      && r.sent.value.kind == "todo" && r.sent.value.priority == 2
      && DecodeDate(r.sent.value.date) == Some(t.date)
      && (t'.date == t.date <==> CreateTodo(text, DateTimeValue(t'), note, outcome).sent == r.sent)
  {
    DateTextRoundTrip(t.date);
    DateTextRoundTrip(t'.date);
  }

  /** The tasks of `main`: tuples of a text and, optionally, a note. */
  type TaskTuple = seq<string>

  /** The sample list in `main`. */
  const SampleTasks: seq<TaskTuple> := [
    ["Sample Todo Task 1", "https://www.google.com"],
    ["Sample Todo Task 2", "https://www.wikipedia.org"],
    ["Sample Todo Task 3"]
  ]

  /** `task[1] if len(task) > 1 else ""`. */
  function NoteOf(task: TaskTuple): string {
    if |task| > 1 then task[1] else ""
  }

  /** Every tuple has a text: `task[0]` exists. */
  predicate WellFormed(tasks: seq<TaskTuple>) {
    forall i :: 0 <= i < |tasks| ==> |tasks[i]| >= 1
  }

  /** The bodies for one task: one per due date, in order. */
  function Batch(task: TaskTuple, dues: seq<DateTime>): (r: seq<TodoBody>)
    requires |task| >= 1 && ValidTimes(dues)
    ensures |r| == |dues|
  {
    seq(|dues|, k requires 0 <= k < |dues| => Body(task[0], NoteOf(task), dues[k]))
  }

  function TaskBatches(tasks: seq<TaskTuple>, dues: seq<DateTime>): (r: seq<seq<TodoBody>>)
    requires WellFormed(tasks) && ValidTimes(dues)
    ensures |r| == |tasks| && forall i :: 0 <= i < |tasks| ==> |r[i]| == |dues|
  {
    seq(|tasks|, i requires 0 <= i < |tasks| => Batch(tasks[i], dues))
  }

  /** The bodies the nested loops of `main` plan to post, task by task. */
  function Planned(tasks: seq<TaskTuple>, dues: seq<DateTime>): seq<TodoBody>
    requires WellFormed(tasks) && ValidTimes(dues)
  {
    Concat(TaskBatches(tasks, dues))
  }

  /** The bodies `main` plans to post, with the due dates of `datetime.now()`. */
  function MainPlan(tasks: seq<TaskTuple>, now: DateTime): seq<TodoBody>
    requires WellFormed(tasks) && CadenceFits(now)
  {
    CadenceFitsExactly(now);
    Planned(tasks, DueDates(now, Cadence))
  }

  /** Call j's outcome as `main` sees it: the exceptions `create_todo`
      swallows look like a normal return. */
  function Escapes(respond: nat -> Outcome<PostError>): nat -> Outcome<PostError> {
    (j: nat) => if respond(j).Raised? && !Caught(respond(j).error) then respond(j) else Succeeded
  }

  /** `main` after `datetime.now()`: the posts made, and the exception that
      ended it, if one escaped `create_todo` (nothing in `main` catches it). */
  function MainPosts(tasks: seq<TaskTuple>, now: DateTime, respond: nat -> Outcome<PostError>): (seq<TodoBody>, Option<PostError>)
    requires WellFormed(tasks) && CadenceFits(now)
  {
    var planned := MainPlan(tasks, now);
    var sent := UntilFailure(planned, Escapes(respond));
    (sent, if AllSucceeded(Escapes(respond), |planned|) then None else Some(respond(|sent| - 1).error))
  }

  /** One post per task and due date. */
  lemma PlannedLength(tasks: seq<TaskTuple>, dues: seq<DateTime>)
    requires WellFormed(tasks) && ValidTimes(dues)
    ensures |Planned(tasks, dues)| == |tasks| * |dues|
  {
    ConcatLength(TaskBatches(tasks, dues), |dues|);
  }

  /** Post number i * |dues| + k is task i's body for due date k: the loops
      run task-major, and every task gets every date. */
  lemma PlannedOrder(tasks: seq<TaskTuple>, dues: seq<DateTime>, i: nat, k: nat)
    requires WellFormed(tasks) && ValidTimes(dues) && i < |tasks| && k < |dues|
    ensures |Planned(tasks, dues)| == |tasks| * |dues|
    ensures i * |dues| + k < |Planned(tasks, dues)|
    ensures Planned(tasks, dues)[i * |dues| + k] == Body(tasks[i][0], NoteOf(tasks[i]), dues[k])
  {
    ConcatAt(TaskBatches(tasks, dues), |dues|, i, k);
  }

  /** When only HTTP and network errors occur, `main` makes exactly
      |tasks| x 5 posts and ends normally. */
  lemma SwallowedErrorsKeepGoing(tasks: seq<TaskTuple>, now: DateTime, respond: nat -> Outcome<PostError>)
    requires WellFormed(tasks) && CadenceFits(now)
    requires forall j: nat :: respond(j).Raised? ==> Caught(respond(j).error)
    ensures MainPosts(tasks, now, respond).0 == MainPlan(tasks, now)
    ensures |MainPosts(tasks, now, respond).0| == |tasks| * 5 && MainPosts(tasks, now, respond).1.None?
  {
    CadenceFitsExactly(now);
    var dues := DueDates(now, Cadence);
    PlannedLength(tasks, dues);
    NothingEscapes(Planned(tasks, dues), respond);
  }

  /** Without an escaping exception the loops post their whole plan. */
  lemma NothingEscapes<T>(planned: seq<T>, respond: nat -> Outcome<PostError>)
    requires forall j: nat :: respond(j).Raised? ==> Caught(respond(j).error)
    ensures AllSucceeded(Escapes(respond), |planned|)
    ensures UntilFailure(planned, Escapes(respond)) == planned
  {
    assert forall j: nat :: Escapes(respond)(j).Succeeded?;
  }

  /** The first escaping exception cuts the plan; it is an exception outside `requests`. */
  lemma EscapeBound<T>(planned: seq<T>, respond: nat -> Outcome<PostError>, j: nat)
    requires j < |planned| && respond(j) == Raised(OtherException)
    ensures var sent := UntilFailure(planned, Escapes(respond));
      && !AllSucceeded(Escapes(respond), |planned|)
      && 1 <= |sent| <= j + 1 && respond(|sent| - 1) == Raised(OtherException)
  {
    var escapes := Escapes(respond);
    assert escapes(j).Raised?;
    FailureBound(planned, escapes, j);
    var sent := UntilFailure(planned, escapes);
    assert escapes(|sent| - 1).Raised?;
  }

  /** An exception outside `requests` at post j ends `main`: no post after
      it is made, and that exception (or an earlier one like it) is what
      escapes. */
  lemma EscapeStopsMain(tasks: seq<TaskTuple>, now: DateTime, respond: nat -> Outcome<PostError>, j: nat)
    requires WellFormed(tasks) && CadenceFits(now)
    requires j < |tasks| * 5 && respond(j) == Raised(OtherException)
    ensures |MainPosts(tasks, now, respond).0| <= j + 1
    ensures MainPosts(tasks, now, respond).1 == Some(OtherException)
  {
    CadenceFitsExactly(now);
    var dues := DueDates(now, Cadence);
    var planned := Planned(tasks, dues);
    PlannedLength(tasks, dues);
    assert |planned| == |tasks| * 5;
    EscapeBound(planned, respond, j);
  }

  /** The sample list: three tasks, the third with the default empty note,
      fifteen posts when no exception escapes. */
  lemma SampleTasksPlan(now: DateTime, respond: nat -> Outcome<PostError>)
    requires CadenceFits(now)
    requires forall j: nat :: respond(j).Raised? ==> Caught(respond(j).error)
    ensures WellFormed(SampleTasks) && NoteOf(SampleTasks[2]) == ""
    ensures |MainPosts(SampleTasks, now, respond).0| == 15
  {
    SwallowedErrorsKeepGoing(SampleTasks, now, respond);
  }

  lemma BatchesSnoc(tasks: seq<TaskTuple>, dues: seq<DateTime>, i: nat)
    requires WellFormed(tasks) && ValidTimes(dues) && i < |tasks|
    ensures Planned(tasks[..i + 1], dues) == Planned(tasks[..i], dues) + Batch(tasks[i], dues)
  {
    var xs := TaskBatches(tasks[..i + 1], dues);
    assert xs[..|xs| - 1] == TaskBatches(tasks[..i], dues);
    assert xs[|xs| - 1] == Batch(tasks[i], dues);
  }

  /** The inner `for due_date in due_dates` loop for one task, its posts
      numbered from `start`: it stops only at an exception `create_todo`
      lets escape. */
  method IssueBatch(task: TaskTuple, dues: seq<DateTime>, respond: nat -> Outcome<PostError>, start: nat)
    returns (batch: seq<TodoBody>, escaped: Option<PostError>)
    requires |task| >= 1 && ValidTimes(dues)
    ensures |batch| <= |dues| && batch == Batch(task, dues)[..|batch|]
    ensures escaped.None? ==> |batch| == |dues| && SucceededFrom(Escapes(respond), start, start + |dues|)
    ensures escaped.Some? ==>
      && |batch| >= 1
      && SucceededFrom(Escapes(respond), start, start + |batch| - 1)
      && Escapes(respond)(start + |batch| - 1) == Raised(escaped.value)
  {
    batch := [];
    var text, note := task[0], NoteOf(task);
    for k := 0 to |dues|
      invariant |batch| == k && batch == Batch(task, dues)[..k]
      invariant SucceededFrom(Escapes(respond), start, start + k)
    {
      var call := CreateTodo(text, DateTimeValue(dues[k]), note, respond(start + k));
      TakeOneMore(Batch(task, dues), k);
      batch := batch + [call.sent.value];
      if call.raised.Some? {
        return batch, Some(call.raised.value.error);
      }
    }
    return batch, None;
  }

  /** An exception escaped: the loops have posted exactly what `MainPosts` says. */
  lemma StopAtEscape(tasks: seq<TaskTuple>, dues: seq<DateTime>, respond: nat -> Outcome<PostError>,
                     i: nat, batch: seq<TodoBody>)
    requires WellFormed(tasks) && ValidTimes(dues) && i < |tasks|
    requires 1 <= |batch| <= |dues| && batch == Batch(tasks[i], dues)[..|batch|]
    requires var sent := Planned(tasks[..i], dues) + batch;
      AllSucceeded(Escapes(respond), |sent| - 1) && Escapes(respond)(|sent| - 1).Raised?
    ensures var sent := Planned(tasks[..i], dues) + batch;
      && !AllSucceeded(Escapes(respond), |Planned(tasks, dues)|)
      && UntilFailure(Planned(tasks, dues), Escapes(respond)) == sent
  {
    var done := Planned(tasks[..i], dues);
    BatchesSnoc(tasks, dues, i);
    var upTo := Planned(tasks[..i + 1], dues);
    SentPrefix(done, Batch(tasks[i], dues), batch);
    var xs, ys := TaskBatches(tasks[..i + 1], dues), TaskBatches(tasks[i + 1..], dues);
    assert TaskBatches(tasks, dues) == xs + ys;
    ConcatAppend(xs, ys);
    assert (upTo + Concat(ys))[..|done + batch|] == upTo[..|done + batch|];
    FailureStops(Planned(tasks, dues), Escapes(respond), done + batch);
  }

  /** `main`: the due dates once, then the nested loops. */
  method Run(tasks: seq<TaskTuple>, now: DateTime, respond: nat -> Outcome<PostError>)
    returns (sent: seq<TodoBody>, escaped: Option<PostError>)
    requires WellFormed(tasks) && CadenceFits(now)
    ensures (sent, escaped) == MainPosts(tasks, now, respond)
  {
    CadenceFitsExactly(now);
    var dueDates := GenerateDueDates(now, Cadence);
    sent := [];
    assert tasks[..0] == [];
    for i := 0 to |tasks|
      invariant sent == Planned(tasks[..i], dueDates)
      invariant AllSucceeded(Escapes(respond), |sent|)
    {
      var batch, e := IssueBatch(tasks[i], dueDates, respond, |sent|);
      BatchesSnoc(tasks, dueDates, i);
      if e.Some? {
        SucceededJoin(Escapes(respond), |sent|, |sent| + |batch| - 1);
        StopAtEscape(tasks, dueDates, respond, i, batch);
        return sent + batch, e;
      }
      SucceededJoin(Escapes(respond), |sent|, |sent| + |batch|);
      sent := sent + batch;
    }
    assert tasks[..|tasks|] == tasks;
    return sent, None;
  }
}
