/** The Google Tasks script: the task-list listing, the insert payload of
    `create_todo`, the task-list selection prompt and the title loop of
    `main`, which inserts one task per due date for every title typed. */
module GoogleTasks {
  import opened Common
  import opened Calendar
  import opened Text
  import opened Console
  import opened Schedule
  import opened Batches

  /** What the client library raises from a remote call. */
  datatype ApiError = HttpError(status: int) | OtherError

  /** The exceptions `create_todo` lets escape. */
  datatype TodoError = ValueError | Api(error: ApiError)

  /** Why `list_task_lists` failed: the fetch raised, or a list lacked one
      of the two keys read from it (a KeyError). */
  datatype ListError = FetchFailed(error: ApiError) | MissingKey(key: string)

  /** A task-list resource as the service returns it. */
  type Resource = map<string, string>

  /** The `{"id": ..., "title": ...}` dictionary kept of each list. */
  datatype TaskList = TaskList(id: string, title: string)

  predicate HasKeys(item: Resource) {
    "id" in item && "title" in item
  }

  /** The projection of `list_task_lists`, reading `id` before `title` of
      each item in turn; the first missing key raises KeyError. */
  function Project(items: seq<Resource>): (r: Result<seq<TaskList>, ListError>)
    ensures r.Ok? <==> forall i :: 0 <= i < |items| ==> HasKeys(items[i])
    ensures r.Ok? ==> |r.value| == |items|
    ensures r.Ok? ==> forall i :: 0 <= i < |items| ==>
      r.value[i].id == items[i]["id"] && r.value[i].title == items[i]["title"]
    ensures r.Err? ==> exists i ::
      && 0 <= i < |items| && !HasKeys(items[i])
      && (forall j :: 0 <= j < i ==> HasKeys(items[j]))
      && r.error == MissingKey(if "id" in items[i] then "title" else "id")
  {
    if items == [] then Ok([])
    else if "id" !in items[0] then Err(MissingKey("id"))
    else if "title" !in items[0] then Err(MissingKey("title"))
    else
      var rest := Project(items[1..]);
      if rest.Err? then
        assert forall j :: 1 <= j < |items| ==> items[j] == items[1..][j - 1];
        rest
      else
        Ok([TaskList(items[0]["id"], items[0]["title"])] + rest.value)
  }

  /** `list_task_lists`: the response's `items` (absent means none) projected
      to id and title; a failed fetch is re-raised. */
  function ListTaskLists(fetched: Result<Option<seq<Resource>>, ApiError>): (r: Result<seq<TaskList>, ListError>)
    ensures fetched.Err? ==> r == Err(FetchFailed(fetched.error))
    ensures fetched == Ok(None) ==> r == Ok([])
    ensures fetched.Ok? && fetched.value.Some? ==> r == Project(fetched.value.value)
  {
    match fetched
    case Err(e) => Err(FetchFailed(e))
    case Ok(None) => Ok([])
    case Ok(Some(items)) => Project(items)
  }

  /** The task body `create_todo` sends, and the insert request carrying it. */
  datatype TaskBody = TaskBody(title: string, notes: string, due: string)
  datatype InsertRequest = InsertRequest(tasklist: string, body: TaskBody)

  /** The `due` field: `isoformat()` with a literal `Z` appended to the
      local wall-clock value, without any timezone conversion. */
  function DueWire(t: DateTime): (s: string)
    requires ValidDateTime(t)
    ensures |s| == (if t.microsecond == 0 then 20 else 27) && s[|s| - 1] == 'Z'
  {
    IsoFormat(t) + "Z"
  }

  function DecodeDueWire(s: string): (r: Option<DateTime>)
    ensures r.Some? ==> ValidDateTime(r.value)
  {
    if |s| >= 1 && s[|s| - 1] == 'Z' then DecodeIsoFormat(s[..|s| - 1]) else None
  }

  lemma DueWireRoundTrip(t: DateTime)
    requires ValidDateTime(t)
    ensures DecodeDueWire(DueWire(t)) == Some(t)
  {
    assert DueWire(t)[..|DueWire(t)| - 1] == IsoFormat(t);
    IsoFormatRoundTrip(t);
  }

  /** A scheduled due date (23:00 sharp) goes on the wire as
      `YYYY-MM-DDT23:00:00Z`. */
  lemma ScheduledDueWire(t: DateTime)
    requires ValidDateTime(t) && t.hour == 23 && t.minute == 0 && t.second == 0 && t.microsecond == 0
    ensures DueWire(t) == DateText(t.date) + "T23:00:00Z"
  {
    assert Padded(2, 1) == [DigitChar(2)] && Padded(23, 2) == Padded(2, 1) + [DigitChar(3)];
    assert Padded(0, 1) == [DigitChar(0)] && Padded(0, 2) == Padded(0, 1) + [DigitChar(0)];
    assert Padded(23, 2) == "23" && Padded(0, 2) == "00";
    assert IsoFormat(t) == DateText(t.date) + "T" + "23" + ":" + "00" + ":" + "00";
  }

  /** The request for one title, note and due date. */
  function Insert(tasklistId: string, text: string, note: string, t: DateTime): InsertRequest
    requires ValidDateTime(t)
  {
    InsertRequest(tasklistId, TaskBody(text, note, DueWire(t)))
  }

  /** `create_todo`: a due value that is not a datetime raises ValueError
      before anything is sent; otherwise the request is sent, and an error
      from the service is re-raised. */
  function CreateTodo(tasklistId: string, text: string, due: DueValue, note: string,
                      outcome: Outcome<ApiError>): (r: Call<InsertRequest, TodoError>)
    requires due.DateTimeValue? ==> ValidDateTime(due.t)
    ensures due.NotDateTime? ==> r == Call(None, Some(ValueError))
    ensures due.DateTimeValue? ==> r.sent == Some(Insert(tasklistId, text, note, due.t))
    ensures due.DateTimeValue? ==>
      r.raised == (if outcome.Raised? then Some(Api(outcome.error)) else None)
  {
    if due.NotDateTime? then Call(None, Some(ValueError))
    else
      Call(Some(Insert(tasklistId, text, note, due.t)),
           if outcome.Raised? then Some(Api(outcome.error)) else None)
  }

  /** The request `create_todo` sends carries the title, the note and the
      list unchanged, and a due string that reads back as the very datetime
      given: no timezone conversion happens. For a scheduled due date the
      string is `YYYY-MM-DDT23:00:00Z`. */
  lemma CreateTodoPayload(tasklistId: string, text: string, t: DateTime, note: string, outcome: Outcome<ApiError>)
    requires ValidDateTime(t)
    ensures var r := CreateTodo(tasklistId, text, DateTimeValue(t), note, outcome);
      && r.sent.Some?
      && r.sent.value.tasklist == tasklistId
      && r.sent.value.body.title == text && r.sent.value.body.notes == note
      && DecodeDueWire(r.sent.value.body.due) == Some(t)
      && (t.hour == 23 && t.minute == 0 && t.second == 0 && t.microsecond == 0 ==>
            r.sent.value.body.due == DateText(t.date) + "T23:00:00Z")
  {
    DueWireRoundTrip(t);
    if t.hour == 23 && t.minute == 0 && t.second == 0 && t.microsecond == 0 {
      ScheduledDueWire(t);
    }
  }

  /** The selection prompt of `main`: reads numbers until one is in
      1 .. |lists|, and picks the list it numbers. */
  method SelectTaskList(lists: seq<TaskList>, lines: seq<Line>) returns (r: Prompted<TaskList>, consumed: nat)
    ensures var a := AskNumber(lines, 1, |lists|);
      && consumed == a.consumed
      && r == (if a.answer.Answer? then Answer(lists[a.answer.value - 1]) else Exhausted)
  {
    var i := 0;
    while i < |lines|
      invariant 0 <= i <= |lines|
      invariant forall j :: 0 <= j < i ==> !Accepts(lines[j].number, 1, |lists|)
    {
      var n := lines[i].number;
      if n.Int? {
        var selection := n.value - 1;
        if 0 <= selection < |lists| {
          return Answer(lists[selection]), i + 1;
        }
      }
      i := i + 1;
    }
    return Exhausted, |lines|;
  }

  /** One title with its note. */
  datatype Entry = Entry(title: string, note: string)

  /** What the title loop reads: title and note pairs, up to a `done` title
      (the flag is true) or the end of input (false). A title with no note
      after it is dropped. */
  function ReadTitles(texts: seq<string>): (r: (seq<Entry>, bool))
    ensures 2 * |r.0| <= |texts|
    ensures forall i :: 0 <= i < |r.0| ==>
      r.0[i] == Entry(texts[2 * i], texts[2 * i + 1]) && !IsDone(texts[2 * i])
    ensures r.1 <==> 2 * |r.0| < |texts| && IsDone(texts[2 * |r.0|])
    ensures !r.1 ==> |texts| <= 2 * |r.0| + 1
    decreases |texts|
  {
    if texts == [] then ([], false)
    else if IsDone(texts[0]) then ([], true)
    else if |texts| == 1 then ([], false)
    else
      var rest := ReadTitles(texts[2..]);
      var r := ([Entry(texts[0], texts[1])] + rest.0, rest.1);
      assert forall i :: 1 <= i < |r.0| ==> r.0[i] == rest.0[i - 1] && texts[2 * i] == texts[2..][2 * (i - 1)];
      r
  }

  /** The requests for one title: one per due date, in order. */
  function Batch(tasklistId: string, dues: seq<DateTime>, e: Entry): (r: seq<InsertRequest>)
    requires ValidTimes(dues)
    ensures |r| == |dues|
  {
    seq(|dues|, k requires 0 <= k < |dues| => Insert(tasklistId, e.title, e.note, dues[k]))
  }

  /** The requests the title loop plans: one batch per title, in order. */
  function Planned(tasklistId: string, dues: seq<DateTime>, entries: seq<Entry>): seq<InsertRequest>
    requires ValidTimes(dues)
  {
    Concat(seq(|entries|, i requires 0 <= i < |entries| => Batch(tasklistId, dues, entries[i])))
  }

  /** One request per title and due date. */
  lemma PlannedLength(tasklistId: string, dues: seq<DateTime>, entries: seq<Entry>)
    requires ValidTimes(dues)
    ensures |Planned(tasklistId, dues, entries)| == |entries| * |dues|
  {
    ConcatLength(seq(|entries|, i requires 0 <= i < |entries| => Batch(tasklistId, dues, entries[i])), |dues|);
  }

  lemma PlannedAppend(tasklistId: string, dues: seq<DateTime>, a: seq<Entry>, b: seq<Entry>)
    requires ValidTimes(dues)
    ensures Planned(tasklistId, dues, a + b) == Planned(tasklistId, dues, a) + Planned(tasklistId, dues, b)
  {
    var f := (i: int, es: seq<Entry>) requires 0 <= i < |es| => Batch(tasklistId, dues, es[i]);
    var xa := seq(|a|, i requires 0 <= i < |a| => Batch(tasklistId, dues, a[i]));
    var xb := seq(|b|, i requires 0 <= i < |b| => Batch(tasklistId, dues, b[i]));
    var ab := a + b;
    var xab := seq(|ab|, i requires 0 <= i < |ab| => Batch(tasklistId, dues, ab[i]));
    assert xab == xa + xb;
    ConcatAppend(xa, xb);
  }

  /** How `main` ends: `done` was typed, input ran out (EOFError), an
      insert raised, or listing the task lists raised. Every exception is
      caught and logged by `main`. */
  datatype Ending = Finished | InputEnded | CallFailed(error: ApiError) | ListingFailed(failure: ListError)

  /** The title loop as a whole: the planned requests, cut after the first
      insert that raises, since `create_todo` re-raises and nothing inside
      `main` resumes the loop. */
  function TitleSession(tasklistId: string, dues: seq<DateTime>, texts: seq<string>,
                        respond: nat -> Outcome<ApiError>): (seq<InsertRequest>, Ending)
    requires ValidTimes(dues)
  {
    var read := ReadTitles(texts);
    var planned := Planned(tasklistId, dues, read.0);
    var sent := UntilFailure(planned, respond);
    (sent,
     if !AllSucceeded(respond, |planned|) then CallFailed(respond(|sent| - 1).error)
     else if read.1 then Finished else InputEnded)
  }

  /** What the title loop sends: request i * |dues| + k is title i's task for
      due date k; every title gets the same due dates; the requests sent are
      a prefix of that plan, the whole plan when no insert raises, and they
      stop at the first insert that raises. */
  lemma TitleSessionCalls(tasklistId: string, dues: seq<DateTime>, texts: seq<string>,
                          respond: nat -> Outcome<ApiError>, i: nat, k: nat)
    requires ValidTimes(dues)
    requires i < |ReadTitles(texts).0| && k < |dues|
    ensures var entries := ReadTitles(texts).0;
      var planned := Planned(tasklistId, dues, entries);
      && |planned| == |entries| * |dues|
      && i * |dues| + k < |planned|
      && planned[i * |dues| + k] == Insert(tasklistId, texts[2 * i], texts[2 * i + 1], dues[k])
  {
    var entries := ReadTitles(texts).0;
    var xss := seq(|entries|, j requires 0 <= j < |entries| => Batch(tasklistId, dues, entries[j]));
    ConcatAt(xss, |dues|, i, k);
  }

  lemma PlannedSnoc(tasklistId: string, dues: seq<DateTime>, entries: seq<Entry>, e: Entry)
    requires ValidTimes(dues)
    ensures Planned(tasklistId, dues, entries + [e]) == Planned(tasklistId, dues, entries) + Batch(tasklistId, dues, e)
  {
    PlannedAppend(tasklistId, dues, entries, [e]);
    var xs := seq(1, i requires 0 <= i < 1 => Batch(tasklistId, dues, [e][i]));
    assert xs == [Batch(tasklistId, dues, e)] && xs[..0] == [];
    assert Concat(xs) == Batch(tasklistId, dues, e);
  }

  /** The title loop has read `entries` and stands at line pos. */
  ghost predicate ReadSoFar(texts: seq<string>, pos: nat, entries: seq<Entry>)
    requires pos <= |texts|
  {
    && ReadTitles(texts).0 == entries + ReadTitles(texts[pos..]).0
    && ReadTitles(texts).1 == ReadTitles(texts[pos..]).1
  }

  lemma ReadStep(texts: seq<string>, pos: nat, entries: seq<Entry>)
    requires pos + 1 < |texts| && !IsDone(texts[pos]) && ReadSoFar(texts, pos, entries)
    ensures ReadSoFar(texts, pos + 2, entries + [Entry(texts[pos], texts[pos + 1])])
  {
    assert texts[pos..][2..] == texts[pos + 2..];
  }

  /** The loop stops reading without a failed insert: it has sent the plan. */
  lemma StopReading(tasklistId: string, dues: seq<DateTime>, texts: seq<string>,
                    respond: nat -> Outcome<ApiError>, pos: nat, entries: seq<Entry>)
    requires ValidTimes(dues) && pos <= |texts| && ReadSoFar(texts, pos, entries)
    requires pos == |texts| || IsDone(texts[pos]) || pos + 1 == |texts|
    requires AllSucceeded(respond, |Planned(tasklistId, dues, entries)|)
    ensures TitleSession(tasklistId, dues, texts, respond)
         == (Planned(tasklistId, dues, entries), if pos < |texts| && IsDone(texts[pos]) then Finished else InputEnded)
  {
    assert pos < |texts| ==> texts[pos..][0] == texts[pos];
    assert ReadTitles(texts[pos..]).0 == [];
    assert entries + [] == entries;
  }

  /** An insert raised: the loop has sent exactly what the session says. */
  lemma StopAtFailure(tasklistId: string, dues: seq<DateTime>, texts: seq<string>,
                      respond: nat -> Outcome<ApiError>, pos: nat, entries: seq<Entry>, sent: seq<InsertRequest>)
    requires ValidTimes(dues) && pos <= |texts| && ReadSoFar(texts, pos, entries)
    requires 1 <= |sent| <= |Planned(tasklistId, dues, entries)|
    requires sent == Planned(tasklistId, dues, entries)[..|sent|]
    requires AllSucceeded(respond, |sent| - 1) && respond(|sent| - 1).Raised?
    ensures TitleSession(tasklistId, dues, texts, respond) == (sent, CallFailed(respond(|sent| - 1).error))
  {
    var rest := ReadTitles(texts[pos..]).0;
    PlannedAppend(tasklistId, dues, entries, rest);
    FailureStops(Planned(tasklistId, dues, ReadTitles(texts).0), respond, sent);
  }

  /** The inner `for due_date in due_dates` loop for one title, its calls
      numbered from `start`: it stops at the first insert that raises. */
  method IssueBatch(tasklistId: string, dues: seq<DateTime>, e: Entry,
                    respond: nat -> Outcome<ApiError>, start: nat)
    returns (batch: seq<InsertRequest>, failed: Option<ApiError>)
    requires ValidTimes(dues)
    ensures |batch| <= |dues| && batch == Batch(tasklistId, dues, e)[..|batch|]
    ensures failed.None? ==> |batch| == |dues| && SucceededFrom(respond, start, start + |dues|)
    ensures failed.Some? ==>
      && |batch| >= 1
      && SucceededFrom(respond, start, start + |batch| - 1)
      && respond(start + |batch| - 1) == Raised(failed.value)
  {
    batch := [];
    var k := 0;
    while k < |dues|
      invariant 0 <= k <= |dues| && |batch| == k
      invariant batch == Batch(tasklistId, dues, e)[..k]
      invariant SucceededFrom(respond, start, start + k)
    {
      var call := CreateTodo(tasklistId, e.title, DateTimeValue(dues[k]), e.note, respond(start + k));
      TakeOneMore(Batch(tasklistId, dues, e), k);
      batch := batch + [call.sent.value];
      if call.raised.Some? {
        return batch, Some(call.raised.value.error);
      }
      k := k + 1;
    }
    return batch, None;
  }

  /** The title loop of `main` (lines 199-206), with the inserts issued in
      order; call number j gets the outcome respond(j). */
  method IssueTitles(tasklistId: string, dues: seq<DateTime>, texts: seq<string>,
                     respond: nat -> Outcome<ApiError>) returns (sent: seq<InsertRequest>, ending: Ending)
    requires ValidTimes(dues)
    ensures (sent, ending) == TitleSession(tasklistId, dues, texts, respond)
  {
    sent := [];
    var pos := 0;
    ghost var entries: seq<Entry> := [];
    assert texts[0..] == texts && entries + ReadTitles(texts).0 == ReadTitles(texts).0;
    while true
      invariant pos <= |texts| && ReadSoFar(texts, pos, entries)
      invariant sent == Planned(tasklistId, dues, entries)
      invariant AllSucceeded(respond, |sent|)
      decreases |texts| - pos
    {
      if pos == |texts| {
        StopReading(tasklistId, dues, texts, respond, pos, entries);
        return sent, InputEnded;
      }
      var text := texts[pos];
      if IsDone(text) {
        StopReading(tasklistId, dues, texts, respond, pos, entries);
        return sent, Finished;
      }
      if pos + 1 == |texts| {
        StopReading(tasklistId, dues, texts, respond, pos, entries);
        return sent, InputEnded;
      }
      var note := texts[pos + 1];
      var e := Entry(text, note);
      ReadStep(texts, pos, entries);
      PlannedSnoc(tasklistId, dues, entries, e);
      var batch, failed := IssueBatch(tasklistId, dues, e, respond, |sent|);
      ghost var before := sent;
      sent := sent + batch;
      entries := entries + [e];
      pos := pos + 2;
      SentPrefix(Planned(tasklistId, dues, entries[..|entries| - 1]), Batch(tasklistId, dues, e), batch);
      assert entries[..|entries| - 1] + [e] == entries;
      if failed.Some? {
        SucceededJoin(respond, |before|, |sent| - 1);
        StopAtFailure(tasklistId, dues, texts, respond, pos, entries, sent);
        return sent, CallFailed(failed.value);
      }
      SucceededJoin(respond, |before|, |sent|);
    }
  }

  /** `main` after the service is built: list the task lists, select one,
      schedule the cadence from `now` (`datetime.now()` at line 196), then run
      the title loop. Prompts read the same console: the selection reads
      numbers, the title loop reads the lines after it. */
  function Session(fetched: Result<Option<seq<Resource>>, ApiError>, lines: seq<Line>, now: DateTime,
                   respond: nat -> Outcome<ApiError>): (seq<InsertRequest>, Ending)
    requires CadenceFits(now)
  {
    match ListTaskLists(fetched)
    case Err(e) => ([], ListingFailed(e))
    case Ok(lists) =>
      var a := AskNumber(lines, 1, |lists|);
      if a.answer.Exhausted? then ([], InputEnded)
      else
        CadenceFitsExactly(now);
        TitleSession(lists[a.answer.value - 1].id, DueDates(now, Cadence), Texts(lines[a.consumed..]), respond)
  }

  method Run(fetched: Result<Option<seq<Resource>>, ApiError>, lines: seq<Line>, now: DateTime,
             respond: nat -> Outcome<ApiError>) returns (sent: seq<InsertRequest>, ending: Ending)
    requires CadenceFits(now)
    ensures (sent, ending) == Session(fetched, lines, now, respond)
  {
    var listing := ListTaskLists(fetched);
    if listing.Err? {
      return [], ListingFailed(listing.error);
    }
    var lists := listing.value;
    var selected, consumed := SelectTaskList(lists, lines);
    if selected.Exhausted? {
      return [], InputEnded;
    }
    CadenceFitsExactly(now);
    var dueDates := DueDates(now, Cadence);
    sent, ending := IssueTitles(selected.value.id, dueDates, Texts(lines[consumed..]), respond);
  }

  /** With no task lists, no selection is ever accepted: the session sends
      nothing and ends when input runs out. */
  lemma NoListsNoCalls(lines: seq<Line>, now: DateTime, respond: nat -> Outcome<ApiError>)
    requires CadenceFits(now)
    ensures Session(Ok(None), lines, now, respond) == ([], InputEnded)
    ensures Session(Ok(Some([])), lines, now, respond) == ([], InputEnded)
  {
    AskNumberInRange(lines, 1, 0);
  }
}
