/** Automatic continuation of a turn that the model's servers cut short: at most three
    attempts between two resets, over restarts and repeated errors. */
module Retries {
  import opened Basics

  type Window = string

  const MAX_ATTEMPTS: nat := 3   // one for each configured delay

  datatype RetryState = Scheduled | WaitingResult

  datatype Row = Row(attempt: nat, state: RetryState)

  datatype Phase = Sleeping | Handing

  datatype Task = Task(window: Window, attempt: nat, phase: Phase)

  /** `rows` is durable; `attempts` and `registered` are the two dictionaries of the
      process, `tasks` its live retry tasks. `handed` is the history of the attempts
      given to the dispatcher for each window since its last reset. */
  datatype State = State(
    rows: map<Window, Row>,
    attempts: map<Window, nat>,
    registered: map<Window, nat>,
    tasks: map<nat, Task>,
    nextTask: nat,
    handed: map<Window, seq<nat>>)

  function AttemptOf(attempts: map<Window, nat>, window: Window): nat {
    if window in attempts then attempts[window] else 0
  }

  function RowAttempt(rows: map<Window, Row>, window: Window): nat {
    if window in rows then rows[window].attempt else 0
  }

  function Max(a: nat, b: nat): nat {
    if a < b then b else a
  }

  function Handed(handed: map<Window, seq<nat>>, window: Window): seq<nat> {
    if window in handed then handed[window] else []
  }

  predicate IsScheduled(rows: map<Window, Row>, window: Window, attempt: nat) {
    window in rows && rows[window] == Row(attempt, Scheduled)
  }

  function Spawned(s: State, window: Window, attempt: nat): State {
    s.(attempts := s.attempts[window := attempt],
       registered := s.registered[window := s.nextTask],
       tasks := s.tasks[s.nextTask := Task(window, attempt, Sleeping)],
       nextTask := s.nextTask + 1)
  }

  /** A transient error: nothing new while a retry is under way; a scheduled row is
      resumed; otherwise the next attempt is recorded first and then started. */
  function Faulted(s: State, window: Window, saved: bool): State {
    if window in s.registered && s.registered[window] in s.tasks then s
    else if window in s.rows && s.rows[window].state.Scheduled? then Spawned(s, window, s.rows[window].attempt)
    else
      var attempt := Max(AttemptOf(s.attempts, window), RowAttempt(s.rows, window)) + 1;
      if attempt > MAX_ATTEMPTS then s
      else if saved then Spawned(s.(rows := s.rows[window := Row(attempt, Scheduled)]), window, attempt)
      else s.(attempts := s.attempts - {window})
  }

  function Ended(s: State, task: nat): State
    requires task in s.tasks
  {
    var window := s.tasks[task].window;
    s.(tasks := s.tasks - {task},
       registered := if window in s.registered && s.registered[window] == task
                     then s.registered - {window} else s.registered)
  }

  /** How the store answers the due task; a raised write may have been applied. */
  datatype Answer = Answered | Raised(applied: bool)

  /** A task's delay is over: only the task that turns the scheduled row of its attempt
      into a waiting one hands the continuation on. */
  function Due(s: State, task: nat, answer: Answer): State
    requires task in s.tasks
  {
    var t := s.tasks[task];
    var waiting := s.rows[t.window := Row(t.attempt, WaitingResult)];
    if !IsScheduled(s.rows, t.window, t.attempt) then Ended(s, task)
    else
      match answer
      case Raised(applied) => Ended(if applied then s.(rows := waiting) else s, task)
      case Answered =>
        s.(rows := waiting,
           tasks := s.tasks[task := t.(phase := Handing)],
           handed := s.handed[t.window := Handed(s.handed, t.window) + [t.attempt]])
  }

  /** Real input or a finished answer: the retry is cancelled and its row removed. */
  function Reset(s: State, window: Window, deleted: bool): State {
    s.(tasks := if window in s.registered then s.tasks - {s.registered[window]} else s.tasks,
       registered := s.registered - {window},
       attempts := s.attempts - {window},
       rows := if deleted then s.rows - {window} else s.rows,
       handed := s.handed[window := []])
  }

  /** One more task sleeps, for this attempt of the window, and is the window's own; every
      other task and window is as it was. */
  ghost predicate Begins(s: State, n: State, window: Window, attempt: nat) {
    && n.tasks == s.tasks[s.nextTask := Task(window, attempt, Sleeping)] && n.nextTask == s.nextTask + 1
    && n.registered == s.registered[window := s.nextTask] && n.attempts == s.attempts[window := attempt]
    && n.handed == s.handed
  }

  /** The task is over, and the window's own no longer; everything else is as it was. */
  ghost predicate Ends(s: State, n: State, task: nat)
    requires task in s.tasks
  {
    var window := s.tasks[task].window;
    && n.tasks == s.tasks - {task} && n.attempts == s.attempts && n.nextTask == s.nextTask && n.handed == s.handed
    && forall w :: && (w in n.registered <==> w in s.registered && !(w == window && s.registered[w] == task))
                   && (w in n.registered ==> n.registered[w] == s.registered[w])
  }

  class TransientRetries {
    var rows: map<Window, Row>
    var attempts: map<Window, nat>
    var registered: map<Window, nat>
    var tasks: map<nat, Task>
    var nextTask: nat
    ghost var handed: map<Window, seq<nat>>

    ghost function Contents(): State
      reads this
    {
      State(rows, attempts, registered, tasks, nextTask, handed)
    }

    constructor ()
      ensures Contents() == State(map[], map[], map[], map[], 0, map[])
    {
      rows, attempts, registered, tasks, nextTask, handed := map[], map[], map[], map[], 0, map[];
    }

    method Schedule(window: Window, saved: bool) returns (attempt: Option<nat>)
      modifies this
      ensures Contents() == Faulted(old(Contents()), window, saved)
      ensures var running := window in old(registered) && old(registered)[window] in old(tasks);
              var last := Max(AttemptOf(old(attempts), window), RowAttempt(old(rows), window));
              if running then Contents() == old(Contents()) && attempt.Some?
              else if window in old(rows) && old(rows)[window].state.Scheduled? then
                && attempt == Some(old(rows)[window].attempt) && rows == old(rows)
                && Begins(old(Contents()), Contents(), window, attempt.value)
              else if last >= MAX_ATTEMPTS then Contents() == old(Contents()) && attempt.None?
              else if saved then
                && attempt == Some(last + 1) && rows == old(rows)[window := Row(last + 1, Scheduled)]
                && Begins(old(Contents()), Contents(), window, last + 1)
              else
                && attempt.None? && rows == old(rows) && tasks == old(tasks) && registered == old(registered)
                && attempts == old(attempts) - {window}
    {
      if window in registered && registered[window] in tasks {
        return Some(if window in attempts then attempts[window] else 1);
      }
      if window in rows && rows[window].state.Scheduled? {
        attempt := Some(rows[window].attempt);
        Start(window, rows[window].attempt);
        return;
      }
      var previous := if window in attempts then attempts[window] else 0;
      if window in rows {
        previous := Max(previous, rows[window].attempt);
      }
      if previous + 1 > MAX_ATTEMPTS {
        return None;
      }
      if !saved {
        attempts := attempts - {window};
        return None;
      }
      rows := rows[window := Row(previous + 1, Scheduled)];
      Start(window, previous + 1);
      attempt := Some(previous + 1);
    }

    method Start(window: Window, attempt: nat)
      modifies this
      ensures Contents() == Spawned(old(Contents()), window, attempt)
      ensures rows == old(rows) && Begins(old(Contents()), Contents(), window, attempt)
    {
      attempts := attempts[window := attempt];
      tasks := tasks[nextTask := Task(window, attempt, Sleeping)];
      registered := registered[window := nextTask];
      nextTask := nextTask + 1;
    }

    method RunDue(task: nat, answer: Answer) returns (hand: bool)
      requires task in tasks
      modifies this
      ensures Contents() == Due(old(Contents()), task, answer)
      ensures var window, attempt := old(tasks)[task].window, old(tasks)[task].attempt;
              var mine := window in old(rows) && old(rows)[window] == Row(attempt, Scheduled);
              && (hand <==> answer.Answered? && mine)
              && (mine && (answer.Answered? || answer.applied) ==>
                    rows == old(rows)[window := Row(attempt, WaitingResult)])
              && (!(mine && (answer.Answered? || answer.applied)) ==> rows == old(rows))
              && (hand ==>
                    && tasks == old(tasks)[task := Task(window, attempt, Handing)] && registered == old(registered)
                    && attempts == old(attempts))
              && (!hand ==> Ends(old(Contents()), Contents(), task))
    {
      var t := tasks[task];
      hand := false;
      if t.window in rows && rows[t.window].attempt == t.attempt && rows[t.window].state.Scheduled? {
        if answer.Answered? || answer.applied {
          rows := rows[t.window := Row(t.attempt, WaitingResult)];
        }
        if answer.Answered? {
          hand := true;
          tasks := tasks[task := t.(phase := Handing)];
          handed := handed[t.window := Handed(handed, t.window) + [t.attempt]];
          return;
        }
      }
      Finish(task);
    }

    method Finish(task: nat)
      requires task in tasks
      modifies this
      ensures Contents() == Ended(old(Contents()), task)
      ensures rows == old(rows) && Ends(old(Contents()), Contents(), task)
    {
      var window := tasks[task].window;
      tasks := tasks - {task};
      if window in registered && registered[window] == task {
        registered := registered - {window};
      }
    }

    method ResetRetry(window: Window, deleted: bool)
      modifies this
      ensures Contents() == Reset(old(Contents()), window, deleted)
      ensures forall w :: w in rows <==> w in old(rows) && !(w == window && deleted)
      ensures forall w :: w in rows ==> rows[w] == old(rows)[w]
      ensures forall w :: w in attempts <==> w in old(attempts) && w != window
      ensures forall w :: w in attempts ==> attempts[w] == old(attempts)[w]
      ensures forall w :: w in registered <==> w in old(registered) && w != window
      ensures forall w :: w in registered ==> registered[w] == old(registered)[w]
      ensures forall t :: t in tasks <==>
                t in old(tasks) && !(window in old(registered) && t == old(registered)[window])
      ensures forall t :: t in tasks ==> tasks[t] == old(tasks)[t]
    {
      if window in registered {
        tasks := tasks - {registered[window]};
      }
      registered := registered - {window};
      attempts := attempts - {window};
      if deleted {
        rows := rows - {window};
      }
      handed := handed[window := []];
    }

    /** Startup, the dictionaries being empty: each listed record is moved to the window
        its topic resolves to now, and its attempt count and delay are taken up again,
        unless a write of the move raises. */
    method RestoreRetries(records: seq<Record>)
      modifies this
      ensures Contents() == Restored(old(Contents()), records)
    {
      for k := 0 to |records|
        invariant Contents() == Restored(old(Contents()), records[..k])
      {
        var record := records[k];
        assert records[..k + 1][..k] == records[..k];
        if record.target != record.window {
          if record.move.NotDeleted? {
            if record.move.applied {
              rows := rows - {record.window};
            }
            continue;
          }
          rows := rows - {record.window};
          if record.move.Moved? || record.move.applied {
            rows := rows[record.target := record.row];
          }
          if record.move.NotSaved? {
            continue;
          }
        }
        attempts := attempts[record.target := record.row.attempt];
        if record.row.state.Scheduled? {
          Start(record.target, record.row.attempt);
        }
      }
      assert records[..|records|] == records;
    }
  }

  /** A move deletes the row and saves it under the new window; either write may raise,
      before or after it was applied. */
  datatype Move = Moved | NotDeleted(applied: bool) | NotSaved(applied: bool)

  /** A listed row with the window that its topic resolves to, or its own. */
  datatype Record = Record(window: Window, row: Row, target: Window, move: Move)

  function MovedRows(rows: map<Window, Row>, r: Record): map<Window, Row> {
    var saved := (rows - {r.window})[r.target := r.row];
    match r.move
    case Moved => saved
    case NotDeleted(applied) => if applied then rows - {r.window} else rows
    case NotSaved(applied) => if applied then saved else rows - {r.window}
  }

  function RestoredOne(s: State, r: Record): State {
    var rows := if r.target != r.window then MovedRows(s.rows, r) else s.rows;
    if r.target != r.window && !r.move.Moved? then s.(rows := rows)
    else
      var known := s.(rows := rows, attempts := s.attempts[r.target := r.row.attempt]);
      if r.row.state.Scheduled? then Spawned(known, r.target, r.row.attempt) else known
  }

  function Restored(s: State, records: seq<Record>): State {
    if records == [] then s
    else RestoredOne(Restored(s, records[..|records| - 1]), records[|records| - 1])
  }

  /** One record of the listing: where its row is afterwards, and whether a retry sleeps for
      it again. */
  lemma RestoredOneIs(s: State, r: Record)
    ensures var n := RestoredOne(s, r);
            && (forall w :: w != r.window && w != r.target ==> SameRow(s.rows, n.rows, w))
            && (r.target == r.window ==> n.rows == s.rows)
            && (r.target != r.window ==>
                  && (r.window in n.rows <==> r.window in s.rows && r.move == NotDeleted(false))
                  && (r.move.Moved? || r.move == NotSaved(true) ==>
                        r.target in n.rows && n.rows[r.target] == r.row)
                  && (r.move.NotDeleted? || r.move == NotSaved(false) ==> SameRow(s.rows, n.rows, r.target)))
            && (if r.target != r.window && !r.move.Moved? then n == s.(rows := n.rows)
                else if r.row.state.Scheduled? then Begins(s, n, r.target, r.row.attempt)
                else n == s.(rows := n.rows, attempts := s.attempts[r.target := r.row.attempt]))
  {
  }

  /** Startup takes up the count of every record that no other record gets in the way of,
      and a retry sleeps for it again if one was scheduled. */
  lemma {:induction false} RestoredIs(s: State, records: seq<Record>, k: nat)
    requires k < |records| && forall t :: t in s.tasks ==> t < s.nextTask
    requires forall j :: 0 <= j < |records| && j != k ==>
               records[j].target != records[k].target && records[j].window != records[k].target
    requires records[k].target == records[k].window || records[k].move.Moved?
    requires records[k].window in s.rows && s.rows[records[k].window] == records[k].row
    ensures var r, n := records[k], Restored(s, records);
            && (forall t :: t in n.tasks ==> t < n.nextTask)
            && r.target in n.rows && n.rows[r.target] == r.row
            && r.target in n.attempts && n.attempts[r.target] == r.row.attempt
            && (r.row.state.Scheduled? ==>
                  && r.target in n.registered && n.registered[r.target] in n.tasks
                  && n.tasks[n.registered[r.target]] == Task(r.target, r.row.attempt, Sleeping))
    decreases |records|
  {
    var init, last := records[..|records| - 1], records[|records| - 1];
    if k < |init| {
      RestoredIs(s, init, k);
      RestoredOneIs(Restored(s, init), last);
      hide RestoredOne, Restored;
      assert Restored(s, records) == RestoredOne(Restored(s, init), last) by { RestoredLast(s, records); }
    } else {
      RestoredElsewhere(s, init, last.target);
      RestoredOneIs(Restored(s, init), last);
    }
  }

  lemma RestoredLast(s: State, records: seq<Record>)
    requires records != []
    ensures Restored(s, records) == RestoredOne(Restored(s, records[..|records| - 1]), records[|records| - 1])
  {
  }

  lemma {:induction false} RestoredElsewhere(s: State, records: seq<Record>, window: Window)
    requires forall t :: t in s.tasks ==> t < s.nextTask
    requires forall j :: 0 <= j < |records| ==> records[j].target != window && records[j].window != window
    ensures forall t :: t in Restored(s, records).tasks ==> t < Restored(s, records).nextTask
    ensures SameRow(s.rows, Restored(s, records).rows, window)
  {
    if records != [] {
      RestoredElsewhere(s, records[..|records| - 1], window);
      RestoredOneIs(Restored(s, records[..|records| - 1]), records[|records| - 1]);
      hide RestoredOne;
    }
  }

  // --- Every run ---

  datatype Event =
    | Fault(window: Window, saved: bool)
    | Wake(task: nat, answer: Answer)
    | End(task: nat)
    | Clear(window: Window, deleted: bool)
    | Restart(records: seq<Record>)

  /** The records are the rows, each once. */
  ghost predicate Lists(rows: map<Window, Row>, records: seq<Record>) {
    && (forall k :: 0 <= k < |records| ==>
          records[k].window in rows && rows[records[k].window] == records[k].row)
    && (forall i, j :: 0 <= i < j < |records| ==> records[i].window != records[j].window)
  }

  ghost predicate Enabled(s: State, e: Event) {
    match e
    case Fault(_, _) => true
    case Wake(task, _) => task in s.tasks && s.tasks[task].phase.Sleeping?
    case End(task) => task in s.tasks
    case Clear(_, _) => true
    case Restart(records) => Lists(s.rows, records)
  }

  function Forgotten(s: State): State {
    s.(attempts := map[], registered := map[], tasks := map[])
  }

  ghost function Step(s: State, e: Event): State
    requires Enabled(s, e)
  {
    match e
    case Fault(window, saved) => Faulted(s, window, saved)
    case Wake(task, answer) => Due(s, task, answer)
    case End(task) => Ended(s, task)
    case Clear(window, deleted) => Reset(s, window, deleted)
    case Restart(records) => Restored(Forgotten(s), records)
  }

  ghost predicate Run(states: seq<State>, events: seq<Event>) {
    && |states| == |events| + 1
    && states[0] == State(map[], map[], map[], map[], 0, map[])
    && forall i :: 0 <= i < |events| ==> Enabled(states[i], events[i]) && states[i + 1] == Step(states[i], events[i])
  }

  /** The restart moves no record to or from `window`. */
  ghost predicate Spares(e: Event, window: Window) {
    e.Restart? ==> forall k :: 0 <= k < |e.records| && e.records[k].window != e.records[k].target ==>
                     e.records[k].window != window && e.records[k].target != window
  }

  ghost predicate RowsOk(rows: map<Window, Row>) {
    forall w :: w in rows ==> 1 <= rows[w].attempt <= MAX_ATTEMPTS
  }

  /** The attempts handed on strictly increase, up to the one on record, and that one is
      on record as waiting once it is handed on. */
  ghost predicate HandedOk(rows: map<Window, Row>, window: Window, h: seq<nat>) {
    && (forall i :: 0 <= i < |h| ==> 1 <= h[i] <= MAX_ATTEMPTS)
    && (forall i, j :: 0 <= i < j < |h| ==> h[i] < h[j])
    && (h != [] ==>
          && window in rows && h[|h| - 1] <= rows[window].attempt
          && (h[|h| - 1] == rows[window].attempt ==> rows[window].state.WaitingResult?))
  }

  ghost predicate SameRow(before: map<Window, Row>, after: map<Window, Row>, window: Window) {
    && (window in before <==> window in after)
    && (window in before ==> before[window] == after[window])
  }

  lemma RestoredOneRows(s: State, r: Record, window: Window)
    requires RowsOk(s.rows) && 1 <= r.row.attempt <= MAX_ATTEMPTS
    ensures RowsOk(RestoredOne(s, r).rows) && RestoredOne(s, r).handed == s.handed
    ensures r.window == r.target || (r.window != window && r.target != window) ==>
              SameRow(s.rows, RestoredOne(s, r).rows, window)
  {
  }

  lemma {:induction false} RestoredRows(s: State, records: seq<Record>, window: Window)
    requires RowsOk(s.rows) && forall k :: 0 <= k < |records| ==> 1 <= records[k].row.attempt <= MAX_ATTEMPTS
    ensures RowsOk(Restored(s, records).rows) && Restored(s, records).handed == s.handed
    ensures Spares(Restart(records), window) ==> SameRow(s.rows, Restored(s, records).rows, window)
  {
    if records != [] {
      var init, last := records[..|records| - 1], records[|records| - 1];
      assert forall k :: 0 <= k < |init| ==> init[k] == records[k];
      RestoredRows(s, init, window);
      hide RestoredOne, RowsOk;
      RestoredOneRows(Restored(s, init), last, window);
      assert Spares(Restart(records), window) ==> Spares(Restart(init), window);
    }
  }

  lemma HandedSame(before: map<Window, Row>, after: map<Window, Row>, window: Window, h: seq<nat>)
    requires HandedOk(before, window, h) && SameRow(before, after, window)
    ensures HandedOk(after, window, h)
  {
  }

  lemma FaultKeeps(s: State, window: Window, saved: bool, w: Window)
    requires RowsOk(s.rows)
    ensures RowsOk(Faulted(s, window, saved).rows) && Faulted(s, window, saved).handed == s.handed
    ensures HandedOk(s.rows, w, Handed(s.handed, w)) ==>
              HandedOk(Faulted(s, window, saved).rows, w, Handed(s.handed, w))
  {
  }

  lemma DueKeeps(s: State, task: nat, answer: Answer, w: Window)
    requires RowsOk(s.rows) && task in s.tasks
    ensures RowsOk(Due(s, task, answer).rows)
    ensures var n := Due(s, task, answer);
            HandedOk(s.rows, w, Handed(s.handed, w)) ==> HandedOk(n.rows, w, Handed(n.handed, w))
  {
    var t := s.tasks[task];
    var h := Handed(s.handed, w);
    hide HandedOk;
    if HandedOk(s.rows, w, h) {
      if t.window != w {
        HandedSame(s.rows, Due(s, task, answer).rows, w, h);
      } else if IsScheduled(s.rows, w, t.attempt) {
        HandedOn(s.rows, w, h);
      }
    }
  }

  /** Handing on the scheduled attempt: everything handed on before is smaller. */
  lemma HandedOn(rows: map<Window, Row>, w: Window, h: seq<nat>)
    requires RowsOk(rows) && w in rows && rows[w].state.Scheduled? && HandedOk(rows, w, h)
    ensures var after := rows[w := Row(rows[w].attempt, WaitingResult)];
            HandedOk(after, w, h) && HandedOk(after, w, h + [rows[w].attempt])
  {
    assert forall i :: 0 <= i < |h| ==> h[i] <= h[|h| - 1] < rows[w].attempt;
  }

  lemma ResetKeeps(s: State, window: Window, deleted: bool, w: Window)
    requires RowsOk(s.rows)
    ensures var n := Reset(s, window, deleted);
            && RowsOk(n.rows)
            && (w == window || HandedOk(s.rows, w, Handed(s.handed, w)) ==> HandedOk(n.rows, w, Handed(n.handed, w)))
  {
  }

  lemma StepKeeps(s: State, e: Event, window: Window)
    requires Enabled(s, e) && RowsOk(s.rows)
    ensures RowsOk(Step(s, e).rows)
    ensures (Spares(e, window) && HandedOk(s.rows, window, Handed(s.handed, window)))
            || (e.Clear? && e.window == window) ==>
              HandedOk(Step(s, e).rows, window, Handed(Step(s, e).handed, window))
  {
    hide HandedOk, Faulted, Due, Reset;
    match e
    case Fault(w, saved) => FaultKeeps(s, w, saved, window);
    case Wake(task, answer) => DueKeeps(s, task, answer, window);
    case End(task) =>
    case Clear(w, deleted) => ResetKeeps(s, w, deleted, window);
    case Restart(records) =>
      RestoredRows(Forgotten(s), records, window);
      hide Restored;
      if Spares(e, window) && HandedOk(s.rows, window, Handed(s.handed, window)) {
        HandedSame(s.rows, Step(s, e).rows, window, Handed(s.handed, window));
      }
  }

  lemma {:induction false} RunRows(states: seq<State>, events: seq<Event>, n: nat)
    requires Run(states, events) && n <= |events|
    ensures RowsOk(states[n].rows)
  {
    if n > 0 {
      RunRows(states, events, n - 1);
      assert Enabled(states[n - 1], events[n - 1]) && states[n - 1 + 1] == Step(states[n - 1], events[n - 1]);
      StepKeeps(states[n - 1], events[n - 1], "");
    }
  }

  /** The window has just been reset, or nothing has happened yet. */
  ghost predicate JustReset(events: seq<Event>, i: nat, window: Window) {
    i == 0 || (i <= |events| && events[i - 1].Clear? && events[i - 1].window == window)
  }

  lemma {:induction false} HandedSince(states: seq<State>, events: seq<Event>, i: nat, j: nat, window: Window)
    requires Run(states, events) && i <= j <= |events| && JustReset(events, i, window)
    requires forall k :: i <= k < j ==> Spares(events[k], window)
    ensures HandedOk(states[j].rows, window, Handed(states[j].handed, window))
    decreases j
  {
    if i < j || 0 < j {
      if i < j {
        HandedSince(states, events, i, j - 1, window);
      }
      RunRows(states, events, j - 1);
      assert Enabled(states[j - 1], events[j - 1]) && states[j - 1 + 1] == Step(states[j - 1], events[j - 1]);
      StepKeeps(states[j - 1], events[j - 1], window);
    }
  }

  /** An error is continued: while fewer than three attempts are on record and none is under
      way, it records the next attempt and starts it, the first one after a reset being
      attempt 1; when the delay is over and the store answers, that attempt is handed on. */
  lemma ErrorIsContinued(s: State, window: Window)
    requires !(window in s.registered && s.registered[window] in s.tasks)
    requires window in s.rows ==> s.rows[window].state.WaitingResult? && s.rows[window].attempt < 3
    requires window in s.attempts ==> s.attempts[window] < 3
    ensures var attempt := Max(AttemptOf(s.attempts, window), RowAttempt(s.rows, window)) + 1;
            var n := Step(s, Fault(window, true));
            && 1 <= attempt <= 3
            && (window !in s.attempts && window !in s.rows ==> attempt == 1)
            && n.rows == s.rows[window := Row(attempt, Scheduled)] && Begins(s, n, window, attempt)
            && Enabled(n, Wake(s.nextTask, Answered))
            && var m := Step(n, Wake(s.nextTask, Answered));
               && Handed(m.handed, window) == Handed(s.handed, window) + [attempt]
               && m.rows == s.rows[window := Row(attempt, WaitingResult)]
               && m.tasks == n.tasks[s.nextTask := Task(window, attempt, Handing)]
  {
  }

  /** Bounded retries: for a window that no restart retargets, at most three
      continuations are handed on between two resets, each attempt number at most once
      and in increasing order. */
  lemma AtMostThreeRetries(states: seq<State>, events: seq<Event>, i: nat, j: nat, window: Window)
    requires Run(states, events) && i <= j <= |events| && JustReset(events, i, window)
    requires forall k :: i <= k < j ==> Spares(events[k], window)
    ensures var h := Handed(states[j].handed, window);
            && |h| <= 3
            && (forall a, b :: 0 <= a < b < |h| ==> h[a] < h[b])
  {
    HandedSince(states, events, i, j, window);
    var h := Handed(states[j].handed, window);
    if h != [] {
      Climbs(h, |h| - 1);
    }
  }

  lemma {:induction false} Climbs(h: seq<nat>, i: nat)
    requires i < |h| && h[0] >= 1 && forall a, b :: 0 <= a < b < |h| ==> h[a] < h[b]
    ensures h[i] >= i + 1
  {
    if i > 0 {
      Climbs(h, i - 1);
    }
  }
}
