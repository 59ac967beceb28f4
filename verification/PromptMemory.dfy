/** What every event does to the queues in memory, and to the confirmation tasks that watch
    over submitted prompts. */
module PromptMemory {
  import opened PromptTable
  import opened PromptLifecycle
  import opened PromptAtMostOnce
  import opened PromptOrder
  import opened PromptOrderRuns
  import opened PromptRestart

  // --- The queue of each target ---

  /** The task works on the deque that the target has now. */
  ghost predicate WorksOn(s: Sys, pid: nat, key: Key)
    requires pid in s.procs
  {
    key in s.queueOf && s.queueOf[key] == s.procs[pid].queue
  }

  /** The outcome of a send takes the head off: an unknown one only if it is the item sent. */
  ghost predicate TakesHead(p: Proc, q: seq<Item>, outcome: Outcome) {
    p.kind != Native && q != [] && (outcome.Raised? ==> q[0] == p.item)
  }

  /** The queue of a target after an event. */
  ghost function QueueAfter(s: Sys, e: Event, key: Key): seq<Item>
    requires Enabled(s, e)
  {
    var q := Queue(s, key);
    match e
    case Interrupt(k, text, room) => if room && k == key then q + [Item(s.table.nextId, text)] else q
    case EnterImmediate(pid, room, busy) =>
      if room && s.procs[pid].key == key then q + [Item(s.table.nextId, s.procs[pid].text)] else q
    case LookImmediate(pid, sight, ok) =>
      if sight.Fail? && WorksOn(s, pid, key) && q != [] && q[0] == s.procs[pid].item then q[1..] else q
    case Settle(pid, outcome, ok) =>
      if WorksOn(s, pid, key) && TakesHead(s.procs[pid], q, outcome) then q[1..] else q
    case DrainTop(pid, expired, ok) => if s.procs[pid].key == key then q[expired..] else q
    case DrainClear(pid, ok) => if WorksOn(s, pid, key) then [] else q
    case DiscardDrop(pid, k, ok) => if k == key then [] else q
    case Restart(failed) => Pending(Restorable(s.table, s.bound, failed), key, s.table.nextId)
    case _ => q
  }

  lemma MappedQueue(s: Sys, k: Key, key: Key)
    requires MapOk(s.queueOf, s.deques, s.serial)
    ensures Queue(Mapped(s, k), key) == Queue(s, key)
    ensures var m := Mapped(s, k); MapOk(m.queueOf, m.deques, m.serial) && k in m.queueOf
  {
  }

  lemma EnqueuedQueue(s: Sys, k: Key, text: string, key: Key)
    requires MapOk(s.queueOf, s.deques, s.serial)
    ensures Queue(Enqueued(s, k, text), key)
              == if k == key then Queue(s, key) + [Item(s.table.nextId, text)] else Queue(s, key)
  {
    MappedQueue(s, k, key);
    var m := Mapped(s, k);
    hide Mapped, Insert;
    assert key in m.queueOf && key != k ==> m.queueOf[key] != m.queueOf[k];
  }

  lemma PoppedQueue(s: Sys, ref: Ref, key: Key)
    ensures Queue(Popped(s, ref), key)
              == if key in s.queueOf && s.queueOf[key] == ref && Queue(s, key) != [] then Queue(s, key)[1..]
                 else Queue(s, key)
  {
  }

  lemma HeadQueue(s: Sys, ref: Ref, item: Item, key: Key)
    ensures Queue(PoppedIfHead(s, ref, item), key)
              == if key in s.queueOf && s.queueOf[key] == ref && Queue(s, key) != [] && Queue(s, key)[0] == item
                 then Queue(s, key)[1..] else Queue(s, key)
  {
    PoppedQueue(s, ref, key);
    hide Popped;
  }

  lemma UnmappedQueue(s: Sys, k: Key, ref: Ref, key: Key)
    requires MapOk(s.queueOf, s.deques, s.serial) && (k in s.queueOf ==> s.queueOf[k] == ref || Queue(s, k) == [])
    ensures Queue(UnmappedIfEmpty(s, k, ref), key) == Queue(s, key)
  {
  }

  lemma EndedQueue(s: Sys, pid: nat, k: Key, key: Key)
    ensures Queue(Ended(s, pid, k.route), key) == Queue(s, key)
    ensures Queue(Exited(s, pid, k), key) == Queue(s, key)
  {
    hide Released, Unregistered;
  }

  ghost predicate QueuesFit(s: Sys) {
    MapOk(s.queueOf, s.deques, s.serial) && AloneOk(s.queueOf, s.deques, s.procs)
  }

  /** A handler takes the head off its deque and drops the deque from the map when it is
      empty, which changes no target's queue. */
  lemma TakenQueue(s: Sys, p: Proc, popped: Sys, key: Key)
    requires MapOk(s.queueOf, s.deques, s.serial) && Alone(s.queueOf, s.deques, p)
    requires popped.queueOf == s.queueOf && popped.serial == s.serial
    requires popped.deques.Keys == s.deques.Keys
    requires forall ref :: ref in s.deques && ref != p.queue ==> popped.deques[ref] == s.deques[ref]
    ensures Queue(UnmappedIfEmpty(popped, p.key, p.queue), key) == Queue(popped, key)
  {
    if p.key in s.queueOf && s.queueOf[p.key] != p.queue {
      assert Line(s.queueOf, s.deques, p.key) == [];
    }
    UnmappedQueue(popped, p.key, p.queue, key);
  }

  lemma PoppedDeque(s: Sys, ref: Ref)
    ensures var a := Popped(s, ref);
            && a.queueOf == s.queueOf && a.serial == s.serial && a.deques.Keys == s.deques.Keys
            && forall r :: r in s.deques && r != ref ==> a.deques[r] == s.deques[r]
  {
    if Deque(s, ref) != [] {
      assert Popped(s, ref).deques.Keys == s.deques.Keys + {ref} == s.deques.Keys;
    }
  }

  lemma PoppedDeques(s: Sys, ref: Ref, item: Item, ids: set<nat>, ok: bool)
    ensures var a, b, c := Popped(s, ref), PoppedIfHead(s, ref, item), Popped(Deleted(s, ids, ok), ref);
            && a.queueOf == b.queueOf == c.queueOf == s.queueOf && a.serial == b.serial == c.serial == s.serial
            && a.deques.Keys == b.deques.Keys == c.deques.Keys == s.deques.Keys
            && forall r :: r in s.deques && r != ref ==> a.deques[r] == b.deques[r] == c.deques[r] == s.deques[r]
    ensures Deleted(s, ids, ok).queueOf == s.queueOf && Deleted(s, ids, ok).deques == s.deques
  {
    hide Popped, Deque, Delete;
    PoppedDeque(s, ref);
    PoppedDeque(Deleted(s, ids, ok), ref);
  }

  lemma DequeIsQueue(s: Sys, pid: nat, key: Key)
    requires pid in s.procs
    ensures WorksOn(s, pid, key) ==> Queue(s, key) == Deque(s, s.procs[pid].queue)
  {
  }

  lemma SettledHandlerQueue(s: Sys, pid: nat, outcome: Outcome, ok: bool, key: Key)
    requires MapOk(s.queueOf, s.deques, s.serial) && pid in s.procs && Alone(s.queueOf, s.deques, s.procs[pid])
    requires s.procs[pid].kind == Immediate
    ensures Queue(Settled(s, pid, outcome, ok), key)
              == if WorksOn(s, pid, key) && TakesHead(s.procs[pid], Queue(s, key), outcome) then Queue(s, key)[1..]
                 else Queue(s, key)
  {
    hide Ended, PoppedIfHead, Popped, UnmappedIfEmpty, Queue, Deque, Deleted, MapOk, Alone;
    var p := s.procs[pid];
    PoppedDeques(s, p.queue, p.item, {p.item.id}, ok);
    DequeIsQueue(s, pid, key);
    var del := Deleted(s, {p.item.id}, ok);
    SameQueue(s, del, key);
    var d := match outcome
      case Raised => PoppedIfHead(s, p.queue, p.item)
      case Success => Popped(s, p.queue)
      case Failure => Popped(del, p.queue);
    HeadQueue(s, p.queue, p.item, key);
    PoppedQueue(s, p.queue, key);
    PoppedQueue(del, p.queue, key);
    TakenQueue(s, p, d, key);
    var u := UnmappedIfEmpty(d, p.key, p.queue);
    EndedQueue(s, pid, p.key, key);
    EndedQueue(u, pid, p.key, key);
    EndedQueue(Confirming(u, p.item.id), pid, p.key, key);
    SameQueue(u, Confirming(u, p.item.id), key);
  }

  lemma SameQueue(a: Sys, b: Sys, key: Key)
    requires a.queueOf == b.queueOf && a.deques == b.deques
    ensures Queue(a, key) == Queue(b, key)
  {
  }

  lemma SettledQueue(s: Sys, pid: nat, outcome: Outcome, ok: bool, key: Key)
    requires QueuesFit(s) && Enabled(s, Settle(pid, outcome, ok)) && s.procs[pid].kind != Discard
    ensures Queue(Settled(s, pid, outcome, ok), key) == QueueAfter(s, Settle(pid, outcome, ok), key)
  {
    var p := s.procs[pid];
    if p.kind == Immediate {
      assert Alone(s.queueOf, s.deques, p);
      SettledHandlerQueue(s, pid, outcome, ok, key);
      hide Settled;
    } else if p.kind == Native {
      EndedQueue(Deleted(s, {p.item.id}, ok), pid, p.key, key);
      EndedQueue(Confirming(s, p.item.id), pid, p.key, key);
      hide Ended;
    } else {
      SettledDrainQueue(s, pid, outcome, ok, key);
      hide Settled;
    }
  }

  lemma SettledDrainQueue(s: Sys, pid: nat, outcome: Outcome, ok: bool, key: Key)
    requires pid in s.procs && s.procs[pid].kind == Drain
    ensures Queue(Settled(s, pid, outcome, ok), key)
              == if WorksOn(s, pid, key) && TakesHead(s.procs[pid], Queue(s, key), outcome) then Queue(s, key)[1..]
                 else Queue(s, key)
  {
    hide Exited, PoppedIfHead, Popped, Queue, Deque, Deleted;
    var p := s.procs[pid];
    var raised := PoppedIfHead(s, p.queue, p.item);
    DequeIsQueue(s, pid, key);
    HeadQueue(s, p.queue, p.item, key);
    PoppedQueue(s, p.queue, key);
    EndedQueue(s, pid, p.key, key);
    EndedQueue(Confirming(raised, p.item.id), pid, p.key, key);
    SameQueue(raised, Confirming(raised, p.item.id), key);
    if Deque(s, p.queue) != [] {
      var ids := {Deque(s, p.queue)[0].id};
      PoppedDeques(s, p.queue, p.item, ids, ok);
      SameQueue(s, Deleted(s, ids, ok), key);
      PoppedQueue(Deleted(s, ids, ok), p.queue, key);
      WithProcQueue(Popped(s, p.queue), pid, p.(phase := After), key);
      WithProcQueue(Popped(Deleted(s, ids, ok), p.queue), pid, p.(phase := Top), key);
    }
    hide WithProc;
  }

  lemma WithProcQueue(s: Sys, pid: nat, p: Proc, key: Key)
    ensures Queue(WithProc(s, pid, p), key) == Queue(s, key)
  {
  }

  lemma LookedQueue(s: Sys, pid: nat, sight: Sight, ok: bool, key: Key)
    requires MapOk(s.queueOf, s.deques, s.serial) && pid in s.procs && Alone(s.queueOf, s.deques, s.procs[pid])
    ensures Queue(LookedImmediate(s, pid, sight, ok), key)
              == if sight.Fail? && WorksOn(s, pid, key) && Queue(s, key) != [] && Queue(s, key)[0] == s.procs[pid].item
                 then Queue(s, key)[1..] else Queue(s, key)
  {
    hide Alone, Ended, Popped, UnmappedIfEmpty, Deque, Queue, MapOk, Deleted, WithProc;
    var p := s.procs[pid];
    var del := Deleted(s, {p.item.id}, ok);
    var d := if Deque(s, p.queue) != [] && Deque(s, p.queue)[0] == p.item then Popped(del, p.queue) else s;
    PoppedDeques(s, p.queue, p.item, {p.item.id}, ok);
    PoppedQueue(del, p.queue, key);
    SameQueue(s, del, key);
    TakenQueue(s, p, d, key);
    EndedQueue(s, pid, p.key, key);
    EndedQueue(UnmappedIfEmpty(d, p.key, p.queue), pid, p.key, key);
    DequeIsQueue(s, pid, key);
    WithProcQueue(s, pid, p.(phase := Ready), key);
  }

  /** The deque of one target is replaced. */
  lemma ReplacedQueue(s: Sys, k: Key, q: seq<Item>, ids: set<nat>, ok: bool, key: Key)
    requires MapOk(s.queueOf, s.deques, s.serial) && k in s.queueOf
    ensures var n := Deleted(s, ids, ok).(deques := s.deques[s.queueOf[k] := q]);
            Queue(n, key) == if k == key then q else Queue(s, key)
  {
    hide Delete;
  }

  lemma TopQueue(s: Sys, pid: nat, expired: nat, ok: bool, key: Key)
    requires MapOk(s.queueOf, s.deques, s.serial) && pid in s.procs && expired <= |Queue(s, s.procs[pid].key)|
    ensures Queue(LoopTop(s, pid, expired, ok), key)
              == if s.procs[pid].key == key then Queue(s, key)[expired..] else Queue(s, key)
  {
    var p := s.procs[pid];
    var q := Queue(s, p.key);
    assert q != [] ==> p.key in s.queueOf;
    hide Queue, Exited, Deleted, MapOk, WithProc;
    EndedQueue(s, pid, p.key, key);
    if q != [] {
      var ids := set x | x in q[..expired] :: x.id;
      var d := Deleted(s, ids, ok).(deques := s.deques[s.queueOf[p.key] := q[expired..]]);
      ReplacedQueue(s, p.key, q[expired..], ids, ok, key);
      EndedQueue(d, pid, p.key, key);
      WithProcQueue(d, pid, p.(phase := Capturing, queue := s.queueOf[p.key]), key);
    }
  }

  lemma ClearedQueue(s: Sys, pid: nat, ok: bool, key: Key)
    requires pid in s.procs && s.procs[pid].kind == Drain
    ensures Queue(Cleared(s, pid, ok), key) == if WorksOn(s, pid, key) then [] else Queue(s, key)
  {
    var p := s.procs[pid];
    var t := if ok then DeleteTarget(s.table, p.key) else s.table;
    var d := if p.queue in s.deques then s.deques[p.queue := []] else s.deques;
    EndedQueue(s.(table := t, deques := d), pid, p.key, key);
    hide Exited;
  }

  lemma DroppedQueue(s: Sys, k: Key, ok: bool, key: Key)
    ensures Queue(Dropped(s, k, ok), key) == if k == key then [] else Queue(s, key)
  {
  }

  lemma EnteredQueue(s: Sys, pid: nat, room: bool, busy: bool, key: Key)
    requires MapOk(s.queueOf, s.deques, s.serial) && pid in s.procs
    ensures Queue(EnteredImmediate(s, pid, room, busy), key)
              == if room && s.procs[pid].key == key then Queue(s, key) + [Item(s.table.nextId, s.procs[pid].text)]
                 else Queue(s, key)
  {
    var p := s.procs[pid];
    MappedQueue(s, p.key, key);
    EnqueuedQueue(s, p.key, p.text, key);
    EndedQueue(Mapped(s, p.key), pid, p.key, key);
    EndedQueue(Enqueued(s, p.key, p.text), pid, p.key, key);
    hide Mapped, Enqueued, Ended;
  }

  lemma NativeQueue(s: Sys, pid: nat, room: bool, busy: bool, key: Key)
    requires pid in s.procs
    ensures Queue(EnteredNative(s, pid, room, busy), key) == Queue(s, key)
  {
    hide Released;
  }

  lemma ComparedQueue(s: Sys, pid: nat, raises: bool, applied: bool, ok: bool, key: Key)
    requires pid in s.procs
    ensures Queue(Compared(s, pid, raises, applied, ok), key) == Queue(s, key)
  {
    hide Ended, Submit, Deleted, WithProc, Queue;
    var p := s.procs[pid];
    var t := if raises && applied then s.(table := Submit(s.table, p.item.id)) else s;
    SameQueue(s, s.(table := Submit(s.table, p.item.id)), key);
    WithProcQueue(s.(table := Submit(s.table, p.item.id)), pid, p.(phase := Won), key);
    WithProcQueue(t, pid, p.(phase := Top), key);
    DeletedQueue(t, {p.item.id}, ok, key);
    EndedQueue(Deleted(t, {p.item.id}, ok), pid, p.key, key);
    EndedQueue(t, pid, p.key, key);
  }

  lemma DeletedQueue(s: Sys, ids: set<nat>, ok: bool, key: Key)
    ensures Queue(Deleted(s, ids, ok), key) == Queue(s, key)
  {
  }

  lemma ResumedQueue(s: Sys, pid: nat, confirmed: bool, ok: bool, key: Key)
    requires pid in s.procs
    ensures Queue(Resumed(s, pid, confirmed, ok), key) == Queue(s, key)
  {
    EndedQueue(Confirming(s, s.procs[pid].item.id), pid, s.procs[pid].key, key);
    hide Exited;
  }

  lemma LookedDrainQueue(s: Sys, pid: nat, sight: Sight, key: Key)
    requires pid in s.procs
    ensures Queue(LookedDrain(s, pid, sight), key) == Queue(s, key)
  {
    EndedQueue(s, pid, s.procs[pid].key, key);
    hide Exited, Deque;
  }

  lemma DiscardedQueue(s: Sys, pid: nat, ok: bool, key: Key)
    requires pid in s.procs
    ensures Queue(Discarded(s, pid, ok), key) == Queue(s, key)
  {
    hide Released;
  }

  lemma OtherQueue(s: Sys, e: Event, key: Key)
    requires Enabled(s, e)
    requires || e.Arrive? || e.EnterDiscard? || e.Defer? || e.Hand? || e.DrainRetry? || e.DrainPass? || e.Wake?
             || e.ConfirmDone? || e.DiscardCancel? || e.DiscardConfirm? || e.Abort? || e.Rebind? || e.DrainDie?
    ensures Queue(Step(s, e), key) == Queue(s, key)
  {
    if e.Defer? || e.Abort? || e.DrainDie? {
      EndedQueue(s, e.pid, s.procs[e.pid].key, key);
      hide Ended, Exited, Queue;
    } else {
      SameQueue(s, Step(s, e), key);
    }
  }

  lemma RestartQueue(s: Sys, failed: set<nat>, key: Key)
    requires WellFormed(s.table)
    ensures Queue(Restarted(s, failed), key) == Pending(Restorable(s.table, s.bound, failed), key, s.table.nextId)
  {
    var q := Restorable(s.table, s.bound, failed);
    assert q.nextId == s.table.nextId && WellFormed(q);
    PendingExact(q, key, q.nextId);
    hide Restorable, Pending;
    var p := Pending(q, key, q.nextId);
    if p != [] {
      assert p[0] in p;
    }
    if id :| IsQueued(q, id) && q.rows[id].key == key {
      assert Item(id, q.rows[id].text) in p;
    }
  }

  lemma HandlerAlone(s: Sys, pid: nat)
    requires QueuesFit(s) && pid in s.procs && InsideImmediate(s.procs[pid])
    ensures Alone(s.queueOf, s.deques, s.procs[pid])
  {
  }

  /** What every event makes of the queue of every target: one more prompt behind it when one
      is accepted, its head taken off by the sender at work on it, expired prompts dropped
      from its front, all of it dropped when the target or the topic is given up, and nothing
      else. */
  lemma StepQueue(s: Sys, e: Event, key: Key)
    requires QueuesFit(s) && Enabled(s, e) && WellFormed(s.table)
    requires e.Settle? ==> s.procs[e.pid].kind != Discard
    ensures Queue(Step(s, e), key) == QueueAfter(s, e, key)
  {
    hide LookedImmediate, Compared, Settled, LoopTop, Dropped, Resumed, Cleared, Queue, Mapped, Enqueued, LookedDrain,
      EnteredImmediate, EnteredNative, MapOk, AloneOk, Ended, Exited, Restarted, Discarded;
    match e
    case Interrupt(k, text, room) =>
      MappedQueue(s, k, key);
      EnqueuedQueue(s, k, text, key);
    case EnterImmediate(pid, room, busy) => EnteredQueue(s, pid, room, busy, key);
    case EnterNative(pid, room, busy) => NativeQueue(s, pid, room, busy, key);
    case LookImmediate(pid, sight, ok) =>
      HandlerAlone(s, pid);
      LookedQueue(s, pid, sight, ok, key);
    case Cas(pid, raises, applied, ok) => ComparedQueue(s, pid, raises, applied, ok, key);
    case Settle(pid, outcome, ok) => SettledQueue(s, pid, outcome, ok, key);
    case DrainTop(pid, expired, ok) => TopQueue(s, pid, expired, ok, key);
    case DrainLook(pid, sight) => LookedDrainQueue(s, pid, sight, key);
    case DrainClear(pid, ok) => ClearedQueue(s, pid, ok, key);
    case DrainAfter(pid, confirmed, ok) => ResumedQueue(s, pid, confirmed, ok, key);
    case DiscardDrop(pid, k, ok) => DroppedQueue(s, k, ok, key);
    case DiscardFinish(pid, ok) => DiscardedQueue(s, pid, ok, key);
    case Restart(failed) => RestartQueue(s, failed, key);
    case _ => OtherQueue(s, e, key);
  }

  /** In the states of every fault-free run, however its restarts retarget, the queues change
      in no other way. */
  lemma QueuesInRuns(states: seq<Sys>, events: seq<Event>, n: nat, limit: nat, key: Key)
    requires FaultFreeRun(states, events) && states[0] == Initial(limit) && n < |events|
    ensures Enabled(states[n], events[n])
    ensures Queue(states[n + 1], key) == QueueAfter(states[n], events[n], key)
  {
    RunPlaced(states, events, n);
    var s, e := states[n], events[n];
    assert Enabled(s, e) && states[n + 1] == Step(s, e);
    PlacedFits(s);
    assert e.Settle? ==> s.procs[e.pid].phase == Won || s.procs[e.pid].phase == Sent;
    hide *;
    StepQueue(s, e, key);
  }

  lemma PlacedFits(s: Sys)
    requires Safe(s) && Order(Erased(s))
    ensures QueuesFit(s) && WellFormed(s.table)
    ensures forall pid :: pid in s.procs && (s.procs[pid].phase == Won || s.procs[pid].phase == Sent) ==>
              s.procs[pid].kind != Discard
  {
    hide RowsOk, WonOk, SentOk, ProcsOk, DequesOk, LocksOk, SharedOk, DrainsOk, SortedOk, DrainHeadOk, MapOk, AloneOk;
  }

  // --- Who watches over a submitted prompt ---

  /** The sender leaves its row to a confirmation task. */
  ghost predicate LeavesBehind(s: Sys, e: Event, id: nat)
    requires Enabled(s, e)
  {
    match e
    case Settle(pid, outcome, ok) =>
      var p := s.procs[pid];
      && p.item.id == id
      && (match p.kind
          case Native => !outcome.Failure?
          case Drain => outcome.Raised?
          case _ => outcome.Raised? || (outcome.Success? && Deque(s, p.queue) != []))
    case DrainAfter(pid, confirmed, ok) => !confirmed && s.procs[pid].item.id == id
    case DrainPass(pid) => s.procs[pid].item.id == id
    case Restart(failed) => IsSubmitted(s.table, id)
    case _ => false
  }

  ghost predicate IsSubmitted(t: Table, id: nat) {
    id in t.rows && t.rows[id].state.Submitted?
  }

  lemma SameWatch(s: Sys, pid: nat, key: Key, p: Proc)
    ensures Ended(s, pid, key.route).confirming == s.confirming && Exited(s, pid, key).confirming == s.confirming
    ensures WithProc(s, pid, p).confirming == s.confirming && Locked(s, pid, key.route).confirming == s.confirming
    ensures Mapped(s, key).confirming == s.confirming
  {
    hide Released, Unregistered, Queue;
  }

  lemma DequeWatch(s: Sys, key: Key, ref: Ref, item: Item, ids: set<nat>, ok: bool)
    ensures Popped(s, ref).confirming == s.confirming && PoppedIfHead(s, ref, item).confirming == s.confirming
    ensures UnmappedIfEmpty(s, key, ref).confirming == s.confirming && Deleted(s, ids, ok).confirming == s.confirming
  {
    hide Deque, Delete;
  }

  lemma SettledWatches(s: Sys, pid: nat, outcome: Outcome, ok: bool)
    requires Enabled(s, Settle(pid, outcome, ok))
    ensures var p := s.procs[pid];
            Settled(s, pid, outcome, ok).confirming
              == if LeavesBehind(s, Settle(pid, outcome, ok), p.item.id) then s.confirming + {p.item.id}
                 else s.confirming
  {
    hide Deque, Ended, Exited, Deleted, UnmappedIfEmpty, Popped, PoppedIfHead, WithProc;
    var p := s.procs[pid];
    if p.kind == Native {
      var del := Deleted(s, {p.item.id}, ok);
      DequeWatch(s, p.key, p.queue, p.item, {p.item.id}, ok);
      SameWatch(del, pid, p.key, p);
      SameWatch(Confirming(s, p.item.id), pid, p.key, p);
    } else if p.kind == Drain {
      DrainWatches(s, pid, outcome, ok);
      hide Settled;
    } else {
      HandlerWatches(s, pid, outcome, ok);
      hide Settled;
    }
  }

  lemma DrainWatches(s: Sys, pid: nat, outcome: Outcome, ok: bool)
    requires pid in s.procs && s.procs[pid].kind == Drain
    ensures var p := s.procs[pid];
            Settled(s, pid, outcome, ok).confirming
              == if outcome.Raised? then s.confirming + {p.item.id} else s.confirming
  {
    hide Deque, Exited, Deleted, Popped, PoppedIfHead, WithProc;
    var p := s.procs[pid];
    SameWatch(s, pid, p.key, p);
    DequeWatch(s, p.key, p.queue, p.item, {}, ok);
    SameWatch(Confirming(PoppedIfHead(s, p.queue, p.item), p.item.id), pid, p.key, p);
    SameWatch(Popped(s, p.queue), pid, p.key, p.(phase := After));
    if Deque(s, p.queue) != [] {
      var ids := {Deque(s, p.queue)[0].id};
      DequeWatch(s, p.key, p.queue, p.item, ids, ok);
      DequeWatch(Deleted(s, ids, ok), p.key, p.queue, p.item, ids, ok);
      SameWatch(Popped(Deleted(s, ids, ok), p.queue), pid, p.key, p.(phase := Top));
    }
  }

  lemma HandlerWatches(s: Sys, pid: nat, outcome: Outcome, ok: bool)
    requires pid in s.procs && s.procs[pid].kind != Drain && s.procs[pid].kind != Native
    ensures var p := s.procs[pid];
            Settled(s, pid, outcome, ok).confirming
              == if outcome.Raised? || (outcome.Success? && Deque(s, p.queue) != []) then s.confirming + {p.item.id}
                 else s.confirming
  {
    hide Deque, Ended, Deleted, UnmappedIfEmpty, Popped, PoppedIfHead;
    var p := s.procs[pid];
    var del := Deleted(s, {p.item.id}, ok);
    var d := match outcome
      case Raised => PoppedIfHead(s, p.queue, p.item)
      case Success => Popped(s, p.queue)
      case Failure => Popped(del, p.queue);
    var u := UnmappedIfEmpty(d, p.key, p.queue);
    DequeWatch(s, p.key, p.queue, p.item, {p.item.id}, ok);
    DequeWatch(del, p.key, p.queue, p.item, {}, ok);
    DequeWatch(d, p.key, p.queue, p.item, {}, ok);
    SameWatch(s, pid, p.key, p);
    SameWatch(u, pid, p.key, p);
    SameWatch(Confirming(u, p.item.id), pid, p.key, p);
  }

  lemma LookedWatch(s: Sys, pid: nat, sight: Sight, ok: bool)
    requires pid in s.procs
    ensures LookedImmediate(s, pid, sight, ok).confirming == s.confirming
  {
    hide Deque, Ended, Deleted, UnmappedIfEmpty, Popped, WithProc;
    var p := s.procs[pid];
    var d := if Deque(s, p.queue) != [] && Deque(s, p.queue)[0] == p.item
             then Popped(Deleted(s, {p.item.id}, ok), p.queue) else s;
    DequeWatch(s, p.key, p.queue, p.item, {p.item.id}, ok);
    DequeWatch(Deleted(s, {p.item.id}, ok), p.key, p.queue, p.item, {}, ok);
    DequeWatch(d, p.key, p.queue, p.item, {}, ok);
    SameWatch(s, pid, p.key, p.(phase := Ready));
    SameWatch(UnmappedIfEmpty(d, p.key, p.queue), pid, p.key, p);
  }

  lemma ComparedWatch(s: Sys, pid: nat, raises: bool, applied: bool, ok: bool)
    requires pid in s.procs
    ensures Compared(s, pid, raises, applied, ok).confirming == s.confirming
  {
    hide Ended, Deleted, WithProc, Submit;
    var p := s.procs[pid];
    var won := s.(table := Submit(s.table, p.item.id));
    assert won.confirming == s.confirming;
    LostWatch(s, pid, p, ok);
    LostWatch(won, pid, p, ok);
  }

  lemma LostWatch(s: Sys, pid: nat, p: Proc, ok: bool)
    ensures WithProc(s, pid, p.(phase := Won)).confirming == s.confirming
    ensures WithProc(s, pid, p.(phase := Top)).confirming == s.confirming
    ensures Ended(s, pid, p.key.route).confirming == s.confirming
    ensures Ended(Deleted(s, {p.item.id}, ok), pid, p.key.route).confirming == s.confirming
  {
    hide Ended, Deleted;
    SameWatch(s, pid, p.key, p);
    DequeWatch(s, p.key, p.queue, p.item, {p.item.id}, ok);
    SameWatch(Deleted(s, {p.item.id}, ok), pid, p.key, p);
  }

  lemma EnteredWatch(s: Sys, pid: nat, room: bool, busy: bool)
    requires pid in s.procs
    ensures EnteredImmediate(s, pid, room, busy).confirming == s.confirming
  {
    var p := s.procs[pid];
    EnqueuedWatch(s, p.key, p.text);
    hide Ended, Mapped, Enqueued, Queue;
    SameWatch(Mapped(s, p.key), pid, p.key, p);
    SameWatch(Enqueued(s, p.key, p.text), pid, p.key, p);
  }

  lemma EnqueuedWatch(s: Sys, key: Key, text: string)
    ensures Mapped(s, key).confirming == s.confirming && Enqueued(s, key, text).confirming == s.confirming
    ensures key in Enqueued(s, key, text).queueOf && Queue(Enqueued(s, key, text), key) != []
  {
    hide Insert;
  }

  lemma NativeWatch(s: Sys, pid: nat, room: bool, busy: bool)
    requires pid in s.procs
    ensures EnteredNative(s, pid, room, busy).confirming == s.confirming
  {
    hide Ended, Insert;
    SameWatch(s, pid, s.procs[pid].key, s.procs[pid]);
  }

  lemma ClearedWatch(s: Sys, pid: nat, ok: bool)
    requires pid in s.procs
    ensures Cleared(s, pid, ok).confirming == s.confirming
  {
    hide Exited, DeleteTarget;
    var p := s.procs[pid];
    var t := if ok then DeleteTarget(s.table, p.key) else s.table;
    var d := if p.queue in s.deques then s.deques[p.queue := []] else s.deques;
    SameWatch(s.(table := t, deques := d), pid, p.key, p);
  }

  lemma ResumedWatch(s: Sys, pid: nat, confirmed: bool, ok: bool)
    requires pid in s.procs
    ensures Resumed(s, pid, confirmed, ok).confirming
              == if confirmed then s.confirming else s.confirming + {s.procs[pid].item.id}
  {
    hide Exited, ConfirmRow;
    SameWatch(Confirming(s, s.procs[pid].item.id), pid, s.procs[pid].key, s.procs[pid]);
  }

  lemma LookedDrainWatch(s: Sys, pid: nat, sight: Sight)
    requires pid in s.procs
    ensures LookedDrain(s, pid, sight).confirming == s.confirming
  {
    hide Exited, Deque;
    SameWatch(s, pid, s.procs[pid].key, s.procs[pid]);
  }

  lemma TopWatch(s: Sys, pid: nat, expired: nat, ok: bool)
    requires pid in s.procs && expired <= |Queue(s, s.procs[pid].key)|
    ensures LoopTop(s, pid, expired, ok).confirming == s.confirming
  {
    var p := s.procs[pid];
    var q := Queue(s, p.key);
    SameWatch(s, pid, p.key, p);
    if q == [] {
      hide Exited, Queue, Deleted;
      return;
    }
    assert p.key in s.queueOf;
    hide Exited, Deleted, Queue;
    var ids := set x | x in q[..expired] :: x.id;
    DequeWatch(s, p.key, p.queue, p.item, ids, ok);
    var d := Deleted(s, ids, ok).(deques := s.deques[s.queueOf[p.key] := q[expired..]]);
    SameWatch(d, pid, p.key, p);
  }

  /** The remaining events change only tasks, bindings and rows. */
  lemma OthersWatch(s: Sys, e: Event)
    requires Enabled(s, e)
    requires || e.Arrive? || e.EnterDiscard? || e.Defer? || e.Hand? || e.DrainRetry? || e.DrainPass? || e.Wake?
             || e.ConfirmDone? || e.DiscardCancel? || e.DiscardConfirm? || e.DiscardDrop? || e.DiscardFinish?
             || e.Abort? || e.Rebind? || e.Interrupt?
    ensures Step(s, e).confirming
              == match e
                 case ConfirmDone(id, confirmed, ok) => s.confirming - {id}
                 case DiscardConfirm(pid, id) => s.confirming - {id}
                 case DrainPass(pid) => s.confirming + {s.procs[pid].item.id}
                 case _ => s.confirming
  {
    hide Queue, Deque, Released, Delete, DeleteRoute, ConfirmRow, RouteHasDrain, HasRoom, Insert;
    if e.Interrupt? {
      EnqueuedWatch(s, e.key, e.text);
      hide Enqueued, Mapped;
    }
  }

  ghost predicate WatchFollows(s: Sys, e: Event, after: set<nat>)
    requires Enabled(s, e)
  {
    forall id :: id in after <==>
      || LeavesBehind(s, e, id)
      || (&& id in s.confirming && !e.Restart? && !(e.ConfirmDone? && e.id == id)
          && !(e.DiscardConfirm? && e.id == id))
  }

  /** Which rows have a confirmation task: those left to one by their sender, because the
      outcome is unknown or not in the transcript yet, until the task ends or the user
      throws the queue away; after a restart all that were submitted. */
  lemma StepWatches(s: Sys, e: Event)
    requires Enabled(s, e)
    ensures WatchFollows(s, e, Step(s, e).confirming)
  {
    hide WatchFollows, Queue, Deque, Settled, LookedImmediate, Compared, EnteredImmediate, EnteredNative, LoopTop,
      LookedDrain, Cleared, Resumed, Restarted, Exited, LeavesBehind;
    match e
    case Settle(pid, outcome, ok) =>
      SettledWatches(s, pid, outcome, ok);
      SettleFollows(s, pid, outcome, ok);
    case Restart(failed) => RestartFollows(s, failed);
    case LookImmediate(pid, sight, ok) =>
      LookedWatch(s, pid, sight, ok);
      NothingFollows(s, e);
    case Cas(pid, raises, applied, ok) =>
      ComparedWatch(s, pid, raises, applied, ok);
      NothingFollows(s, e);
    case EnterImmediate(pid, room, busy) =>
      EnteredWatch(s, pid, room, busy);
      NothingFollows(s, e);
    case EnterNative(pid, room, busy) =>
      NativeWatch(s, pid, room, busy);
      NothingFollows(s, e);
    case DrainTop(pid, expired, ok) =>
      TopWatch(s, pid, expired, ok);
      NothingFollows(s, e);
    case DrainLook(pid, sight) =>
      LookedDrainWatch(s, pid, sight);
      NothingFollows(s, e);
    case DrainClear(pid, ok) =>
      ClearedWatch(s, pid, ok);
      NothingFollows(s, e);
    case DrainDie(pid) =>
      SameWatch(s, pid, s.procs[pid].key, s.procs[pid]);
      NothingFollows(s, e);
    case DrainAfter(pid, confirmed, ok) =>
      ResumedWatch(s, pid, confirmed, ok);
      AfterFollows(s, pid, confirmed, ok);
    case _ => OtherFollows(s, e);
  }

  lemma SettleFollows(s: Sys, pid: nat, outcome: Outcome, ok: bool)
    requires var e := Settle(pid, outcome, ok);
             && Enabled(s, e)
             && Settled(s, pid, outcome, ok).confirming
                  == if LeavesBehind(s, e, s.procs[pid].item.id) then s.confirming + {s.procs[pid].item.id}
                     else s.confirming
    ensures WatchFollows(s, Settle(pid, outcome, ok), Settled(s, pid, outcome, ok).confirming)
  {
    hide Settled, Deque;
  }

  lemma RestartFollows(s: Sys, failed: set<nat>)
    ensures WatchFollows(s, Restart(failed), Restarted(s, failed).confirming)
  {
    hide Pending, Restorable;
    assert forall i :: IsSubmitted(RetargetMoved(s.table, s.bound, failed), i) <==> IsSubmitted(s.table, i);
  }

  lemma NothingFollows(s: Sys, e: Event)
    requires Enabled(s, e)
    requires || e.LookImmediate? || e.Cas? || e.EnterImmediate? || e.EnterNative? || e.DrainTop? || e.DrainLook?
             || e.DrainClear? || e.DrainDie?
    ensures WatchFollows(s, e, s.confirming)
  {
  }

  lemma AfterFollows(s: Sys, pid: nat, confirmed: bool, ok: bool)
    requires Enabled(s, DrainAfter(pid, confirmed, ok))
    ensures WatchFollows(s, DrainAfter(pid, confirmed, ok),
                         if confirmed then s.confirming else s.confirming + {s.procs[pid].item.id})
  {
  }

  lemma OtherFollows(s: Sys, e: Event)
    requires Enabled(s, e)
    requires || e.Arrive? || e.EnterDiscard? || e.Defer? || e.Hand? || e.DrainRetry? || e.DrainPass? || e.Wake?
             || e.ConfirmDone? || e.DiscardCancel? || e.DiscardConfirm? || e.DiscardDrop? || e.DiscardFinish?
             || e.Abort? || e.Rebind? || e.Interrupt?
    ensures WatchFollows(s, e, Step(s, e).confirming)
  {
    OthersWatch(s, e);
    hide Step, Enabled;
  }
}
