/** The issue bridge: each issue is handed to an agent's window at most once, with a
    reservation on disk written ahead of the send and a commit after it.

    `Step` is one piece of a bridge process between two external effects; class `Bridge`
    is the process itself, its methods proved to do exactly such steps. */
module Bridge {
  import opened Basics

  type Name = string          // a target, or the orchestrator

  type Fingerprint = string

  datatype Record = Record(last: Option<Fingerprint>, pending: Option<Fingerprint>)

  type Book = map<Name, Record>

  function Get(b: Book, name: Name): Record {
    if name in b then b[name] else Record(None, None)
  }

  ghost predicate Pending(b: Book, name: Name) {
    name in b && b[name].pending.Some?
  }

  /** The check before any pass: no record of the whole file may be unresolved. */
  ghost predicate Settled(b: Book) {
    forall name :: name in b ==> b[name].pending.None?
  }

  /** Exactly one reservation is open. */
  ghost predicate OnlyPending(b: Book, name: Name, fingerprint: Fingerprint) {
    && Pending(b, name) && b[name].pending == Some(fingerprint)
    && forall other :: other != name ==> !Pending(b, other)
  }

  function Reserve(b: Book, name: Name, fingerprint: Fingerprint): Book {
    b[name := Get(b, name).(pending := Some(fingerprint))]
  }

  function Cancel(b: Book, name: Name): Book {
    b[name := Get(b, name).(pending := None)]
  }

  function Commit(b: Book, name: Name, fingerprint: Fingerprint): Book {
    b[name := Record(Some(fingerprint), None)]
  }

  datatype Send = Send(name: Name, fingerprint: Fingerprint, forced: bool)

  /** A save raises before or after the new file has replaced the old one, or succeeds. */
  datatype Saving = Saved | RaisedBefore | RaisedAfter

  /** The window is missing; the send breaks before the text is pasted; it breaks later,
      so that nobody knows; it succeeds. */
  datatype Dispatch = NotFound | Early | Lost | Done

  datatype Phase =
    | Passing
    | Reserved(name: Name, fingerprint: Fingerprint)
    | Sending(name: Name, fingerprint: Fingerprint)
    | Raising   // an exception is on its way out of the pass

  datatype Proc = Proc(memory: Book, watch: bool, force: bool, phase: Phase)

  /** At most one process has the state lock. */
  datatype World = World(disk: Book, proc: Option<Proc>, sends: seq<Send>)

  /** `FetchFails` is an exception while a candidate is looked up, `Handle` what becomes of
      an exception, `EndPass` the save after a pass. */
  datatype Event =
    | Start(watch: bool, force: bool)
    | Consider(name: Name, fingerprint: Fingerprint, dryRun: bool, saving: Saving)
    | FetchFails
    | Missing(saving: Saving)
    | Break
    | Paste
    | Finish(saving: Saving)
    | Handle(retryable: bool)
    | EndPass(saving: Saving)
    | Crash

  function SaveTo(disk: Book, memory: Book, saving: Saving): Book {
    if saving.RaisedBefore? then disk else memory
  }

  /** The process saves its memory and goes on with `next`, unless the save raises. */
  function SaveThen(w: World, p: Proc, saving: Saving, next: Phase): World {
    w.(disk := SaveTo(w.disk, p.memory, saving),
       proc := Some(p.(phase := if saving.Saved? then next else Raising)))
  }

  function Considered(w: World, p: Proc, name: Name, fingerprint: Fingerprint, dryRun: bool, saving: Saving): World {
    var record := Get(p.memory, name);
    var known := p.(memory := p.memory[name := record]);
    if (!p.force && record.last == Some(fingerprint)) || dryRun || record.pending.Some?
    then w.(proc := Some(known))
    else SaveThen(w, p.(memory := Reserve(p.memory, name, fingerprint)), saving, Reserved(name, fingerprint))
  }

  ghost predicate Enabled(w: World, e: Event) {
    match e
    case Start(_, _) => w.proc.None?
    case Consider(_, _, _, _) => w.proc.Some? && w.proc.value.phase.Passing?
    case FetchFails => w.proc.Some? && w.proc.value.phase.Passing?
    case Missing(_) => w.proc.Some? && w.proc.value.phase.Reserved?
    case Break => w.proc.Some? && (w.proc.value.phase.Reserved? || w.proc.value.phase.Sending?)
    case Paste => w.proc.Some? && w.proc.value.phase.Reserved?
    case Finish(_) => w.proc.Some? && w.proc.value.phase.Sending?
    case Handle(_) => w.proc.Some? && w.proc.value.phase.Raising?
    case EndPass(_) => w.proc.Some? && w.proc.value.phase.Passing?
    case Crash => w.proc.Some?
  }

  ghost function Step(w: World, e: Event): World
    requires Enabled(w, e)
  {
    match e
    case Start(watch, force) =>
      if Settled(w.disk) then w.(proc := Some(Proc(w.disk, watch, force, Passing))) else w
    case Consider(name, fingerprint, dryRun, saving) =>
      Considered(w, w.proc.value, name, fingerprint, dryRun, saving)
    case FetchFails => w.(proc := Some(w.proc.value.(phase := Raising)))
    case Missing(saving) =>
      var p := w.proc.value;
      SaveThen(w, p.(memory := Cancel(p.memory, p.phase.name)), saving, Passing)
    case Break => w.(proc := Some(w.proc.value.(phase := Raising)))
    case Paste =>
      var p := w.proc.value;
      w.(proc := Some(p.(phase := Sending(p.phase.name, p.phase.fingerprint))),
         sends := w.sends + [Send(p.phase.name, p.phase.fingerprint, p.force)])
    case Finish(saving) =>
      var p := w.proc.value;
      SaveThen(w, p.(memory := Commit(p.memory, p.phase.name, p.phase.fingerprint)), saving, Passing)
    case Handle(retryable) =>
      var p := w.proc.value;
      if p.watch && retryable && Settled(p.memory) then w.(proc := Some(p.(phase := Passing))) else w.(proc := None)
    case EndPass(saving) =>
      var p := w.proc.value;
      var saved := w.(disk := SaveTo(w.disk, p.memory, saving));
      if p.watch && saving.Saved? && Settled(p.memory) then saved else saved.(proc := None)
    case Crash => w.(proc := None)
  }

  ghost predicate Run(worlds: seq<World>, events: seq<Event>) {
    && |worlds| == |events| + 1
    && worlds[0] == World(map[], None, [])
    && forall i :: 0 <= i < |events| ==> Enabled(worlds[i], events[i]) && worlds[i + 1] == Step(worlds[i], events[i])
  }

  /** In a settled file a reservation is the only one, and resolving it settles the file. */
  lemma ReservedAlone(b: Book, name: Name, fingerprint: Fingerprint)
    requires Settled(b)
    ensures var reserved := Reserve(b, name, fingerprint);
            && OnlyPending(reserved, name, fingerprint)
            && Settled(Cancel(reserved, name)) && Settled(Commit(reserved, name, fingerprint))
  {
  }

  lemma ReservedBook(b: Book, name: Name, fingerprint: Fingerprint)
    requires Settled(b)
    ensures var known := b[name := Get(b, name)];
            && Settled(known) && !Pending(known, name)
            && Reserve(known, name, fingerprint) == Reserve(b, name, fingerprint)
            && Get(Reserve(b, name, fingerprint), name).last == Get(b, name).last
  {
  }

  lemma OneTargetIs(w: World, name: Name, fingerprint: Fingerprint, dryRun: bool, reserving: Saving,
                    dispatch: Dispatch, settling: Saving)
    requires InPass(w) && Settled(w.proc.value.memory)
    ensures var p := w.proc.value;
            var m := Reserve(p.memory, name, fingerprint);
            OneTarget(w, name, fingerprint, dryRun, reserving, dispatch, settling)
              == if (!p.force && Get(p.memory, name).last == Some(fingerprint)) || dryRun
                 then w.(proc := Some(p.(memory := p.memory[name := Get(p.memory, name)])))
                 else if reserving.Saved?
                 then AfterReserve(World(m, Some(Proc(m, p.watch, p.force, Reserved(name, fingerprint))), w.sends),
                                   dispatch, settling)
                 else World(SaveTo(w.disk, m, reserving), Some(Proc(m, p.watch, p.force, Raising)), w.sends)
  {
    hide AfterReserve, Reserve;
  }

  // --- The process ---

  /** The books agree about every other record. */
  ghost predicate Alike(a: Book, b: Book, name: Name) {
    forall other :: other != name ==> (other in a <==> other in b) && (other in a ==> a[other] == b[other])
  }

  datatype Status = Skipped | Dispatched | Raised

  class Bridge {
    var disk: Book
    var memory: Book
    var sends: seq<Send>
    const watch: bool
    const force: bool

    ghost function Contents(phase: Phase): World
      reads this
    {
      World(disk, Some(Proc(memory, watch, force, phase)), sends)
    }

    constructor (file: Book, watch: bool, force: bool)
      requires Settled(file)
      ensures Contents(Passing) == Step(World(file, None, []), Start(watch, force))
    {
      disk, memory, sends := file, file, [];
      this.watch, this.force := watch, force;
    }

    method SaveState(saving: Saving) returns (raised: bool)
      modifies this`disk
      ensures raised <==> !saving.Saved?
      ensures disk == SaveTo(old(disk), memory, saving)
      ensures disk == if saving.RaisedBefore? then old(disk) else memory
    {
      if !saving.RaisedBefore? {
        disk := memory;
      }
      raised := !saving.Saved?;
    }

    /** The external effect. It may only be started while the file on disk holds this
        reservation and no other, and agrees with memory. */
    method DispatchToWindow(name: Name, fingerprint: Fingerprint, dispatch: Dispatch)
      requires disk == memory && OnlyPending(disk, name, fingerprint)
      requires force || Get(disk, name).last != Some(fingerprint)
      modifies this`sends
      ensures sends == if dispatch.Lost? || dispatch.Done?
                       then old(sends) + [Send(name, fingerprint, force)] else old(sends)
    {
      if dispatch.Lost? || dispatch.Done? {
        sends := sends + [Send(name, fingerprint, force)];
      }
    }

    /** The reservation, on disk before anything is sent. An open one is left alone. */
    method ReserveDispatch(name: Name, fingerprint: Fingerprint, saving: Saving)
      returns (reserved: bool, raised: bool)
      modifies this`memory, this`disk
      ensures Pending(old(memory), name) ==> !reserved && !raised && memory == old(memory) && disk == old(disk)
      ensures !Pending(old(memory), name) ==>
                && memory == Reserve(old(memory), name, fingerprint)
                && disk == SaveTo(old(disk), memory, saving)
                && reserved == saving.Saved? && raised == !reserved
      ensures !Pending(old(memory), name) ==>
                && Alike(memory, old(memory), name) && name in memory
                && memory[name].pending == Some(fingerprint) && memory[name].last == Get(old(memory), name).last
                && disk == if saving.RaisedBefore? then old(disk) else memory
    {
      var record := Get(memory, name);
      if record.pending.Some? {
        return false, false;
      }
      memory := memory[name := record.(pending := Some(fingerprint))];
      raised := SaveState(saving);
      reserved := !raised;
    }

    /** The send of a reserved candidate, and the commit or the withdrawal after it. */
    method SendReserved(name: Name, fingerprint: Fingerprint, dispatch: Dispatch, settling: Saving)
      returns (status: Status)
      requires disk == memory && OnlyPending(memory, name, fingerprint)
      requires force || Get(memory, name).last != Some(fingerprint)
      modifies this
      ensures Contents(if status.Raised? then Raising else Passing)
                == AfterReserve(old(Contents(Reserved(name, fingerprint))), dispatch, settling)
      ensures !status.Raised? ==> Settled(memory)
      ensures Alike(memory, old(memory), name) && name in memory
      ensures memory[name] == match dispatch
                              case NotFound => old(memory)[name].(pending := None)
                              case Done => Record(Some(fingerprint), None)
                              case _ => old(memory)[name]
      ensures disk == if (dispatch.NotFound? || dispatch.Done?) && !settling.RaisedBefore? then memory else old(disk)
      ensures sends == if dispatch.Lost? || dispatch.Done? then old(sends) + [Send(name, fingerprint, force)]
                       else old(sends)
      ensures status == if dispatch.Early? || dispatch.Lost? || !settling.Saved? then Raised
                        else if dispatch.NotFound? then Skipped else Dispatched
    {
      DispatchToWindow(name, fingerprint, dispatch);
      assert forall other :: other in memory && other != name ==> !Pending(memory, other);
      hide OnlyPending;
      if dispatch.Early? || dispatch.Lost? {
        return Raised;
      }
      if dispatch.NotFound? {
        memory := Cancel(memory, name);
      } else {
        memory := Commit(memory, name, fingerprint);
      }
      var raised := SaveState(settling);
      status := if raised then Raised else if dispatch.NotFound? then Skipped else Dispatched;
    }

    /** One candidate issue for one record. */
    method ProcessTarget(name: Name, fingerprint: Fingerprint, dryRun: bool, reserving: Saving,
                         dispatch: Dispatch, settling: Saving)
      returns (status: Status)
      requires Settled(memory)
      modifies this
      ensures Contents(if status.Raised? then Raising else Passing)
                == OneTarget(old(Contents(Passing)), name, fingerprint, dryRun, reserving, dispatch, settling)
      ensures !status.Raised? ==> Settled(memory)
      ensures IsOutcome(old(Contents(Passing)), Contents(if status.Raised? then Raising else Passing),
                        Plan(name, fingerprint, dryRun, reserving, dispatch, settling))
      ensures status == if !force && Get(old(memory), name).last == Some(fingerprint) then Skipped
                        else if dryRun then Dispatched
                        else if !reserving.Saved? || dispatch.Early? || dispatch.Lost? || !settling.Saved? then Raised
                        else if dispatch.NotFound? then Skipped else Dispatched
    {
      OneTargetIs(Contents(Passing), name, fingerprint, dryRun, reserving, dispatch, settling);
      ReservedAlone(memory, name, fingerprint);
      ReservedBook(memory, name, fingerprint);
      OutcomeIs(Contents(Passing), Plan(name, fingerprint, dryRun, reserving, dispatch, settling));
      hide OneTarget, AfterReserve, OnlyPending, Settled, Reserve, SaveTo, IsOutcome, Alike;
      memory := memory[name := Get(memory, name)];
      if !force && memory[name].last == Some(fingerprint) {
        return Skipped;
      }
      if dryRun {
        return Dispatched;
      }
      var reserved, raised := ReserveDispatch(name, fingerprint, reserving);
      if !reserved {
        return if raised then Raised else Skipped;
      }
      status := SendReserved(name, fingerprint, dispatch, settling);
    }

    /** The targets of one pass, in order, up to the first exception. */
    method RunOnce(plans: seq<Plan>) returns (dispatched: nat, raised: bool)
      requires Settled(memory)
      modifies this
      ensures Contents(if raised then Raising else Passing) == AllTargets(old(Contents(Passing)), plans)
      ensures !raised ==> Settled(memory) && dispatched <= |plans|
    {
      hide IsOutcome;
      dispatched, raised := 0, false;
      for k := 0 to |plans|
        invariant dispatched <= k && Settled(memory)
        invariant Contents(Passing) == AllTargets(old(Contents(Passing)), plans[..k])
      {
        var plan := plans[k];
        assert plans[..k + 1][..k] == plans[..k];
        var status := ProcessTarget(plan.name, plan.fingerprint, plan.dryRun, plan.reserving, plan.dispatch,
                                    plan.settling);
        if status.Raised? {
          raised := true;
          RaisedStays(old(Contents(Passing)), plans, k + 1);
          return;
        }
        if status.Dispatched? {
          dispatched := dispatched + 1;
        }
      }
      assert plans[..|plans|] == plans;
    }
  }

  /** One candidate of a pass, with how the writes and the send around it end. */
  datatype Plan = Plan(name: Name, fingerprint: Fingerprint, dryRun: bool, reserving: Saving,
                       dispatch: Dispatch, settling: Saving)

  ghost predicate InPass(w: World) {
    w.proc.Some? && w.proc.value.phase.Passing?
  }

  /** The steps of a send and what follows it. */
  ghost function AfterReserve(w: World, dispatch: Dispatch, settling: Saving): World
    requires w.proc.Some? && w.proc.value.phase.Reserved?
  {
    match dispatch
    case NotFound => Step(w, Missing(settling))
    case Early => Step(w, Break)
    case Lost => Step(Step(w, Paste), Break)
    case Done => Step(Step(w, Paste), Finish(settling))
  }

  /** The steps of one candidate. */
  ghost function OneTarget(w: World, name: Name, fingerprint: Fingerprint, dryRun: bool, reserving: Saving,
                           dispatch: Dispatch, settling: Saving): World
    requires InPass(w)
  {
    var reserved := Step(w, Consider(name, fingerprint, dryRun, reserving));
    if reserved.proc.value.phase.Reserved? then AfterReserve(reserved, dispatch, settling) else reserved
  }

  /** What becomes of one candidate: without `force` a known fingerprint is never sent, a
      dry run sends nothing, and otherwise the reservation is saved first, the text sent at
      most once, and the record keeps the outcome: the new fingerprint when the send
      succeeded, the open reservation when nobody knows. Other records stay as they are. */
  ghost predicate IsOutcome(w: World, n: World, plan: Plan)
    requires w.proc.Some? && n.proc.Some?
  {
    var p, q := w.proc.value, n.proc.value;
    var skipped := plan.dryRun || (!p.force && Get(p.memory, plan.name).last == Some(plan.fingerprint));
    var tried := !skipped && plan.reserving.Saved?;
    && Alike(q.memory, p.memory, plan.name) && q.watch == p.watch && q.force == p.force
    && n.sends == (if tried && (plan.dispatch.Lost? || plan.dispatch.Done?)
                   then w.sends + [Send(plan.name, plan.fingerprint, p.force)] else w.sends)
    && (skipped ==> n.disk == w.disk && Get(q.memory, plan.name) == Get(p.memory, plan.name))
    && (tried && plan.dispatch.Done? ==>
          && plan.name in q.memory && q.memory[plan.name] == Record(Some(plan.fingerprint), None)
          && (plan.settling.Saved? ==> n.disk == q.memory))
    && (tried && plan.dispatch.NotFound? ==>
          && plan.name in q.memory && q.memory[plan.name] == Record(Get(p.memory, plan.name).last, None)
          && (plan.settling.Saved? ==> n.disk == q.memory))
    && (tried && (plan.dispatch.Early? || plan.dispatch.Lost?) ==>
          && n.disk == q.memory && plan.name in n.disk
          && n.disk[plan.name] == Record(Get(p.memory, plan.name).last, Some(plan.fingerprint)))
  }

  lemma OutcomeIs(w: World, plan: Plan)
    requires InPass(w) && Settled(w.proc.value.memory)
    ensures var n := OneTarget(w, plan.name, plan.fingerprint, plan.dryRun, plan.reserving, plan.dispatch,
                               plan.settling);
            n.proc.Some? && IsOutcome(w, n, plan)
  {
    var p := w.proc.value;
    OneTargetIs(w, plan.name, plan.fingerprint, plan.dryRun, plan.reserving, plan.dispatch, plan.settling);
    hide OneTarget, Settled;
    var m := Reserve(p.memory, plan.name, plan.fingerprint);
    assert Alike(m, p.memory, plan.name);
    if plan.dryRun || (!p.force && Get(p.memory, plan.name).last == Some(plan.fingerprint)) {
      assert Alike(p.memory[plan.name := Get(p.memory, plan.name)], p.memory, plan.name);
    } else if plan.reserving.Saved? {
      var r := World(m, Some(Proc(m, p.watch, p.force, Reserved(plan.name, plan.fingerprint))), w.sends);
      SendOutcome(r, plan.dispatch, plan.settling);
      hide AfterReserve;
      AlikeThen(AfterReserve(r, plan.dispatch, plan.settling).proc.value.memory, m, p.memory, plan.name);
      hide Alike, SaveTo;
    }
  }

  lemma AlikeThen(a: Book, b: Book, c: Book, name: Name)
    requires Alike(a, b, name) && Alike(b, c, name)
    ensures Alike(a, c, name)
  {
  }

  lemma SendOutcome(w: World, dispatch: Dispatch, settling: Saving)
    requires w.proc.Some? && w.proc.value.phase.Reserved? && w.disk == w.proc.value.memory
    requires w.proc.value.phase.name in w.disk
    ensures var p, n := w.proc.value, AfterReserve(w, dispatch, settling);
            var name, fingerprint := p.phase.name, p.phase.fingerprint;
            && n.proc.Some?
            && var q := n.proc.value;
               && Alike(q.memory, p.memory, name) && q.watch == p.watch && q.force == p.force && name in q.memory
               && q.memory[name] == (match dispatch
                                     case NotFound => p.memory[name].(pending := None)
                                     case Done => Record(Some(fingerprint), None)
                                     case _ => p.memory[name])
               && n.disk == (if (dispatch.NotFound? || dispatch.Done?) && !settling.RaisedBefore? then q.memory
                             else w.disk)
               && (dispatch.Early? || dispatch.Lost? ==> q.memory == p.memory)
               && n.sends == (if dispatch.Lost? || dispatch.Done? then w.sends + [Send(name, fingerprint, p.force)]
                              else w.sends)
  {
  }

  ghost function AllTargets(w: World, plans: seq<Plan>): World
    requires InPass(w)
  {
    if plans == [] then w
    else
      var before := AllTargets(w, plans[..|plans| - 1]);
      var p := plans[|plans| - 1];
      if !InPass(before) then before
      else OneTarget(before, p.name, p.fingerprint, p.dryRun, p.reserving, p.dispatch, p.settling)
  }

  lemma {:induction false} RaisedStays(w: World, plans: seq<Plan>, k: nat)
    requires InPass(w) && k <= |plans| && !InPass(AllTargets(w, plans[..k]))
    ensures AllTargets(w, plans) == AllTargets(w, plans[..k])
    decreases |plans| - k
  {
    if k == |plans| {
      assert plans[..k] == plans;
    } else {
      assert plans[..k + 1][..k] == plans[..k];
      RaisedStays(w, plans, k + 1);
    }
  }

  // --- What every run keeps ---

  ghost function LastSent(sends: seq<Send>, name: Name): Option<Fingerprint> {
    if sends == [] then None
    else if sends[|sends| - 1].name == name then Some(sends[|sends| - 1].fingerprint)
    else LastSent(sends[..|sends| - 1], name)
  }

  /** A record is unresolved, or knows its newest send. */
  ghost predicate Truthful(b: Book, sends: seq<Send>) {
    forall name :: Pending(b, name) || Get(b, name).last == LastSent(sends, name)
  }

  /** Nothing but a forced send repeats the send before it to the same record. */
  ghost predicate NoRepeats(sends: seq<Send>) {
    forall j :: 0 <= j < |sends| && !sends[j].forced ==>
      LastSent(sends[..j], sends[j].name) != Some(sends[j].fingerprint)
  }

  ghost predicate ProcOk(disk: Book, p: Proc, sends: seq<Send>) {
    && Truthful(p.memory, sends)
    && match p.phase
       case Passing => Settled(p.memory)
       case Reserved(name, fingerprint) =>
         && disk == p.memory && OnlyPending(p.memory, name, fingerprint)
         && Get(p.memory, name).last == LastSent(sends, name)
         && (p.force || Get(p.memory, name).last != Some(fingerprint))
       case Sending(name, fingerprint) =>
         && disk == p.memory && OnlyPending(p.memory, name, fingerprint)
         && LastSent(sends, name) == Some(fingerprint)
       case Raising => true
  }

  ghost predicate Inv(w: World) {
    && Truthful(w.disk, w.sends)
    && NoRepeats(w.sends)
    && (w.proc.Some? ==> ProcOk(w.disk, w.proc.value, w.sends))
  }

  lemma PastedInv(w: World)
    requires Inv(w) && Enabled(w, Paste)
    ensures Inv(Step(w, Paste))
  {
    var p, n := w.proc.value, Step(w, Paste);
    assert n.sends[..|w.sends|] == w.sends;
    forall j | 0 <= j < |n.sends| && !n.sends[j].forced
      ensures LastSent(n.sends[..j], n.sends[j].name) != Some(n.sends[j].fingerprint)
    {
      assert j < |w.sends| ==> n.sends[..j] == w.sends[..j];
    }
    assert forall name :: name != p.phase.name ==> LastSent(n.sends, name) == LastSent(w.sends, name);
  }

  lemma ConsideredInv(w: World, name: Name, fingerprint: Fingerprint, dryRun: bool, saving: Saving)
    requires Inv(w) && w.proc.Some? && w.proc.value.phase.Passing?
    ensures Inv(Considered(w, w.proc.value, name, fingerprint, dryRun, saving))
  {
    hide NoRepeats, LastSent, Truthful;
    var p := w.proc.value;
    assert ReservedTruthful(p.memory, name, fingerprint, w.sends) by {
      ReservationTruthful(p.memory, name, fingerprint, w.sends);
    }
    hide Settled, Reserve, OnlyPending, Pending;
  }

  ghost predicate ReservedTruthful(b: Book, name: Name, fingerprint: Fingerprint, sends: seq<Send>) {
    var reserved, known := Reserve(b, name, fingerprint), b[name := Get(b, name)];
    && Truthful(reserved, sends) && OnlyPending(reserved, name, fingerprint)
    && Get(reserved, name).last == Get(b, name).last == LastSent(sends, name)
    && Truthful(known, sends) && Settled(known)
  }

  lemma ReservationTruthful(b: Book, name: Name, fingerprint: Fingerprint, sends: seq<Send>)
    requires Truthful(b, sends) && Settled(b)
    ensures ReservedTruthful(b, name, fingerprint, sends)
  {
    hide LastSent;
    var reserved := Reserve(b, name, fingerprint);
    assert forall other :: !Pending(b, other);
    assert forall other :: Pending(reserved, other) <==> other == name;
    assert forall other :: other != name ==> Get(reserved, other) == Get(b, other);
  }

  lemma ResolvedInv(w: World, p: Proc, name: Name, record: Record, saving: Saving)
    requires Truthful(w.disk, w.sends) && NoRepeats(w.sends) && Truthful(p.memory, w.sends)
    requires forall other :: Pending(p.memory, other) ==> other == name
    requires record.pending.None? && record.last == LastSent(w.sends, name)
    ensures Inv(SaveThen(w, p.(memory := p.memory[name := record]), saving, Passing))
  {
    hide NoRepeats, LastSent;
    var after := p.memory[name := record];
    assert forall other :: other != name ==> Get(after, other) == Get(p.memory, other);
    assert forall other :: Pending(after, other) ==> other != name && Pending(p.memory, other);
    assert Truthful(after, w.sends);
    forall other | other in after ensures after[other].pending.None? {
      assert !Pending(after, other);
    }
  }

  lemma StepInv(w: World, e: Event)
    requires Inv(w) && Enabled(w, e)
    ensures Inv(Step(w, e))
  {
    match e
    case Paste => PastedInv(w);
    case Consider(name, fingerprint, dryRun, saving) => ConsideredInv(w, name, fingerprint, dryRun, saving);
    case Missing(saving) =>
      var p := w.proc.value;
      ResolvedInv(w, p, p.phase.name, Get(p.memory, p.phase.name).(pending := None), saving);
    case Finish(saving) =>
      var p := w.proc.value;
      ResolvedInv(w, p, p.phase.name, Record(Some(p.phase.fingerprint), None), saving);
    case _ => hide NoRepeats, LastSent, Truthful;
  }

  lemma {:induction false} RunInv(worlds: seq<World>, events: seq<Event>, n: nat)
    requires Run(worlds, events) && n <= |events|
    ensures Inv(worlds[n])
  {
    if n > 0 {
      RunInv(worlds, events, n - 1);
      hide Inv, Step;
      assert Enabled(worlds[n - 1], events[n - 1]) && worlds[n - 1 + 1] == Step(worlds[n - 1], events[n - 1]);
      StepInv(worlds[n - 1], events[n - 1]);
    }
  }

  // --- Main results ---

  /** Write ahead: whenever a send starts, and for as long as it is out, the file on disk
      is what the process remembers and holds exactly this one reservation. */
  lemma ReservedBeforeSend(worlds: seq<World>, events: seq<Event>, n: nat)
    requires Run(worlds, events) && n < |events| && events[n].Paste?
    ensures var w, p := worlds[n], worlds[n].proc;
            && p.Some? && p.value.phase.Reserved?
            && w.disk == p.value.memory
            && OnlyPending(w.disk, p.value.phase.name, p.value.phase.fingerprint)
            && worlds[n + 1].disk == w.disk
            && worlds[n + 1].sends == w.sends + [Send(p.value.phase.name, p.value.phase.fingerprint, p.value.force)]
  {
    RunInv(worlds, events, n);
    assert Enabled(worlds[n], events[n]) && worlds[n + 1] == Step(worlds[n], events[n]);
  }

  /** Over all processes, passes, failing saves and crashes, no record gets two
      consecutive sends of one fingerprint, unless the second was forced. */
  lemma NoConsecutiveRepeat(worlds: seq<World>, events: seq<Event>, i: nat, j: nat)
    requires Run(worlds, events)
    requires var sends := worlds[|events|].sends;
             && i < j < |sends| && sends[i].name == sends[j].name && !sends[j].forced
             && forall k :: i < k < j ==> sends[k].name != sends[j].name
    ensures var sends := worlds[|events|].sends; sends[i].fingerprint != sends[j].fingerprint
  {
    RunInv(worlds, events, |events|);
    LastBefore(worlds[|events|].sends, i, j);
  }

  lemma {:induction false} LastBefore(sends: seq<Send>, i: nat, j: nat)
    requires i < j <= |sends| && forall k :: i < k < j ==> sends[k].name != sends[i].name
    ensures LastSent(sends[..j], sends[i].name) == Some(sends[i].fingerprint)
    decreases j
  {
    assert sends[..j][..j - 1] == sends[..j - 1];
    if i < j - 1 {
      LastBefore(sends, i, j - 1);
    }
  }

  /** A file with an open reservation and no process. */
  ghost predicate Unreconciled(w: World) {
    w.proc.None? && !Settled(w.disk)
  }

  /** Then nothing is ever sent or written again, until someone reconciles the file. */
  lemma {:induction false} UnreconciledForever(worlds: seq<World>, events: seq<Event>, i: nat, j: nat)
    requires Run(worlds, events) && i <= j <= |events| && Unreconciled(worlds[i])
    ensures worlds[j] == worlds[i]
    decreases j
  {
    if i < j {
      UnreconciledForever(worlds, events, i, j - 1);
      assert Enabled(worlds[j - 1], events[j - 1]) && worlds[j - 1 + 1] == Step(worlds[j - 1], events[j - 1]);
    }
  }

  /** A send that is out when its process dies, or whose outcome is unknown, leaves the
      file unreconciled. */
  lemma InterruptedSendBlocks(worlds: seq<World>, events: seq<Event>, n: nat)
    requires Run(worlds, events) && n < |events| && worlds[n].proc.Some? && worlds[n].proc.value.phase.Sending?
    ensures events[n].Crash? ==> Unreconciled(worlds[n + 1])
    ensures events[n].Break? && n + 1 < |events| && (events[n + 1].Handle? || events[n + 1].Crash?) ==>
              Unreconciled(worlds[n + 2])
  {
    RunInv(worlds, events, n);
    assert Enabled(worlds[n], events[n]) && worlds[n + 1] == Step(worlds[n], events[n]);
    if events[n].Break? && n + 1 < |events| {
      assert Enabled(worlds[n + 1], events[n + 1]) && worlds[n + 1 + 1] == Step(worlds[n + 1], events[n + 1]);
    }
  }
}
