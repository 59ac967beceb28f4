/** The spending ledger shared by every API-backed session process: one row per UTC
    day, one row per session, and one guarded run at a time.

    `Reserve` and `Settle` are the two transactions as functions on `Db`; class
    `Ledger` holds the two tables and runs them in place. Money is counted in
    millionths of a dollar; the cost a run reports is a real number of dollars. */
module Ledger {
  import opened Basics

  // --- Limits ---

  ghost predicate IsUnits(amount: real, n: int) {
    n > 0 && n as real == amount * 1000000.0
  }

  /** The positive whole number of millionths that a dollar amount is, if it is one. */
  function UsdUnits(amount: real): (units: Option<int>)
    ensures units.Some? ==> IsUnits(amount, units.value)
    ensures units.None? ==> forall n :: !IsUnits(amount, n)
  {
    var scaled := amount * 1000000.0;
    if amount <= 0.0 || scaled != scaled.Floor as real then None else Some(scaled.Floor)
  }

  datatype Limits = Limits(maxTokens: int, maxTurns: int, runBudget: int, dailyBudget: int) {
    predicate Valid() {
      0 < maxTokens && 0 < maxTurns && 0 < runBudget <= dailyBudget
    }

    static function FromValues(tokens: int, turns: int, run: real, daily: real): (r: Option<Limits>)
      ensures r.Some? ==> && r.value.Valid() && r.value.maxTokens == tokens && r.value.maxTurns == turns
                          && IsUnits(run, r.value.runBudget) && IsUnits(daily, r.value.dailyBudget)
      ensures r.Some? <==> tokens > 0 && turns > 0 && UsdUnits(run).Some? && UsdUnits(daily).Some? && run <= daily
    {
      if tokens <= 0 || turns <= 0 || UsdUnits(run).None? || UsdUnits(daily).None? then None
      else
        var limits := Limits(tokens, turns, UsdUnits(run).value, UsdUnits(daily).value);
        if limits.runBudget > limits.dailyBudget then None else Some(limits)
    }
  }

  // --- The two tables ---

  type Day = string

  type SessionId = string

  datatype DayRow = DayRow(reserved: int, blocked: bool)

  datatype SessionRow = SessionRow(turns: int, blocked: bool)

  datatype Db = Db(days: map<Day, DayRow>, sessions: map<SessionId, SessionRow>)

  ghost predicate SomeDayBlocked(db: Db) {
    exists day :: day in db.days && db.days[day].blocked
  }

  function Reserved(db: Db, day: Day): int {
    if day in db.days then db.days[day].reserved else 0
  }

  function Used(db: Db, session: SessionId): int {
    if session in db.sessions then db.sessions[session].turns else 0
  }

  /** When a run may start: nothing unresolved anywhere, a trusted session with turns
      left, and room for one whole run in the day's budget. */
  ghost predicate Grantable(db: Db, session: SessionId, limits: Limits, isNew: bool, day: Day) {
    && !SomeDayBlocked(db)
    && (session in db.sessions || isNew)
    && (session in db.sessions ==> !db.sessions[session].blocked)
    && 0 <= Used(db, session) < limits.maxTurns
    && 0 <= Reserved(db, day) <= limits.dailyBudget - limits.runBudget
  }

  /** The rows once a run is reserved: the run's whole budget and every remaining turn
      are taken before it starts, and both rows stay blocked until it settles. */
  function Hold(db: Db, session: SessionId, limits: Limits, day: Day): Db {
    Db(db.days[day := DayRow(Reserved(db, day) + limits.runBudget, true)],
       db.sessions[session := SessionRow(limits.maxTurns, true)])
  }

  /** What a finished run printed. `clean` says that its error flag is present and false. */
  datatype Cost = NotANumber | NotFinite | Amount(dollars: real)

  datatype Report = Report(session: Option<SessionId>, clean: bool, turns: Option<int>, cost: Cost)

  /** Rounded up to whole units. */
  function Charge(dollars: real): int {
    var scaled := dollars * 1000000.0;
    if scaled == scaled.Floor as real then scaled.Floor else scaled.Floor + 1
  }

  /** A charge fits a budget exactly when the cost does. */
  lemma ChargeFits(dollars: real, budget: int)
    ensures Charge(dollars) <= budget <==> dollars * 1000000.0 <= budget as real
  {
  }

  predicate Acceptable(report: Report, session: SessionId, remaining: int, runBudget: int) {
    && report.session == Some(session)
    && report.clean
    && report.turns.Some? && 0 < report.turns.value <= remaining
    && report.cost.Amount? && report.cost.dollars > 0.0
    && Charge(report.cost.dollars) <= runBudget
  }

  function Release(db: Db, session: SessionId, turns: int, day: Day): Db {
    Db(if day in db.days then db.days[day := db.days[day].(blocked := false)] else db.days,
       if session in db.sessions then db.sessions[session := SessionRow(turns, false)] else db.sessions)
  }

  class Ledger {
    var days: map<Day, DayRow>
    var sessions: map<SessionId, SessionRow>

    ghost function Contents(): Db
      reads this
    {
      Db(days, sessions)
    }

    constructor ()
      ensures Contents() == Db(map[], map[])
    {
      days, sessions := map[], map[];
    }

    /** One immediate transaction; a denial rolls back the inserted session row. */
    method Reserve(session: SessionId, limits: Limits, isNew: bool, day: Day)
      returns (granted: bool, previous: int, remaining: int)
      modifies this
      ensures granted <==> Grantable(old(Contents()), session, limits, isNew, day)
      ensures granted <==>
                && (forall d :: d in old(days) ==> !old(days)[d].blocked)
                && (if session in old(sessions)
                    then !old(sessions)[session].blocked && 0 <= old(sessions)[session].turns < limits.maxTurns
                    else isNew && 0 < limits.maxTurns)
                && (if day in old(days)
                    then && 0 <= old(days)[day].reserved
                         && old(days)[day].reserved + limits.runBudget <= limits.dailyBudget
                    else limits.runBudget <= limits.dailyBudget)
      ensures granted ==> && Contents() == Hold(old(Contents()), session, limits, day)
                          && previous == Used(old(Contents()), session)
                          && remaining == limits.maxTurns - previous
      ensures granted ==>
                && days.Keys == old(days).Keys + {day} && sessions.Keys == old(sessions).Keys + {session}
                && days[day].blocked && sessions[session].blocked && sessions[session].turns == limits.maxTurns
                && days[day].reserved == limits.runBudget + (if day in old(days) then old(days)[day].reserved else 0)
                && previous == (if session in old(sessions) then old(sessions)[session].turns else 0)
                && (forall d :: d in old(days) && d != day ==> days[d] == old(days)[d])
                && (forall id :: id in old(sessions) && id != session ==> sessions[id] == old(sessions)[id])
      ensures !granted ==> Contents() == old(Contents())
    {
      var before := sessions;
      granted, previous, remaining := false, 0, 0;
      if exists d | d in days :: days[d].blocked {
        return;
      }
      if session !in sessions {
        if !isNew {
          return;
        }
        sessions := sessions[session := SessionRow(0, false)];
      }
      var row := sessions[session];
      if row.blocked || !(0 <= row.turns < limits.maxTurns) {
        sessions := before;
        return;
      }
      var reserved := if day in days then days[day].reserved else 0;
      if reserved < 0 || reserved + limits.runBudget > limits.dailyBudget {
        sessions := before;
        return;
      }
      days := days[day := DayRow(reserved + limits.runBudget, true)];
      sessions := sessions[session := SessionRow(limits.maxTurns, true)];
      assert sessions == before[session := SessionRow(limits.maxTurns, true)];
      granted, previous, remaining := true, row.turns, limits.maxTurns - row.turns;
    }

    method Settle(session: SessionId, previous: int, remaining: int, report: Report, day: Day, runBudget: int)
      returns (accepted: bool)
      modifies this
      ensures accepted <==> Acceptable(report, session, remaining, runBudget)
      ensures accepted <==>
                && report.session == Some(session) && report.clean
                && report.turns.Some? && 0 < report.turns.value <= remaining
                && report.cost.Amount? && 0.0 < report.cost.dollars
                && report.cost.dollars * 1000000.0 <= runBudget as real
      ensures days.Keys == old(days).Keys && sessions.Keys == old(sessions).Keys
      ensures forall d :: d in days ==>
                && days[d].reserved == old(days)[d].reserved
                && days[d].blocked == (old(days)[d].blocked && !(accepted && d == day))
      ensures forall id :: id in sessions ==>
                sessions[id] == if accepted && id == session then SessionRow(previous + report.turns.value, false)
                                else old(sessions)[id]
      ensures accepted ==> Contents() == Release(old(Contents()), session, previous + report.turns.value, day)
      ensures !accepted ==> Contents() == old(Contents())
    {
      if report.cost.Amount? {
        ChargeFits(report.cost.dollars, runBudget);
      }
      accepted := false;
      if report.session != Some(session) || !report.clean || report.turns.None?
         || !(0 < report.turns.value <= remaining) {
        return;
      }
      if !report.cost.Amount? || report.cost.dollars <= 0.0 {
        return;
      }
      var charged := Charge(report.cost.dollars);
      if charged > runBudget {
        return;
      }
      if session in sessions {
        sessions := sessions[session := SessionRow(previous + report.turns.value, false)];
      }
      if day in days {
        days := days[day := days[day].(blocked := false)];
      }
      accepted := true;
    }
  }

  // --- All session processes over one ledger ---

  datatype Phase = Idle | Running(day: Day, previous: int, remaining: int) | Dead

  datatype Proc = Proc(session: SessionId, isNew: bool, limits: Limits, phase: Phase)

  datatype Grant = Grant(pid: nat, session: SessionId, day: Day, budget: int)

  datatype Settlement = Settlement(session: SessionId, day: Day, turns: int, dollars: real)

  /** `granted` and `settled` record every run started and every report accepted. */
  datatype World = World(db: Db, procs: seq<Proc>, granted: seq<Grant>, settled: seq<Settlement>)

  datatype Outcome = Broken | Printed(report: Report)

  /** `Ask` is a prompt arriving at a waiting process; `Finish` is the end of its
      command, `Broken` when it failed, timed out or printed no result object. `Crash`
      is any other end of the process, at any moment. */
  datatype Event =
    | Spawn(session: SessionId, isNew: bool, limits: Limits)
    | Ask(pid: nat, day: Day)
    | Finish(pid: nat, outcome: Outcome)
    | Crash(pid: nat)

  ghost function At(w: World, pid: nat): Phase {
    if pid < |w.procs| then w.procs[pid].phase else Dead
  }

  ghost function Moved(w: World, pid: nat, phase: Phase): World
    requires pid < |w.procs|
  {
    w.(procs := w.procs[pid := w.procs[pid].(phase := phase)])
  }

  ghost function Asked(w: World, pid: nat, day: Day): World
    requires At(w, pid).Idle?
  {
    var p := w.procs[pid];
    if !Grantable(w.db, p.session, p.limits, p.isNew, day) then Moved(w, pid, Dead)
    else
      var used := Used(w.db, p.session);
      Moved(w, pid, Running(day, used, p.limits.maxTurns - used)).(
        db := Hold(w.db, p.session, p.limits, day),
        granted := w.granted + [Grant(pid, p.session, day, p.limits.runBudget)])
  }

  ghost function Finished(w: World, pid: nat, outcome: Outcome): World
    requires At(w, pid).Running?
  {
    var p := w.procs[pid];
    if outcome.Printed? && Acceptable(outcome.report, p.session, p.phase.remaining, p.limits.runBudget) then
      var r := outcome.report;
      w.(db := Release(w.db, p.session, p.phase.previous + r.turns.value, p.phase.day),
         procs := w.procs[pid := p.(isNew := false, phase := Idle)],
         settled := w.settled + [Settlement(p.session, p.phase.day, r.turns.value, r.cost.dollars)])
    else Moved(w, pid, Dead)
  }

  /** An event that does not fit its process changes nothing. */
  ghost function Step(w: World, e: Event): World {
    match e
    case Spawn(session, isNew, limits) =>
      if limits.Valid() then w.(procs := w.procs + [Proc(session, isNew, limits, Idle)]) else w
    case Ask(pid, day) => if At(w, pid).Idle? then Asked(w, pid, day) else w
    case Finish(pid, outcome) => if At(w, pid).Running? then Finished(w, pid, outcome) else w
    case Crash(pid) => if pid < |w.procs| then Moved(w, pid, Dead) else w
  }

  ghost function Run(w: World, events: seq<Event>): World {
    if events == [] then w else Step(Run(w, events[..|events| - 1]), events[|events| - 1])
  }

  ghost function Empty(): World {
    World(Db(map[], map[]), [], [], [])
  }

  // --- Sums over the history ---

  ghost function Budgets(granted: seq<Grant>, day: Day): int {
    if granted == [] then 0
    else
      var g := granted[|granted| - 1];
      Budgets(granted[..|granted| - 1], day) + if g.day == day then g.budget else 0
  }

  ghost function Charged(settled: seq<Settlement>, day: Day): int {
    if settled == [] then 0
    else
      var s := settled[|settled| - 1];
      Charged(settled[..|settled| - 1], day) + if s.day == day then Charge(s.dollars) else 0
  }

  ghost function TrueCost(settled: seq<Settlement>, day: Day): real {
    if settled == [] then 0.0
    else
      var s := settled[|settled| - 1];
      TrueCost(settled[..|settled| - 1], day) + if s.day == day then s.dollars else 0.0
  }

  ghost function Turns(settled: seq<Settlement>, session: SessionId): int {
    if settled == [] then 0
    else
      var s := settled[|settled| - 1];
      Turns(settled[..|settled| - 1], session) + if s.session == session then s.turns else 0
  }

  lemma {:induction false} ChargesCoverCosts(settled: seq<Settlement>, day: Day)
    ensures TrueCost(settled, day) * 1000000.0 <= Charged(settled, day) as real
    ensures Charged(settled, day) as real <= TrueCost(settled, day) * 1000000.0 + |settled| as real
  {
    if settled != [] {
      ChargesCoverCosts(settled[..|settled| - 1], day);
    }
  }

  // --- What every run of any processes keeps ---

  /** Nothing is blocked, or exactly the two rows of the newest run are. */
  ghost predicate Exclusive(db: Db, granted: seq<Grant>) {
    && (forall day :: day in db.days && db.days[day].blocked ==>
          granted != [] && day == granted[|granted| - 1].day)
    && (forall id :: id in db.sessions && db.sessions[id].blocked ==>
          granted != [] && id == granted[|granted| - 1].session)
    && (SomeDayBlocked(db) <==> exists id :: id in db.sessions && db.sessions[id].blocked)
  }

  /** A process between reserve and settle is the newest run, and holds its rows. */
  ghost predicate Holding(w: World) {
    forall pid :: 0 <= pid < |w.procs| && w.procs[pid].phase.Running? ==>
      var p := w.procs[pid];
      && w.granted != [] && w.granted[|w.granted| - 1] == Grant(pid, p.session, p.phase.day, p.limits.runBudget)
      && p.phase.day in w.db.days && w.db.days[p.phase.day].blocked
      && p.session in w.db.sessions && w.db.sessions[p.session] == SessionRow(p.limits.maxTurns, true)
      && 0 <= p.phase.previous == Turns(w.settled, p.session)
      && p.phase.remaining == p.limits.maxTurns - p.phase.previous
      && Charged(w.settled, p.phase.day) + p.limits.runBudget <= Reserved(w.db, p.phase.day)
  }

  ghost predicate DaysOk(db: Db, granted: seq<Grant>, settled: seq<Settlement>, cap: int) {
    forall day ::
      && Charged(settled, day) <= Reserved(db, day) == Budgets(granted, day)
      && (day in db.days ==> Reserved(db, day) <= cap)
  }

  ghost predicate SessionsOk(db: Db, settled: seq<Settlement>, cap: int) {
    forall id ::
      && 0 <= Turns(settled, id) <= Used(db, id)
      && (id in db.sessions ==> Used(db, id) <= cap)
      && (id in db.sessions && !db.sessions[id].blocked ==> Used(db, id) == Turns(settled, id))
  }

  ghost predicate LimitsOk(procs: seq<Proc>, dailyCap: int, turnCap: int) {
    forall p :: p in procs ==> p.limits.Valid() && p.limits.dailyBudget <= dailyCap && p.limits.maxTurns <= turnCap
  }

  ghost predicate Sound(w: World, dailyCap: int, turnCap: int) {
    && LimitsOk(w.procs, dailyCap, turnCap)
    && Exclusive(w.db, w.granted)
    && Holding(w)
    && DaysOk(w.db, w.granted, w.settled, dailyCap)
    && SessionsOk(w.db, w.settled, turnCap)
  }

  ghost predicate Within(e: Event, dailyCap: int, turnCap: int) {
    e.Spawn? ==> e.limits.dailyBudget <= dailyCap && e.limits.maxTurns <= turnCap
  }

  /** The only running process, if any, is the newest run. */
  lemma AtMostOneRunning(w: World, p: nat, q: nat)
    requires Holding(w) && At(w, p).Running? && At(w, q).Running?
    ensures p == q
  {
    assert w.granted[|w.granted| - 1].pid == p;
    assert w.granted[|w.granted| - 1].pid == q;
  }

  lemma NoneRunning(w: World)
    requires Holding(w) && !SomeDayBlocked(w.db)
    ensures forall pid: nat :: !At(w, pid).Running?
  {
  }

  lemma MovedSound(w: World, pid: nat, dailyCap: int, turnCap: int)
    requires Sound(w, dailyCap, turnCap) && pid < |w.procs|
    ensures Sound(Moved(w, pid, Dead), dailyCap, turnCap)
  {
    hide DaysOk, SessionsOk, Exclusive;
    MovedLimits(w, Moved(w, pid, Dead), pid, dailyCap, turnCap);
  }

  lemma MovedLimits(w: World, n: World, pid: nat, dailyCap: int, turnCap: int)
    requires LimitsOk(w.procs, dailyCap, turnCap) && pid < |w.procs|
    requires exists p :: n.procs == w.procs[pid := p] && p.limits == w.procs[pid].limits
    ensures LimitsOk(n.procs, dailyCap, turnCap)
  {
    assert w.procs[pid] in w.procs;
    assert forall q :: q in n.procs ==> q.limits == w.procs[pid].limits || q in w.procs;
  }

  lemma GrantedSound(w: World, pid: nat, day: Day, dailyCap: int, turnCap: int)
    requires Sound(w, dailyCap, turnCap) && At(w, pid).Idle?
    requires Grantable(w.db, w.procs[pid].session, w.procs[pid].limits, w.procs[pid].isNew, day)
    ensures Sound(Asked(w, pid, day), dailyCap, turnCap)
  {
    var p := w.procs[pid];
    var n := Asked(w, pid, day);
    MovedLimits(w, n, pid, dailyCap, turnCap);
    assert p in w.procs;
    assert n.granted[..|n.granted| - 1] == w.granted;
    assert Exclusive(n.db, n.granted) by {
      hide Holding, DaysOk, SessionsOk, Grantable;
      assert !SomeDayBlocked(w.db);
      assert n.db.days[day].blocked && n.db.sessions[p.session].blocked;
    }
    assert DaysOk(n.db, n.granted, n.settled, dailyCap) by { hide Holding, SessionsOk, Exclusive; }
    assert SessionsOk(n.db, n.settled, turnCap) by { hide Holding, DaysOk, Exclusive; }
    assert Holding(n) by {
      NoneRunning(w);
      hide Holding, Exclusive, LimitsOk;
      assert forall q: nat :: At(n, q).Running? ==> q == pid || At(w, q).Running?;
      assert Charged(w.settled, day) <= Reserved(w.db, day);
      assert Turns(w.settled, p.session) == Used(w.db, p.session);
      HoldingOne(n, pid);
    }
  }

  lemma HoldingOne(w: World, pid: nat)
    requires forall q: nat :: At(w, q).Running? ==> q == pid
    requires At(w, pid).Running? ==>
      var p := w.procs[pid];
      && w.granted != [] && w.granted[|w.granted| - 1] == Grant(pid, p.session, p.phase.day, p.limits.runBudget)
      && p.phase.day in w.db.days && w.db.days[p.phase.day].blocked
      && p.session in w.db.sessions && w.db.sessions[p.session] == SessionRow(p.limits.maxTurns, true)
      && 0 <= p.phase.previous == Turns(w.settled, p.session)
      && p.phase.remaining == p.limits.maxTurns - p.phase.previous
      && Charged(w.settled, p.phase.day) + p.limits.runBudget <= Reserved(w.db, p.phase.day)
    ensures Holding(w)
  {
    assert forall q: nat :: q < |w.procs| && w.procs[q].phase.Running? ==> At(w, q).Running?;
  }

  lemma ReleasedExclusive(db: Db, granted: seq<Grant>, session: SessionId, turns: int, day: Day)
    requires Exclusive(db, granted)
    requires day in db.days && db.days[day].blocked && session in db.sessions && db.sessions[session].blocked
    ensures Exclusive(Release(db, session, turns, day), granted)
    ensures !SomeDayBlocked(Release(db, session, turns, day))
  {
  }

  lemma ReleasedDays(db: Db, granted: seq<Grant>, settled: seq<Settlement>, session: SessionId, turns: int,
                     last: Settlement, cap: int)
    requires DaysOk(db, granted, settled, cap)
    requires Charged(settled, last.day) + Charge(last.dollars) <= Reserved(db, last.day)
    ensures DaysOk(Release(db, session, turns, last.day), granted, settled + [last], cap)
  {
    assert (settled + [last])[..|settled|] == settled;
  }

  lemma ReleasedSessions(db: Db, settled: seq<Settlement>, turns: int, last: Settlement, cap: int)
    requires SessionsOk(db, settled, cap)
    requires last.session in db.sessions && 0 < last.turns
    requires turns == Turns(settled, last.session) + last.turns <= cap
    ensures SessionsOk(Release(db, last.session, turns, last.day), settled + [last], cap)
  {
    assert (settled + [last])[..|settled|] == settled;
  }

  lemma AcceptedSound(w: World, pid: nat, report: Report, dailyCap: int, turnCap: int)
    requires Sound(w, dailyCap, turnCap) && At(w, pid).Running?
    requires Acceptable(report, w.procs[pid].session, w.procs[pid].phase.remaining, w.procs[pid].limits.runBudget)
    ensures Sound(Finished(w, pid, Printed(report)), dailyCap, turnCap)
  {
    var p := w.procs[pid];
    var n := Finished(w, pid, Printed(report));
    MovedLimits(w, n, pid, dailyCap, turnCap);
    assert p in w.procs && w.granted[|w.granted| - 1].pid == pid;
    var turns, day := p.phase.previous + report.turns.value, p.phase.day;
    hide Charge;
    assert Exclusive(n.db, n.granted) by {
      hide DaysOk, SessionsOk, Acceptable, LimitsOk;
      assert w.db.days[day].blocked && w.db.sessions[p.session].blocked;
      ReleasedExclusive(w.db, w.granted, p.session, turns, day);
    }
    ReleasedDays(w.db, w.granted, w.settled, p.session, turns, n.settled[|w.settled|], dailyCap);
    ReleasedSessions(w.db, w.settled, turns, n.settled[|w.settled|], turnCap);
    assert Holding(n) by {
      hide Exclusive, DaysOk, SessionsOk, Acceptable;
      forall q: nat | At(w, q).Running? ensures q == pid { AtMostOneRunning(w, pid, q); }
      assert forall q: nat :: At(n, q).Running? ==> At(w, q).Running?;
      HoldingOne(n, pid);
    }
  }

  lemma StepSound(w: World, e: Event, dailyCap: int, turnCap: int)
    requires Sound(w, dailyCap, turnCap) && Within(e, dailyCap, turnCap)
    ensures Sound(Step(w, e), dailyCap, turnCap)
  {
    hide DaysOk, SessionsOk, Exclusive, Acceptable, Grantable;
    match e
    case Spawn(session, isNew, limits) =>
    case Ask(pid, day) =>
      hide Holding, LimitsOk;
      if At(w, pid).Idle? {
        var p := w.procs[pid];
        if Grantable(w.db, p.session, p.limits, p.isNew, day) {
          GrantedSound(w, pid, day, dailyCap, turnCap);
        } else {
          MovedSound(w, pid, dailyCap, turnCap);
        }
      }
    case Finish(pid, outcome) =>
      hide Holding, LimitsOk;
      if At(w, pid).Running? {
        var p := w.procs[pid];
        if outcome.Printed? && Acceptable(outcome.report, p.session, p.phase.remaining, p.limits.runBudget) {
          AcceptedSound(w, pid, outcome.report, dailyCap, turnCap);
        } else {
          MovedSound(w, pid, dailyCap, turnCap);
        }
      }
    case Crash(pid) =>
      hide Holding, LimitsOk;
      if pid < |w.procs| { MovedSound(w, pid, dailyCap, turnCap); }
  }

  lemma {:induction false} RunSound(events: seq<Event>, dailyCap: int, turnCap: int)
    requires forall e :: e in events ==> Within(e, dailyCap, turnCap)
    ensures Sound(Run(Empty(), events), dailyCap, turnCap)
  {
    hide Step;
    if events == [] {
    } else {
      RunSound(events[..|events| - 1], dailyCap, turnCap);
      StepSound(Run(Empty(), events[..|events| - 1]), events[|events| - 1], dailyCap, turnCap);
    }
  }

  /** Caps wide enough for every process a run spawns, so that what holds under shared
      limits can be read off runs whose processes disagree about them. */
  lemma {:induction false} SomeCaps(events: seq<Event>) returns (dailyCap: int, turnCap: int)
    ensures forall e :: e in events ==> Within(e, dailyCap, turnCap)
  {
    if events == [] {
      dailyCap, turnCap := 0, 0;
    } else {
      var last := events[|events| - 1];
      dailyCap, turnCap := SomeCaps(events[..|events| - 1]);
      assert forall e :: e in events ==> e in events[..|events| - 1] || e == last;
      if last.Spawn? && last.limits.dailyBudget > dailyCap { dailyCap := last.limits.dailyBudget; }
      if last.Spawn? && last.limits.maxTurns > turnCap { turnCap := last.limits.maxTurns; }
    }
  }

  // --- Main results ---

  /** Spending: the settled runs of a day cost no more than what they were charged,
      that no more than what the day's runs reserved, and that no more than the day's
      budget; rounding up adds less than one unit to each run. Reserved quota is never
      given back. */
  lemma DailySpending(events: seq<Event>, day: Day, dailyCap: int, turnCap: int)
    requires forall e :: e in events ==> Within(e, dailyCap, turnCap)
    ensures var w := Run(Empty(), events);
            && TrueCost(w.settled, day) * 1000000.0 <= Charged(w.settled, day) as real
            && Charged(w.settled, day) as real <= TrueCost(w.settled, day) * 1000000.0 + |w.settled| as real
            && Charged(w.settled, day) <= Reserved(w.db, day) == Budgets(w.granted, day)
            && (day in w.db.days ==> Reserved(w.db, day) <= dailyCap)
  {
    RunSound(events, dailyCap, turnCap);
    ChargesCoverCosts(Run(Empty(), events).settled, day);
  }

  /** Turns: a session that is not blocked has used exactly the turns its accepted
      reports named, and no session ever gets past its cap. */
  lemma SessionTurns(events: seq<Event>, session: SessionId, dailyCap: int, turnCap: int)
    requires forall e :: e in events ==> Within(e, dailyCap, turnCap)
    ensures var w := Run(Empty(), events);
            session in w.db.sessions ==>
              && 0 <= Turns(w.settled, session) <= w.db.sessions[session].turns <= turnCap
              && (!w.db.sessions[session].blocked ==> w.db.sessions[session].turns == Turns(w.settled, session))
  {
    RunSound(events, dailyCap, turnCap);
  }

  /** Exclusion: at any moment no row is blocked, or one day row and one session row
      are, both of the newest run; only that run's process can be running. */
  lemma OneUnresolvedRun(events: seq<Event>)
    ensures var w := Run(Empty(), events);
            && Exclusive(w.db, w.granted)
            && (forall p: nat, q: nat :: At(w, p).Running? && At(w, q).Running? ==> p == q)
            && (forall p: nat :: At(w, p).Running? ==>
                  && w.granted != [] && w.granted[|w.granted| - 1].pid == p
                  && w.procs[p].phase.day in w.db.days && w.db.days[w.procs[p].phase.day].blocked
                  && w.procs[p].session in w.db.sessions && w.db.sessions[w.procs[p].session].blocked)
  {
    var dailyCap, turnCap := SomeCaps(events);
    RunSound(events, dailyCap, turnCap);
    var w := Run(Empty(), events);
    hide Run, DaysOk, SessionsOk, Exclusive, LimitsOk;
    forall p: nat, q: nat | At(w, p).Running? && At(w, q).Running? ensures p == q {
      AtMostOneRunning(w, p, q);
    }
  }

  /** A run whose process is gone without an accepted report. */
  ghost predicate Unresolved(w: World) {
    SomeDayBlocked(w.db) && forall p: nat :: !At(w, p).Running?
  }

  lemma StaysUnresolved(w: World, e: Event)
    requires Unresolved(w)
    ensures Unresolved(Step(w, e)) && Step(w, e).db == w.db
    ensures Step(w, e).granted == w.granted && Step(w, e).settled == w.settled
    ensures e.Ask? && At(w, e.pid).Idle? ==> At(Step(w, e), e.pid).Dead?
  {
    var n := Step(w, e);
    assert forall p: nat :: At(n, p).Running? ==> At(w, p).Running?;
  }

  /** Absorption: from then on no event of any process changes a row or starts a run. */
  lemma {:induction false} UnresolvedForever(w: World, events: seq<Event>)
    requires Unresolved(w)
    ensures Unresolved(Run(w, events)) && Run(w, events).db == w.db
    ensures Run(w, events).granted == w.granted && Run(w, events).settled == w.settled
  {
    hide Step, Unresolved;
    if events == [] {
    } else {
      UnresolvedForever(w, events[..|events| - 1]);
      StaysUnresolved(Run(w, events[..|events| - 1]), events[|events| - 1]);
    }
  }

  /** A report that settles its run: of this session, without an error, within the turns
      left, and of a positive cost within the run's budget. */
  ghost predicate Settles(p: Proc, e: Event)
    requires p.phase.Running?
  {
    && e.Finish? && e.outcome.Printed?
    && var r := e.outcome.report;
       && r.session == Some(p.session) && r.clean
       && r.turns.Some? && 0 < r.turns.value <= p.phase.remaining
       && r.cost.Amount? && 0.0 < r.cost.dollars && r.cost.dollars * 1000000.0 <= p.limits.runBudget as real
  }

  lemma SettlesIs(p: Proc, e: Event)
    requires p.phase.Running?
    ensures Settles(p, e) <==> && e.Finish? && e.outcome.Printed?
                               && Acceptable(e.outcome.report, p.session, p.phase.remaining, p.limits.runBudget)
  {
    if e.Finish? && e.outcome.Printed? && e.outcome.report.cost.Amount? {
      ChargeFits(e.outcome.report.cost.dollars, p.limits.runBudget);
    }
  }

  /** A running process leaves the ledger unresolved exactly when it ends without a report
      that settles its run; otherwise nothing is blocked any more, the session has its turns
      and the day keeps what was reserved. */
  lemma EndOfRun(events: seq<Event>, e: Event)
    requires var w := Run(Empty(), events); (e.Finish? || e.Crash?) && At(w, e.pid).Running?
    ensures var w := Run(Empty(), events); var n := Step(w, e);
            && (At(n, e.pid).Dead? <==> Unresolved(n))
            && (At(n, e.pid).Idle? <==> !SomeDayBlocked(n.db))
            && (At(n, e.pid).Idle? <==> |n.settled| == |w.settled| + 1)
    ensures var w := Run(Empty(), events); var n, p := Step(w, e), w.procs[e.pid];
            && (At(n, e.pid).Idle? <==> Settles(p, e))
            && (Settles(p, e) ==>
                  && p.session in n.db.sessions && !n.procs[e.pid].isNew
                  && n.db.sessions[p.session] == SessionRow(p.phase.previous + e.outcome.report.turns.value, false)
                  && (forall day :: Reserved(n.db, day) == Reserved(w.db, day)))
            && (!Settles(p, e) ==> n.db == w.db)
  {
    SettlesIs(Run(Empty(), events).procs[e.pid], e);
    OneUnresolvedRun(events);
    var w := Run(Empty(), events);
    hide Run, Acceptable, Settles;
    var n := Step(w, e);
    var day := w.procs[e.pid].phase.day;
    assert forall p: nat :: At(n, p).Running? ==> At(w, p).Running?;
    if At(n, e.pid).Dead? {
      assert n.db.days[day].blocked;
    }
  }

  // --- The prompt loop of one process ---

  /** One prompt read by the loop, with the day it is read on and how its run ends. */
  datatype Input = Input(blank: bool, day: Day, outcome: Outcome)

  ghost function SessionEvents(inputs: seq<Input>): seq<Event> {
    if inputs == [] then []
    else
      var last := inputs[|inputs| - 1];
      SessionEvents(inputs[..|inputs| - 1])
      + if last.blank then [] else [Ask(0, last.day), Finish(0, last.outcome)]
  }

  lemma {:induction false} RunTwo(w: World, events: seq<Event>, a: Event, b: Event)
    ensures Run(w, events + [a, b]) == Step(Step(Run(w, events), a), b)
  {
    assert (events + [a, b])[..|events| + 1] == events + [a];
    assert (events + [a])[..|events|] == events;
  }

  lemma NextEvents(inputs: seq<Input>, i: nat)
    requires i < |inputs|
    ensures SessionEvents(inputs[..i + 1]) == SessionEvents(inputs[..i])
              + if inputs[i].blank then [] else [Ask(0, inputs[i].day), Finish(0, inputs[i].outcome)]
  {
    assert inputs[..i + 1][..i] == inputs[..i];
  }

  /** One turn of the loop: a blank prompt does nothing, another one asks and finishes. */
  lemma RunNext(w: World, inputs: seq<Input>, i: nat)
    requires i < |inputs|
    ensures var v := Run(w, SessionEvents(inputs[..i]));
            Run(w, SessionEvents(inputs[..i + 1]))
              == if inputs[i].blank then v else Step(Step(v, Ask(0, inputs[i].day)), Finish(0, inputs[i].outcome))
  {
    hide Step;
    NextEvents(inputs, i);
    if inputs[i].blank {
      assert SessionEvents(inputs[..i]) + [] == SessionEvents(inputs[..i]);
    } else {
      RunTwo(w, SessionEvents(inputs[..i]), Ask(0, inputs[i].day), Finish(0, inputs[i].outcome));
    }
  }

  lemma RunNone(w: World)
    ensures Run(w, SessionEvents([])) == w
  {
  }

  lemma {:induction false} DeadIgnores(w: World, inputs: seq<Input>, i: nat)
    requires i <= |inputs| && At(Run(w, SessionEvents(inputs[..i])), 0).Dead?
    ensures Run(w, SessionEvents(inputs)) == Run(w, SessionEvents(inputs[..i]))
    decreases |inputs| - i
  {
    if i == |inputs| {
      assert inputs[..i] == inputs;
    } else {
      RunNext(w, inputs, i);
      DeadIgnores(w, inputs, i + 1);
    }
  }

  /** The loop does to the ledger exactly what the events of its prompts do, and ends
      with 3 exactly when one of them leaves the process dead. */
  method RunSession(ledger: Ledger, session: SessionId, isNew: bool, limits: Limits, inputs: seq<Input>)
    returns (code: int)
    modifies ledger
    ensures var w := Run(World(old(ledger.Contents()), [Proc(session, isNew, limits, Idle)], [], []),
                         SessionEvents(inputs));
            && ledger.Contents() == w.db
            && code == if At(w, 0).Dead? then 3 else 0
  {
    hide Grantable, Hold, Acceptable, Release, Run, SessionEvents, Used;
    ghost var w0 := World(ledger.Contents(), [Proc(session, isNew, limits, Idle)], [], []);
    ghost var w := w0;
    RunNone(w0);
    assert inputs[..0] == [];
    var newSession, i := isNew, 0;
    while i < |inputs|
      invariant 0 <= i <= |inputs|
      invariant w == Run(w0, SessionEvents(inputs[..i])) && ledger.Contents() == w.db
      invariant w.procs == [Proc(session, newSession, limits, Idle)]
    {
      var input := inputs[i];
      RunNext(w0, inputs, i);
      i := i + 1;
      if input.blank {
        continue;
      }
      w := Step(Step(w, Ask(0, input.day)), Finish(0, input.outcome));
      var granted, previous, remaining := ledger.Reserve(session, limits, newSession, input.day);
      if !granted || input.outcome.Broken? {
        DeadIgnores(w0, inputs, i);
        return 3;
      }
      var accepted := ledger.Settle(session, previous, remaining, input.outcome.report, input.day, limits.runBudget);
      if !accepted {
        DeadIgnores(w0, inputs, i);
        return 3;
      }
      newSession := false;
    }
    assert inputs[..i] == inputs;
    code := 0;
  }
}
