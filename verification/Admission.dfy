/** Slots for agent turns that may run at the same time on one host. */
module Admission {

  type Window = string

  datatype Slots = Slots(observed: set<Window>, reserved: set<Window>, pending: set<Window>)

  function Occupied(s: Slots): set<Window> {
    s.observed + s.reserved
  }

  /** Whether a window gets a slot, and the slots afterwards. */
  function Acquire(s: Slots, window: Window, limit: int): (Slots, bool) {
    if limit <= 0 || window in Occupied(s) then (s, true)
    else if |Occupied(s)| >= limit then (s, false)
    else (s.(reserved := s.reserved + {window}), true)
  }

  function Submitted(s: Slots, window: Window): Slots {
    s.(reserved := s.reserved - {window}, observed := s.observed + {window})
  }

  function Released(s: Slots, window: Window): Slots {
    s.(reserved := s.reserved - {window})
  }

  function Observed(s: Slots, window: Window, active: bool): Slots {
    s.(observed := if active then s.observed + {window} else s.observed - {window})
  }

  function Forgotten(s: Slots, window: Window): Slots {
    Slots(s.observed - {window}, s.reserved - {window}, s.pending - {window})
  }

  /** Dispatch or queued work makes hibernating the window unsafe. */
  predicate Protected(s: Slots, window: Window) {
    window in s.pending || window in s.reserved
  }

  class TurnAdmissionController {
    var observedActive: set<Window>
    var reserved: set<Window>
    var pending: set<Window>

    ghost function Contents(): Slots
      reads this
    {
      Slots(observedActive, reserved, pending)
    }

    constructor ()
      ensures Contents() == Slots({}, {}, {})
    {
      observedActive, reserved, pending := {}, {}, {};
    }

    method TryAcquire(window: Window, limit: int) returns (admitted: bool)
      modifies this`reserved
      ensures (Contents(), admitted) == Acquire(old(Contents()), window, limit)
      ensures admitted <==>
                || limit <= 0 || window in observedActive || window in old(reserved)
                || |observedActive + old(reserved)| < limit
      ensures forall w :: w in reserved <==>
                w in old(reserved) || (w == window && admitted && limit > 0 && w !in observedActive)
      ensures 0 < limit && |Occupied(old(Contents()))| <= limit ==> |Occupied(Contents())| <= limit
    {
      if limit <= 0 {
        return true;
      }
      var occupied := observedActive + reserved;
      if window in occupied {
        return true;
      }
      if |occupied| >= limit {
        return false;
      }
      reserved := reserved + {window};
      assert observedActive + reserved == occupied + {window};
      admitted := true;
    }

    method MarkSubmitted(window: Window)
      modifies this`reserved, this`observedActive
      ensures Contents() == Submitted(old(Contents()), window)
      ensures forall w :: w in reserved <==> w in old(reserved) && w != window
      ensures forall w :: w in observedActive <==> w in old(observedActive) || w == window
    {
      reserved := reserved - {window};
      observedActive := observedActive + {window};
    }

    method Release(window: Window)
      modifies this`reserved
      ensures Contents() == Released(old(Contents()), window)
      ensures forall w :: w in reserved <==> w in old(reserved) && w != window
    {
      reserved := reserved - {window};
    }

    method Observe(window: Window, active: bool)
      modifies this`observedActive
      ensures Contents() == Observed(old(Contents()), window, active)
      ensures forall w :: w in observedActive <==> if w == window then active else w in old(observedActive)
    {
      if active {
        observedActive := observedActive + {window};
      } else {
        observedActive := observedActive - {window};
      }
    }

    method Forget(window: Window)
      modifies this
      ensures Contents() == Forgotten(old(Contents()), window)
      ensures forall w :: w in observedActive <==> w in old(observedActive) && w != window
      ensures forall w :: w in reserved <==> w in old(reserved) && w != window
      ensures forall w :: w in pending <==> w in old(pending) && w != window
    {
      observedActive := observedActive - {window};
      reserved := reserved - {window};
      pending := pending - {window};
    }

    method SetPending(window: Window, isPending: bool)
      modifies this`pending
      ensures forall w :: w in pending <==> if w == window then isPending else w in old(pending)
    {
      pending := if isPending then pending + {window} else pending - {window};
    }

    method IsProtected(window: Window) returns (isProtected: bool)
      ensures isProtected <==> Protected(Contents(), window)
      ensures isProtected <==> window in pending || window in reserved
    {
      isProtected := window in pending || window in reserved;
    }
  }

  // --- The dispatchers ---

  /** `holding` counts, for each window, the dispatchers between a granted admission and
      the outcome of their send. */
  datatype State = State(slots: Slots, holding: multiset<Window>)

  /** `Dispatch` clears the window's observation and asks for a slot in one go. The status
      poller sees windows active, idle or gone whatever the dispatchers are doing. */
  datatype Event =
    | Dispatch(window: Window)
    | Sent(window: Window)
    | Failed(window: Window)
    | SeenActive(window: Window)
    | SeenIdle(window: Window)
    | Gone(window: Window)

  ghost predicate Enabled(s: State, e: Event) {
    e.Sent? || e.Failed? ==> e.window in s.holding
  }

  ghost function Step(s: State, e: Event, limit: int): State {
    match e
    case Dispatch(w) =>
      var (slots, admitted) := Acquire(Observed(s.slots, w, false), w, limit);
      State(slots, if admitted then s.holding + multiset{w} else s.holding)
    case Sent(w) => State(Submitted(s.slots, w), s.holding - multiset{w})
    case Failed(w) => State(Released(s.slots, w), s.holding - multiset{w})
    case SeenActive(w) => s.(slots := Observed(s.slots, w, true))
    case SeenIdle(w) => s.(slots := Observed(s.slots, w, false))
    case Gone(w) => s.(slots := Forgotten(s.slots, w))
  }

  ghost function Run(s: State, events: seq<Event>, limit: int): State {
    if events == [] then s else Step(Run(s, events[..|events| - 1], limit), events[|events| - 1], limit)
  }

  ghost function Start(): State {
    State(Slots({}, {}, {}), multiset{})
  }

  ghost function Before(events: seq<Event>, limit: int, k: nat): State
    requires k <= |events|
  {
    Run(Start(), events[..k], limit)
  }

  ghost predicate Possible(events: seq<Event>, limit: int) {
    forall k :: 0 <= k < |events| ==> Enabled(Before(events, limit, k), events[k])
  }

  lemma RunPrefix(events: seq<Event>, limit: int, n: nat)
    requires n < |events|
    ensures Before(events, limit, n + 1) == Step(Before(events, limit, n), events[n], limit)
  {
    assert events[..n + 1][..n] == events[..n];
  }

  // --- When the bound holds ---

  /** While every slot is taken, a window without one is seen active, or finishes its
      send although its slot was forgotten meanwhile. */
  ghost predicate Overflows(s: State, e: Event, limit: int) {
    (e.SeenActive? || e.Sent?) && e.window !in Occupied(s.slots) && |Occupied(s.slots)| >= limit
  }

  /** One step keeps the bound exactly when it does not overflow. */
  lemma StepBound(s: State, e: Event, limit: int)
    requires limit > 0 && |Occupied(s.slots)| <= limit
    ensures |Occupied(Step(s, e, limit).slots)| <= limit <==> !Overflows(s, e, limit)
  {
    if e.Dispatch? {
      DispatchBound(s, e.window, limit);
    } else if e.Sent? || e.SeenActive? {
      Occupies(s, e, limit);
    } else {
      var before, after := Occupied(s.slots), Occupied(Step(s, e, limit).slots);
      assert after <= before;
      hide Occupied, Step;
      Shrinks(after, before);
    }
  }

  lemma Occupies(s: State, e: Event, limit: int)
    requires limit > 0 && |Occupied(s.slots)| <= limit && (e.Sent? || e.SeenActive?)
    ensures |Occupied(Step(s, e, limit).slots)| <= limit <==> !Overflows(s, e, limit)
  {
    assert Occupied(Step(s, e, limit).slots) == Occupied(s.slots) + {e.window};
    hide Occupied, Step;
  }

  lemma DispatchBound(s: State, w: Window, limit: int)
    requires limit > 0 && |Occupied(s.slots)| <= limit
    ensures |Occupied(Step(s, Dispatch(w), limit).slots)| <= limit
  {
    var seen := Observed(s.slots, w, false);
    Shrinks(Occupied(seen), Occupied(s.slots));
    assert Occupied(seen.(reserved := seen.reserved + {w})) == Occupied(seen) + {w};
  }

  lemma Shrinks(a: set<Window>, b: set<Window>)
    requires a <= b
    ensures |a| <= |b|
  {
    assert b == a + (b - a);
  }

  ghost predicate WithinLimit(events: seq<Event>, limit: int, n: nat)
    requires n <= |events|
  {
    |Occupied(Before(events, limit, n).slots)| <= limit
  }

  ghost predicate OverflowsAt(events: seq<Event>, limit: int, k: nat)
    requires k < |events|
  {
    Overflows(Before(events, limit, k), events[k], limit)
  }

  lemma StepWithin(events: seq<Event>, limit: int, n: nat)
    requires limit > 0 && n < |events| && WithinLimit(events, limit, n)
    ensures WithinLimit(events, limit, n + 1) <==> !OverflowsAt(events, limit, n)
  {
    hide Run, Step, Overflows;
    RunPrefix(events, limit, n);
    StepBound(Before(events, limit, n), events[n], limit);
  }

  lemma {:induction false} WithinUpTo(events: seq<Event>, limit: int, n: nat)
    requires limit > 0 && n <= |events|
    requires forall k :: 0 <= k < |events| ==> !OverflowsAt(events, limit, k)
    ensures WithinLimit(events, limit, n)
  {
    if n == 0 {
      assert events[..0] == [];
    } else {
      WithinUpTo(events, limit, n - 1);
      hide OverflowsAt, WithinLimit;
      StepWithin(events, limit, n - 1);
    }
  }

  /** Over any run of any number of dispatchers, with windows seen active, idle or gone at
      any moment, the occupied set stays within the limit for exactly as long as no event
      overflows. */
  lemma AdmissionBound(events: seq<Event>, limit: int)
    requires limit > 0 && Possible(events, limit)
    ensures (forall n :: 0 <= n <= |events| ==> WithinLimit(events, limit, n))
       <==> (forall k :: 0 <= k < |events| ==> !OverflowsAt(events, limit, k))
  {
    hide Possible, Run, OverflowsAt, WithinLimit;
    if forall n :: 0 <= n <= |events| ==> WithinLimit(events, limit, n) {
      forall k | 0 <= k < |events| ensures !OverflowsAt(events, limit, k) {
        assert WithinLimit(events, limit, k) && WithinLimit(events, limit, k + 1);
        StepWithin(events, limit, k);
      }
    }
    if forall k :: 0 <= k < |events| ==> !OverflowsAt(events, limit, k) {
      forall n | 0 <= n <= |events| ensures WithinLimit(events, limit, n) {
        WithinUpTo(events, limit, n);
      }
    }
  }

  /** One dispatcher at a time for each window, only occupied windows seen active, and no
      window gone under its dispatcher. */
  ghost predicate Disciplined(s: State, e: Event) {
    && (e.Dispatch? || e.Gone? ==> e.window !in s.holding)
    && (e.SeenActive? ==> e.window in Occupied(s.slots))
  }

  ghost predicate DisciplinedRun(events: seq<Event>, limit: int) {
    Possible(events, limit) && forall k :: 0 <= k < |events| ==> Disciplined(Before(events, limit, k), events[k])
  }

  /** Every dispatcher that holds an admission has its slot, and is alone at its window. */
  ghost predicate Held(s: State) {
    forall w :: (w in s.holding ==> w in s.slots.reserved) && s.holding[w] <= 1
  }

  lemma {:induction false} HeldPrefix(events: seq<Event>, limit: int, n: nat)
    requires limit > 0 && DisciplinedRun(events, limit) && n <= |events|
    ensures Held(Before(events, limit, n))
  {
    if n == 0 {
      assert events[..0] == [];
    } else {
      HeldPrefix(events, limit, n - 1);
      RunPrefix(events, limit, n - 1);
      var s, e := Before(events, limit, n - 1), events[n - 1];
      assert Enabled(s, e) && Disciplined(s, e);
      hide Run, DisciplinedRun;
      StepHeld(s, e, limit);
    }
  }

  lemma StepHeld(s: State, e: Event, limit: int)
    requires limit > 0 && Held(s) && Enabled(s, e) && Disciplined(s, e)
    ensures Held(Step(s, e, limit)) && !Overflows(s, e, limit)
  {
  }

  /** A window whose dispatcher is at work is protected from hibernation. */
  lemma HeldIsProtected(events: seq<Event>, limit: int, n: nat, w: Window)
    requires limit > 0 && DisciplinedRun(events, limit) && n <= |events|
    requires w in Before(events, limit, n).holding
    ensures Protected(Before(events, limit, n).slots, w)
  {
    HeldPrefix(events, limit, n);
  }

  /** Disciplined runs never exceed the limit. */
  lemma DisciplinedBound(events: seq<Event>, limit: int, n: nat)
    requires limit > 0 && DisciplinedRun(events, limit) && n <= |events|
    ensures |Occupied(Before(events, limit, n).slots)| <= limit
  {
    forall k | 0 <= k < |events| ensures !OverflowsAt(events, limit, k) {
      HeldPrefix(events, limit, k);
      assert Enabled(Before(events, limit, k), events[k]) && Disciplined(Before(events, limit, k), events[k]);
      hide Run;
      StepHeld(Before(events, limit, k), events[k], limit);
    }
    WithinUpTo(events, limit, n);
  }

  /** A window that the status poller forgets under its dispatcher takes no slot any more,
      and one too many once its send is through: with one slot two windows end up in it. */
  lemma ForgottenWhileSending(a: Window, b: Window)
    requires a != b
    ensures var events := [Dispatch(a), Gone(a), Dispatch(b), Sent(a)];
            && Possible(events, 1)
            && |Occupied(Before(events, 1, 4).slots)| == 2
            && OverflowsAt(events, 1, 3)
  {
    var events := [Dispatch(a), Gone(a), Dispatch(b), Sent(a)];
    assert events[..0] == [];
    RunPrefix(events, 1, 0);
    RunPrefix(events, 1, 1);
    RunPrefix(events, 1, 2);
    RunPrefix(events, 1, 3);
    hide Run;
    var s1, s2 := State(Slots({}, {a}, {}), multiset{a}), State(Slots({}, {}, {}), multiset{a});
    var s3, s4 := State(Slots({}, {b}, {}), multiset{a, b}), State(Slots({a}, {b}, {}), multiset{b});
    ForgottenSteps(a, b);
    assert Before(events, 1, 0) == Start() by { StartIsFirst(events); }
    assert Before(events, 1, 1) == s1;
    assert Before(events, 1, 2) == s2;
    assert Before(events, 1, 3) == s3;
    assert Before(events, 1, 4) == s4;
    hide Step;
    assert Occupied(s3.slots) == {b} && Occupied(s4.slots) == {a, b};
  }

  lemma StartIsFirst(events: seq<Event>)
    ensures Before(events, 1, 0) == Start()
  {
  }

  lemma ForgottenSteps(a: Window, b: Window)
    requires a != b
    ensures var s1, s2 := State(Slots({}, {a}, {}), multiset{a}), State(Slots({}, {}, {}), multiset{a});
            var s3, s4 := State(Slots({}, {b}, {}), multiset{a, b}), State(Slots({a}, {b}, {}), multiset{b});
            && Step(Start(), Dispatch(a), 1) == s1 && Step(s1, Gone(a), 1) == s2
            && Step(s2, Dispatch(b), 1) == s3 && Step(s3, Sent(a), 1) == s4
  {
    assert |Occupied(Slots({}, {}, {}))| == 0;
  }
}
