/** Admission of manual requests: callers and the observer loop, interleaved over two channels of capacity one. */
module Admission {
  import opened Types
  import Sets

  /** How a caller's request ended. */
  datatype Ending = Busy | Withdrawn | Answered | Abandoned

  /** A caller holds the admission token until it has dispatched its call or given the token back. */
  datatype Caller = Holding | Withdrawing | Dispatched | Returned(how: Ending)

  /** The observer loop. A call taken from the channel remembers when it was received. */
  datatype Observer =
    | Top | Cycling | Selecting
    | Received(call: nat, at: Time) | CyclingFirst(call: nat, at: Time) | Handling(call: nat, at: Time)
    | Replying(call: nat) | Releasing(call: nat)
    | Stopped(left: Option<nat>)
  {
    /** The calls that the observer has taken and not yet released. */
    function Taken(): set<nat> {
      match this
      case Received(i, _) => {i}
      case CyclingFirst(i, _) => {i}
      case Handling(i, _) => {i}
      case Replying(i) => {i}
      case Releasing(i) => {i}
      case Stopped(Some(i)) => {i}
      case _ => {}
    }
  }

  /** The channels by their contents, and what has happened to each call so far. */
  datatype Sys = Sys(
    clock: Time, next: Time, callers: map<nat, Caller>, admission: nat, requests: seq<nat>, results: multiset<nat>,
    observer: Observer, admitted: nat, handled: multiset<nat>, released: multiset<nat>)

  const CAPACITY := 1

  datatype Step =
    | Tick(to: Time)
    | Arrive(i: nat) | Dispatch(i: nat) | Withdraw(i: nat) | GiveBack(i: nat) | Collect(i: nat) | Leave(i: nat)
    | Look | EndCycle(ok: bool, poll: Duration) | Expired | Receive | Check | EndFirst(ok: bool, poll: Duration)
    | EndManual | Reply | Release | Stop

  function Set(s: Sys, i: nat, c: Caller): Sys { s.(callers := s.callers[i := c]) }

  predicate Is(s: Sys, i: nat, c: Caller) { i in s.callers && s.callers[i] == c }

  /** A step that would block is not enabled; cancellation can strike at any time. */
  predicate Enabled(s: Sys, a: Step) {
    match a
    case Tick(to) => s.clock <= to
    case Arrive(i) => i !in s.callers
    case Dispatch(i) => Is(s, i, Holding) && |s.requests| < CAPACITY
    case Withdraw(i) => Is(s, i, Holding)
    case GiveBack(i) => Is(s, i, Withdrawing) && s.admission > 0
    case Collect(i) => Is(s, i, Dispatched) && s.results[i] > 0
    case Leave(i) => Is(s, i, Dispatched)
    case Look => s.observer.Top?
    case EndCycle(_, poll) => s.observer.Cycling? && poll > 0
    case Expired => s.observer.Selecting?
    case Receive => s.observer.Selecting? && s.requests != []
    case Check => s.observer.Received?
    case EndFirst(_, poll) => s.observer.CyclingFirst? && poll > 0
    case EndManual => s.observer.Handling?
    case Reply => s.observer.Replying? && s.results[s.observer.call] < CAPACITY
    case Release => s.observer.Releasing? && s.admission > 0
    case Stop => s.observer.Top? || s.observer.Selecting?
  }

  function Manual(s: Sys, i: nat, at: Time): Sys {
    s.(observer := Handling(i, at), handled := s.handled + multiset{i})
  }

  function Apply(s: Sys, a: Step): Sys
    requires Enabled(s, a)
  {
    match a
    case Tick(to) => s.(clock := to)
    case Arrive(i) =>
      if s.admission < CAPACITY then Set(s, i, Holding).(admission := s.admission + 1, admitted := s.admitted + 1)
      else Set(s, i, Returned(Busy))
    case Dispatch(i) => Set(s, i, Dispatched).(requests := s.requests + [i])
    case Withdraw(i) => Set(s, i, Withdrawing)
    case GiveBack(i) => Set(s, i, Returned(Withdrawn)).(admission := s.admission - 1, released := s.released + multiset{i})
    case Collect(i) => Set(s, i, Returned(Answered)).(results := s.results - multiset{i})
    case Leave(i) => Set(s, i, Returned(Abandoned))
    case Look => s.(observer := if s.clock >= s.next then Cycling else Selecting)
    case EndCycle(ok, poll) => if ok then s.(observer := Selecting, next := s.clock + poll) else s.(observer := Stopped(None))
    case Expired => s.(observer := Top)
    case Receive => s.(observer := Received(s.requests[0], s.clock), requests := s.requests[1..])
    case Check =>
      var i, at := s.observer.call, s.observer.at;
      if s.clock >= s.next then s.(observer := CyclingFirst(i, at)) else Manual(s, i, at)
    case EndFirst(ok, poll) =>
      var i, at := s.observer.call, s.observer.at;
      if ok then Manual(s.(next := s.clock + poll), i, at) else s.(observer := Stopped(Some(i)))
    case EndManual => s.(observer := Replying(s.observer.call))
    case Reply => s.(results := s.results + multiset{s.observer.call}, observer := Releasing(s.observer.call))
    case Release => s.(admission := s.admission - 1, released := s.released + multiset{s.observer.call}, observer := Top)
    case Stop => s.(observer := Stopped(None))
  }

  predicate Init(s: Sys) {
    && s.callers == map[] && s.admission == 0 && s.requests == [] && s.results == multiset{} && s.observer.Top?
    && s.admitted == 0 && s.handled == multiset{} && s.released == multiset{} && s.next <= s.clock
  }

  ghost predicate Run(run: seq<Sys>) {
    run != [] && Init(run[0]) && forall k :: 0 <= k < |run| - 1 ==> exists a :: Enabled(run[k], a) && run[k + 1] == Apply(run[k], a)
  }

  // ---------------------------------------------------------------- the invariant

  /** The callers that hold a token they have not dispatched. */
  function Holders(s: Sys): set<nat> {
    set i | i in s.callers && (s.callers[i].Holding? || s.callers[i].Withdrawing?)
  }

  /** Whoever has the token: its holder, the queued call, or the call being processed. */
  predicate TokenAt(s: Sys, i: nat) {
    i in Holders(s) || i in s.requests || i in s.observer.Taken()
  }

  predicate Done(o: Observer) { o.Replying? || o.Releasing? || o.Handling? }

  /** One call: where its token can be determines what can have happened to it. */
  predicate CallOK(s: Sys, i: nat) {
    && s.handled[i] <= 1 && s.released[i] <= 1 && s.results[i] <= 1
    && (i !in s.callers ==> s.handled[i] == 0 && s.released[i] == 0 && s.results[i] == 0 && !TokenAt(s, i))
    && (TokenAt(s, i) ==> s.released[i] == 0)
    && (i in Holders(s) ==> s.handled[i] == 0 && s.results[i] == 0 && i !in s.requests && i !in s.observer.Taken())
    && (i in s.requests ==> s.handled[i] == 0 && s.results[i] == 0 && i !in s.observer.Taken())
    && (i in s.observer.Taken() && !Done(s.observer) ==> s.handled[i] == 0 && s.results[i] == 0)
    && (i in s.observer.Taken() && (s.observer.Handling? || s.observer.Replying?) ==> s.results[i] == 0)
    && (i in s.callers && (s.callers[i] == Returned(Busy) || s.callers[i] == Returned(Withdrawn)) ==> s.handled[i] == 0 && !TokenAt(s, i))
  }

  ghost predicate Inv(s: Sys) {
    && s.admission == |Holders(s)| + |s.requests| + |s.observer.Taken()| <= CAPACITY
    && s.admitted == s.admission + |s.released|
    && (forall i: nat :: CallOK(s, i))
    && (s.observer.Handling? ==> s.observer.at < s.next)
    && ((s.observer.Received? || s.observer.CyclingFirst?) ==> s.observer.at <= s.clock)
  }

  /** The only place of a token: no other call has one. */
  lemma OneToken(s: Sys, i: nat, j: nat)
    requires Inv(s) && TokenAt(s, i) && TokenAt(s, j)
    ensures i == j && s.admission == 1
    ensures i in Holders(s) ==> s.requests == [] && s.observer.Taken() == {}
    ensures i in s.requests ==> s.requests == [i] && s.observer.Taken() == {}
    ensures i in s.observer.Taken() ==> s.requests == [] && Holders(s) == {}
  {
    hide CallOK;
    if i in Holders(s) { Sets.Subset({i}, Holders(s)); }
    if j in Holders(s) { Sets.Subset({j}, Holders(s)); }
    if i in Holders(s) && j in Holders(s) && i != j { Sets.Subset({i, j}, Holders(s)); }
  }

  lemma HoldersAfter(s: Sys, i: nat, c: Caller)
    ensures Holders(Set(s, i, c)) == if c.Holding? || c.Withdrawing? then Holders(s) + {i} else Holders(s) - {i}
  {
  }

  lemma CallersKeep(s: Sys, a: Step)
    requires Inv(s) && Enabled(s, a) && (a.Arrive? || a.Dispatch? || a.Withdraw? || a.GiveBack? || a.Collect? || a.Leave?)
    ensures Inv(Apply(s, a))
  {
    hide CallOK;
    var t, i := Apply(s, a), a.i;
    assert CallOK(s, i);
    HoldersAfter(s, i, t.callers[i]);
    assert Holders(t) == Holders(Set(s, i, t.callers[i]));
    assert i in Holders(s) ==> TokenAt(s, i);
    if i in Holders(s) { OneToken(s, i, i); }
    CallersCallsKeep(s, a);
  }

  lemma CallersCallsKeep(s: Sys, a: Step)
    requires Inv(s) && Enabled(s, a) && (a.Arrive? || a.Dispatch? || a.Withdraw? || a.GiveBack? || a.Collect? || a.Leave?)
    ensures forall j: nat :: CallOK(Apply(s, a), j)
  {
    hide CallOK;
    var t := Apply(s, a);
    CallerMoves(s, a);
    forall j: nat ensures CallOK(t, j) {
      assert CallOK(s, j);
      if j != a.i { OthersUntouched(s, t, a.i, j); }
    }
  }

  /** What a caller's step means for its own call. */
  lemma CallerMoves(s: Sys, a: Step)
    requires Inv(s) && Enabled(s, a) && (a.Arrive? || a.Dispatch? || a.Withdraw? || a.GiveBack? || a.Collect? || a.Leave?)
    ensures CallOK(Apply(s, a), a.i)
  {
    assert CallOK(s, a.i);
    HoldersAfter(s, a.i, Apply(s, a).callers[a.i]);
  }

  lemma OthersUntouched(s: Sys, t: Sys, i: nat, j: nat)
    requires i != j && CallOK(s, j)
    requires i in t.callers && t.callers == s.callers[i := t.callers[i]]
    requires t.requests == s.requests || t.requests == s.requests + [i]
    requires t.observer == s.observer && t.handled == s.handled && t.released[j] == s.released[j] && t.results[j] == s.results[j]
    ensures CallOK(t, j)
  {
  }

  lemma ObserverKeeps(s: Sys, a: Step)
    requires Inv(s) && Enabled(s, a) && !(a.Arrive? || a.Dispatch? || a.Withdraw? || a.GiveBack? || a.Collect? || a.Leave?)
    ensures Inv(Apply(s, a))
  {
    hide CallOK;
    var t := Apply(s, a);
    assert Holders(t) == Holders(s);
    if a.Receive? {
      assert s.requests[0] in s.requests && TokenAt(s, s.requests[0]);
      OneToken(s, s.requests[0], s.requests[0]);
    }
    if s.observer.Taken() != {} {
      var i := Sets.Pick(s.observer.Taken());
      OneToken(s, i, i);
      assert s.observer.Taken() == {i};
    }
    forall i: nat ensures CallOK(t, i) {
      assert CallOK(s, i);
      ObserverMoves(s, a, i);
    }
  }

  lemma ObserverMoves(s: Sys, a: Step, i: nat)
    requires CallOK(s, i) && Enabled(s, a) && !(a.Arrive? || a.Dispatch? || a.Withdraw? || a.GiveBack? || a.Collect? || a.Leave?)
    requires a.Receive? ==> s.requests == [s.requests[0]]
    ensures CallOK(Apply(s, a), i)
  {
    assert Holders(Apply(s, a)) == Holders(s);
  }

  lemma StepKeeps(s: Sys, a: Step)
    requires Inv(s) && Enabled(s, a)
    ensures Inv(Apply(s, a))
  {
    if a.Arrive? || a.Dispatch? || a.Withdraw? || a.GiveBack? || a.Collect? || a.Leave? {
      CallersKeep(s, a);
    } else {
      ObserverKeeps(s, a);
    }
  }

  // ---------------------------------------------------------------- over every interleaving

  lemma {:induction false} RunsKeepInv(run: seq<Sys>, k: nat)
    requires Run(run) && k < |run|
    ensures Inv(run[k])
  {
    if k == 0 {
      assert Holders(run[0]) == {};
    } else {
      RunsKeepInv(run, k - 1);
      var a :| Enabled(run[k - 1], a) && run[k] == Apply(run[k - 1], a);
      StepKeeps(run[k - 1], a);
    }
  }

  /** In every reachable state the admission channel counts exactly the undispatched holders, the queued calls
      and the call being processed, and there is never more than one of them; admissions are conserved. */
  lemma TokenConserved(run: seq<Sys>, k: nat)
    requires Run(run) && k < |run|
    ensures var s := run[k];
            && s.admission == |Holders(s)| + |s.requests| + |s.observer.Taken()| <= 1
            && s.admitted == s.admission + |s.released|
  {
    RunsKeepInv(run, k);
  }

  /** No channel operation that the protocol relies on ever blocks: the dispatch of an admitted call, the return
      of the token by either side, and the observer's answer. */
  lemma NeverBlocks(run: seq<Sys>, k: nat, i: nat)
    requires Run(run) && k < |run|
    ensures Is(run[k], i, Holding) ==> Enabled(run[k], Dispatch(i))
    ensures Is(run[k], i, Withdrawing) ==> Enabled(run[k], GiveBack(i))
    ensures run[k].observer.Replying? ==> Enabled(run[k], Reply)
    ensures run[k].observer.Releasing? ==> Enabled(run[k], Release)
  {
    hide Run;
    RunsKeepInv(run, k);
    HoldersUnblocked(run[k], i);
    ObserverUnblocked(run[k]);
  }

  lemma HoldersUnblocked(s: Sys, i: nat)
    requires Inv(s)
    ensures Is(s, i, Holding) ==> Enabled(s, Dispatch(i))
    ensures Is(s, i, Withdrawing) ==> Enabled(s, GiveBack(i))
  {
    hide CallOK;
    if i in Holders(s) { OneToken(s, i, i); }
  }

  lemma ObserverUnblocked(s: Sys)
    requires Inv(s)
    ensures s.observer.Replying? ==> Enabled(s, Reply)
    ensures s.observer.Releasing? ==> Enabled(s, Release)
  {
    hide CallOK;
    if s.observer.Replying? || s.observer.Releasing? {
      assert s.observer.call in s.observer.Taken();
      OneToken(s, s.observer.call, s.observer.call);
    }
    if s.observer.Replying? {
      NoAnswerYet(s, s.observer.call);
    }
  }

  lemma NoAnswerYet(s: Sys, j: nat)
    requires Inv(s) && j in s.observer.Taken() && s.observer.Replying?
    ensures s.results[j] == 0
  {
    assert CallOK(s, j);
  }

  /** Each call is handled at most once and its token released at most once; a caller that was turned away or
      withdrew is never handled. */
  lemma AtMostOnce(run: seq<Sys>, k: nat, i: nat)
    requires Run(run) && k < |run|
    ensures run[k].handled[i] <= 1 && run[k].released[i] <= 1
    ensures Is(run[k], i, Returned(Busy)) || Is(run[k], i, Returned(Withdrawn)) ==> run[k].handled[i] == 0
  {
    RunsKeepInv(run, k);
    assert CallOK(run[k], i);
  }

  /** Manual requests cannot starve the observer: while one is handled, the automatic deadline lies after the
      instant it was received, so a cycle that was due by then has run first. */
  lemma ObservationFirst(run: seq<Sys>, k: nat)
    requires Run(run) && k < |run| && run[k].observer.Handling?
    ensures run[k].observer.at < run[k].next
  {
    RunsKeepInv(run, k);
  }

  /** A request neither moves the automatic deadline nor overlaps an automatic cycle: deadlines change only
      when a cycle ends, and no cycle begins or ends while a request is handled. */
  lemma DeadlinesMoveWithCycles(s: Sys, a: Step)
    requires Enabled(s, a)
    ensures Apply(s, a).next != s.next ==> (s.observer.Cycling? || s.observer.CyclingFirst?) && Apply(s, a).next > s.clock
    ensures s.observer.Handling? ==> Apply(s, a).next == s.next && (Apply(s, a).observer == s.observer || Apply(s, a).observer.Replying?)
  {
  }
}
