/** The explorer's refresh coalescer: debounced runs per scope, one at a time, with a re-run for requests that
    arrive during a run. Its steps are the callbacks the event loop makes. */
module RefreshCoalescing {

  type Scope = string

  /** The coalescer's maps and sets, with what the event loop holds for it: armed timers, zero-delay calls of
      `execute` that are due, and runs in progress. */
  datatype State = State(
    timers: map<Scope, nat>,
    inflight: set<Scope>,
    pending: set<Scope>,
    armed: map<nat, Scope>,
    nextTimer: nat,
    due: multiset<Scope>,
    running: multiset<Scope>)

  const IDLE := State(map[], {}, {}, map[], 0, multiset{}, multiset{})

  datatype Event = Schedules(scope: Scope) | Fires(timer: nat) | ComesDue(scope: Scope) | Settles(scope: Scope)

  predicate Enabled(s: State, e: Event) {
    match e
    case Schedules(_) => true
    case Fires(t) => t in s.armed
    case ComesDue(scope) => scope in s.due
    case Settles(scope) => scope in s.running
  }

  function Scheduled(s: State, scope: Scope): State {
    if scope in s.inflight then s.(pending := s.pending + {scope})
    else
      var armed := if scope in s.timers then s.armed - {s.timers[scope]} else s.armed;
      s.(timers := s.timers[scope := s.nextTimer], armed := armed[s.nextTimer := scope], nextTimer := s.nextTimer + 1)
  }

  function Executed(s: State, scope: Scope): State {
    if scope in s.inflight then s.(pending := s.pending + {scope})
    else s.(inflight := s.inflight + {scope}, running := s.running + multiset{scope})
  }

  function Settled(s: State, scope: Scope): State {
    var t := s.(running := s.running - multiset{scope}, inflight := s.inflight - {scope});
    if scope in s.pending then t.(pending := s.pending - {scope}, due := s.due + multiset{scope}) else t
  }

  function Next(s: State, e: Event): State
    requires Enabled(s, e)
  {
    match e
    case Schedules(scope) => Scheduled(s, scope)
    case Fires(t) => Executed(s.(armed := s.armed - {t}, timers := s.timers - {s.armed[t]}), s.armed[t])
    case ComesDue(scope) => Executed(s.(due := s.due - multiset{scope}), scope)
    case Settles(scope) => Settled(s, scope)
  }

  ghost predicate IsRun(events: seq<Event>, states: seq<State>) {
    && |states| == |events| + 1 && states[0] == IDLE
    && forall i :: 0 <= i < |events| ==> Enabled(states[i], events[i]) && states[i + 1] == Next(states[i], events[i])
  }

  // ---------- the coalescer ----------

  /** What is outstanding at the event loop. */
  class EventLoop {
    var armed: map<nat, Scope>
    var nextTimer: nat
    var due: multiset<Scope>
    var running: multiset<Scope>

    constructor ()
      ensures armed == map[] && nextTimer == 0 && due == multiset{} && running == multiset{}
    {
      armed, nextTimer, due, running := map[], 0, multiset{}, multiset{};
    }

    method SetTimeout(scope: Scope) returns (timer: nat)
      modifies this
      ensures timer == old(nextTimer) && nextTimer == timer + 1 && armed == old(armed)[timer := scope]
      ensures due == old(due) && running == old(running)
    {
      timer := nextTimer;
      nextTimer := nextTimer + 1;
      armed := armed[timer := scope];
    }

    method ClearTimeout(timer: nat)
      modifies this
      ensures armed == old(armed) - {timer}
      ensures nextTimer == old(nextTimer) && due == old(due) && running == old(running)
    {
      armed := armed - {timer};
    }
  }

  class RefreshCoalescer {
    var timers: map<Scope, nat>
    var inflight: set<Scope>
    var pending: set<Scope>
    const loop: EventLoop

    constructor ()
      ensures fresh(loop) && Now() == IDLE
    {
      timers, inflight, pending := map[], {}, {};
      loop := new EventLoop();
    }

    ghost function Now(): State
      reads this, loop
    {
      State(timers, inflight, pending, loop.armed, loop.nextTimer, loop.due, loop.running)
    }

    method Schedule(scope: Scope)
      modifies this, loop
      ensures Now() == Next(old(Now()), Schedules(scope))
    {
      if scope in inflight {
        pending := pending + {scope};
        return;
      }
      if scope in timers {
        loop.ClearTimeout(timers[scope]);
      }
      var timer := loop.SetTimeout(scope);
      timers := timers[scope := timer];
    }

    /** The callback of a timer. */
    method OnTimer(timer: nat)
      requires timer in loop.armed
      modifies this, loop
      ensures Now() == Next(old(Now()), Fires(timer))
    {
      var scope := loop.armed[timer];
      loop.ClearTimeout(timer);
      timers := timers - {scope};
      Execute(scope);
    }

    /** The callback of a zero-delay re-run. */
    method OnDue(scope: Scope)
      requires scope in loop.due
      modifies this, loop
      ensures Now() == Next(old(Now()), ComesDue(scope))
    {
      loop.due := loop.due - multiset{scope};
      Execute(scope);
    }

    method Execute(scope: Scope)
      modifies this, loop
      ensures Now() == Executed(old(Now()), scope)
    {
      if scope in inflight {
        pending := pending + {scope};
        return;
      }
      inflight := inflight + {scope};
      loop.running := loop.running + multiset{scope};
    }

    /** A run has ended, in success or failure. */
    method OnSettled(scope: Scope)
      requires scope in loop.running
      modifies this, loop
      ensures Now() == Next(old(Now()), Settles(scope))
    {
      loop.running := loop.running - multiset{scope};
      inflight := inflight - {scope};
      if scope in pending {
        pending := pending - {scope};
        loop.due := loop.due + multiset{scope};
      }
    }
  }

  // ---------- safety ----------

  /** The timers of the map are exactly the armed ones, one to a scope. */
  ghost predicate TimersAgree(s: State) {
    && (forall scope :: scope in s.timers ==> s.timers[scope] in s.armed && s.armed[s.timers[scope]] == scope)
    && (forall t :: t in s.armed ==> t < s.nextTimer && s.armed[t] in s.timers && s.timers[s.armed[t]] == t)
  }

  /** At most one run of a scope is in progress, and exactly then it is in flight. */
  ghost predicate OneRunEach(s: State) {
    forall scope :: s.running[scope] == if scope in s.inflight then 1 else 0
  }

  ghost predicate Safe(s: State) {
    TimersAgree(s) && OneRunEach(s) && s.pending <= s.inflight
  }

  lemma TimersStep(s: State, e: Event)
    requires TimersAgree(s) && Enabled(s, e)
    ensures TimersAgree(Next(s, e))
  {
  }

  lemma RunsStep(s: State, e: Event)
    requires OneRunEach(s) && s.pending <= s.inflight && Enabled(s, e)
    ensures OneRunEach(Next(s, e)) && Next(s, e).pending <= Next(s, e).inflight
  {
  }

  /** In every state of every run no scope has two runs in flight, and what is pending is in flight. */
  lemma {:induction false} AlwaysSafe(events: seq<Event>, states: seq<State>, i: int)
    requires IsRun(events, states) && 0 <= i < |states|
    ensures Safe(states[i])
  {
    if i > 0 {
      hide Next;
      AlwaysSafe(events, states, i - 1);
      TimersStep(states[i - 1], events[i - 1]);
      RunsStep(states[i - 1], events[i - 1]);
    }
  }

  // ---------- no refresh is lost ----------

  /** The event starts a run of the scope. */
  predicate Starts(s: State, e: Event, scope: Scope)
    requires Enabled(s, e)
  {
    scope !in s.inflight && (e == ComesDue(scope) || (e.Fires? && s.armed[e.timer] == scope))
  }

  /** Something is outstanding that will start a run: a timer, a re-run that is due, or a run in progress that
      will be followed by another. */
  ghost predicate Owed(s: State, scope: Scope) {
    || (scope in s.timers && s.timers[scope] in s.armed && s.armed[s.timers[scope]] == scope)
    || scope in s.due
    || (scope in s.pending && scope in s.inflight && scope in s.running)
  }

  lemma ScheduleOwes(s: State, scope: Scope)
    requires Safe(s)
    ensures Owed(Next(s, Schedules(scope)), scope)
  {
  }

  lemma OwedUntilStart(s: State, e: Event, scope: Scope)
    requires Safe(s) && Enabled(s, e) && Owed(s, scope) && !Starts(s, e, scope)
    ensures Owed(Next(s, e), scope)
  {
  }

  /** After every schedule, until a run of its scope starts, one is owed. */
  lemma {:induction false} NoRefreshIsLost(events: seq<Event>, states: seq<State>, i: int, j: int, scope: Scope)
    requires IsRun(events, states) && 0 <= i < j < |states| && events[i] == Schedules(scope)
    requires forall k :: i < k < j ==> !Starts(states[k], events[k], scope)
    ensures Owed(states[j], scope)
    decreases j
  {
    hide Next, Owed, Safe;
    AlwaysSafe(events, states, j - 1);
    if j == i + 1 {
      ScheduleOwes(states[i], scope);
    } else {
      NoRefreshIsLost(events, states, i, j - 1, scope);
      OwedUntilStart(states[j - 1], events[j - 1], scope);
    }
  }

  /** Nothing outstanding at the event loop for the scope. */
  predicate Quiet(s: State, scope: Scope) {
    (forall t :: t in s.armed ==> s.armed[t] != scope) && scope !in s.due && scope !in s.running
  }

  /** When a scope has gone quiet, every schedule of it was followed by the start of a run. */
  lemma QuietMeansServed(events: seq<Event>, states: seq<State>, i: int, j: int, scope: Scope)
    requires IsRun(events, states) && 0 <= i < j < |states| && events[i] == Schedules(scope) && Quiet(states[j], scope)
    ensures exists k :: i < k < j && Starts(states[k], events[k], scope)
  {
    hide Next;
    if forall k :: i < k < j ==> !Starts(states[k], events[k], scope) {
      NoRefreshIsLost(events, states, i, j, scope);
    }
  }

  // ---------- no run without a refresh ----------

  /** How many starts of the scope's run are owed. */
  function Owing(s: State, scope: Scope): nat {
    (if scope in s.timers then 1 else 0) + s.due[scope] + (if scope in s.pending then 1 else 0)
  }

  ghost function StartCount(events: seq<Event>, states: seq<State>, scope: Scope, n: nat): nat
    requires IsRun(events, states) && n <= |events|
  {
    if n == 0 then 0
    else StartCount(events, states, scope, n - 1) + if Starts(states[n - 1], events[n - 1], scope) then 1 else 0
  }

  function ScheduleCount(events: seq<Event>, scope: Scope, n: nat): nat
    requires n <= |events|
  {
    if n == 0 then 0 else ScheduleCount(events, scope, n - 1) + if events[n - 1] == Schedules(scope) then 1 else 0
  }

  lemma OwingStep(s: State, e: Event, scope: Scope)
    requires Safe(s) && Enabled(s, e)
    ensures Owing(Next(s, e), scope) + (if Starts(s, e, scope) then 1 else 0)
            <= Owing(s, scope) + if e == Schedules(scope) then 1 else 0
  {
  }

  /** At every moment of every run, the runs started and those owed are together no more than the refreshes
      scheduled. */
  lemma {:induction false} StartsAreScheduled(events: seq<Event>, states: seq<State>, scope: Scope, n: nat)
    requires IsRun(events, states) && n <= |events|
    ensures StartCount(events, states, scope, n) + Owing(states[n], scope) <= ScheduleCount(events, scope, n)
  {
    hide Next, Owing, Safe, Starts;
    if n == 0 {
      assert Owing(IDLE, scope) == 0 by { IdleOwesNothing(scope); }
    } else {
      StartsAreScheduled(events, states, scope, n - 1);
      AlwaysSafe(events, states, n - 1);
      OwingStep(states[n - 1], events[n - 1], scope);
    }
  }

  lemma IdleOwesNothing(scope: Scope)
    ensures Owing(IDLE, scope) == 0
  {
  }
}
