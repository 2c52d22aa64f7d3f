/** The webview's message bridge: requests that await a reply, and what may settle them: an ack, an error, the
    time limit, a newer request with the same abort key, or the unloading of the view. */
module Messaging {
  import opened Prelude

  /** The id of a request: the clock when it was made, and its number. */
  datatype Id = Id(now: int, number: nat)

  /** An absent abort key is the empty one. */
  datatype Pending = Pending(abortKey: string, timer: nat)

  datatype Outcome = Acked | Failed | TimedOut | Superseded | Unloaded

  /** The bridge's maps with the timers armed for it, and the history: ids handed out, how often each was
      settled and how last, and the ids of requests whose posting threw. */
  datatype State = State(
    seqNo: nat,
    pend: map<Id, Pending>,
    byAbortKey: map<string, Id>,
    armed: map<nat, Id>,
    nextTimer: nat,
    issued: set<Id>,
    settled: multiset<Id>,
    outcome: map<Id, Outcome>,
    thrown: set<Id>)

  const NEW := State(0, map[], map[], map[], 0, {}, multiset{}, map[], {})

  datatype Event =
    | Requests(now: int, abortKey: string, posts: bool)
    | Acks(id: Id)
    | Errs(id: Id)
    | Fires(timer: nat)
    | Unloads

  function Cleaned(s: State, id: Id): State {
    if id !in s.pend then s else
      var p := s.pend[id];
      s.(armed := s.armed - {p.timer},
         byAbortKey := if p.abortKey != "" && p.abortKey in s.byAbortKey && s.byAbortKey[p.abortKey] == id
                       then s.byAbortKey - {p.abortKey} else s.byAbortKey,
         pend := s.pend - {id})
  }

  function SettledAs(s: State, id: Id, o: Outcome): State {
    if id !in s.pend then s else Cleaned(s.(settled := s.settled + multiset{id}, outcome := s.outcome[id := o]), id)
  }

  /** The new request takes over the abort key; an older one that holds it is rejected. */
  function KeyTaken(s: State, abortKey: string, id: Id): State {
    if abortKey == "" then s
    else
      var t := if abortKey in s.byAbortKey then SettledAs(s, s.byAbortKey[abortKey], Superseded) else s;
      t.(byAbortKey := t.byAbortKey[abortKey := id])
  }

  function Awaited(s: State, abortKey: string, id: Id): State {
    s.(pend := s.pend[id := Pending(abortKey, s.nextTimer)], armed := s.armed[s.nextTimer := id], nextTimer := s.nextTimer + 1)
  }

  function Requested(s: State, now: int, abortKey: string, posts: bool): State {
    var id := Id(now, s.seqNo + 1);
    var t := KeyTaken(s.(seqNo := id.number, issued := s.issued + {id}), abortKey, id);
    if posts then Awaited(t, abortKey, id) else t.(thrown := t.thrown + {id})
  }

  /** Everything pending is rejected; no timer is left, and of the abort keys those that led to nothing. */
  ghost function AllUnloaded(s: State): State {
    s.(settled := s.settled + multiset(s.pend.Keys),
       outcome := s.outcome + map id | id in s.pend :: Unloaded,
       armed := map[],
       byAbortKey := map k | k in s.byAbortKey && s.byAbortKey[k] !in s.pend :: s.byAbortKey[k],
       pend := map[])
  }

  predicate Enabled(s: State, e: Event) {
    e.Fires? ==> e.timer in s.armed
  }

  ghost function Next(s: State, e: Event): State
    requires Enabled(s, e)
  {
    match e
    case Requests(now, abortKey, posts) => Requested(s, now, abortKey, posts)
    case Acks(id) => SettledAs(s, id, Acked)
    case Errs(id) => SettledAs(s, id, Failed)
    case Fires(t) => SettledAs(s.(armed := s.armed - {t}), s.armed[t], TimedOut)
    case Unloads => AllUnloaded(s)
  }

  ghost predicate IsRun(events: seq<Event>, states: seq<State>) {
    && |states| == |events| + 1 && states[0] == NEW
    && forall i :: 0 <= i < |events| ==> Enabled(states[i], events[i]) && states[i + 1] == Next(states[i], events[i])
  }

  // ---------- the bridge ----------

  class Bridge {
    var seqNo: nat
    var pend: map<Id, Pending>
    var byAbortKey: map<string, Id>
    var armed: map<nat, Id>
    var nextTimer: nat
    ghost var issued: set<Id>
    ghost var settled: multiset<Id>
    ghost var outcome: map<Id, Outcome>
    ghost var thrown: set<Id>

    constructor ()
      ensures Now() == NEW
    {
      seqNo, pend, byAbortKey, armed, nextTimer := 0, map[], map[], map[], 0;
      issued, settled, outcome, thrown := {}, multiset{}, map[], {};
    }

    ghost function Now(): State
      reads this
    {
      State(seqNo, pend, byAbortKey, armed, nextTimer, issued, settled, outcome, thrown)
    }

    method CleanupPending(id: Id)
      modifies this
      ensures Now() == Cleaned(old(Now()), id)
    {
      if id !in pend {
        return;
      }
      var p := pend[id];
      armed := armed - {p.timer};
      if p.abortKey != "" && p.abortKey in byAbortKey && byAbortKey[p.abortKey] == id {
        byAbortKey := byAbortKey - {p.abortKey};
      }
      pend := pend - {id};
    }

    /** Resolves or rejects a request that is pending; any other is let be. */
    method Settle(id: Id, o: Outcome)
      modifies this
      ensures Now() == SettledAs(old(Now()), id, o)
    {
      if id in pend {
        settled := settled + multiset{id};
        outcome := outcome[id := o];
        CleanupPending(id);
      }
    }

    method TakeKey(abortKey: string, id: Id)
      modifies this
      ensures Now() == KeyTaken(old(Now()), abortKey, id)
    {
      hide SettledAs;
      if abortKey != "" {
        if abortKey in byAbortKey {
          Settle(byAbortKey[abortKey], Superseded);
        }
        byAbortKey := byAbortKey[abortKey := id];
      }
    }

    method Request(now: int, abortKey: string, posts: bool) returns (id: Id)
      modifies this
      ensures Now() == Next(old(Now()), Requests(now, abortKey, posts)) && id == Id(now, old(seqNo) + 1)
    {
      hide KeyTaken, Awaited;
      seqNo := seqNo + 1;
      id := Id(now, seqNo);
      issued := issued + {id};
      TakeKey(abortKey, id);
      if !posts {
        thrown := thrown + {id};
        return;
      }
      Await(abortKey, id);
    }

    /** The promise: a timer and the entry that an answer will find. */
    method Await(abortKey: string, id: Id)
      modifies this
      ensures Now() == Awaited(old(Now()), abortKey, id)
    {
      armed := armed[nextTimer := id];
      pend := pend[id := Pending(abortKey, nextTimer)];
      nextTimer := nextTimer + 1;
    }

    /** A message from the host: an ack or an error in reply to a request. */
    method OnReply(id: Id, ack: bool)
      modifies this
      ensures Now() == Next(old(Now()), if ack then Acks(id) else Errs(id))
    {
      hide SettledAs;
      Settle(id, if ack then Acked else Failed);
    }

    method OnTimer(timer: nat)
      requires timer in armed
      modifies this
      ensures Now() == Next(old(Now()), Fires(timer))
    {
      var id := armed[timer];
      armed := armed - {timer};
      Settle(id, TimedOut);
    }

    method OnUnload()
      requires Consistent(Now())
      modifies this
      ensures Now() == Next(old(Now()), Unloads)
    {
      hide Halfway, SettledAs, AllUnloaded, Consistent;
      HalfwayStarts(Now());
      var left := pend.Keys;
      while left != {}
        invariant left == pend.Keys && Halfway(old(Now()), Now())
        decreases |left|
      {
        var id :| id in left;
        HalfwayStep(old(Now()), Now(), id);
        SettlingRemoves(Now(), id, Unloaded);
        Settle(id, Unloaded);
        left := left - {id};
      }
      HalfwayEnds(old(Now()), Now());
    }
  }

  // ---------- the maps and timers agree ----------

  /** A pending request holds its abort key and its timer. */
  ghost predicate HoldsItsOwn(s: State, id: Id)
    requires id in s.pend
  {
    var p := s.pend[id];
    && (p.abortKey != "" ==> p.abortKey in s.byAbortKey && s.byAbortKey[p.abortKey] == id)
    && p.timer in s.armed && s.armed[p.timer] == id
  }

  /** An abort key leads to a pending request of that key, or to one whose posting threw. */
  ghost predicate KeyLeads(s: State, k: string)
    requires k in s.byAbortKey
  {
    var id := s.byAbortKey[k];
    k != "" && if id in s.pend then s.pend[id].abortKey == k else id in s.thrown
  }

  ghost predicate TimerLeads(s: State, t: nat)
    requires t in s.armed
  {
    t < s.nextTimer && s.armed[t] in s.pend && s.pend[s.armed[t]].timer == t
  }

  ghost predicate Consistent(s: State) {
    && (forall id :: id in s.pend ==> HoldsItsOwn(s, id))
    && (forall k :: k in s.byAbortKey ==> KeyLeads(s, k))
    && (forall t :: t in s.armed ==> TimerLeads(s, t))
  }

  /** A request is pending, or settled once, or was never posted; and it is exactly one of these. */
  ghost predicate OneFate(s: State, id: Id) {
    && (id in s.issued ==> id.number <= s.seqNo)
    && (if id in s.pend then 1 else 0) + s.settled[id] + (if id in s.thrown then 1 else 0) == (if id in s.issued then 1 else 0)
    && (id in s.outcome <==> s.settled[id] == 1)
  }

  ghost predicate Accounted(s: State) {
    forall id :: OneFate(s, id)
  }

  // ---------- steps ----------

  lemma CleaningIsConsistent(s: State, id: Id)
    requires Consistent(s)
    ensures Consistent(Cleaned(s, id))
  {
    if id in s.pend {
      var t := Cleaned(s, id);
      assert HoldsItsOwn(s, id);
      forall other | other in t.pend
        ensures HoldsItsOwn(t, other)
      {
        assert HoldsItsOwn(s, other);
      }
      forall k | k in t.byAbortKey
        ensures KeyLeads(t, k)
      {
        assert KeyLeads(s, k);
      }
      forall timer | timer in t.armed
        ensures TimerLeads(t, timer)
      {
        assert TimerLeads(s, timer);
      }
    }
  }

  lemma SettlingIsConsistent(s: State, id: Id, o: Outcome)
    requires Consistent(s)
    ensures Consistent(SettledAs(s, id, o))
  {
    if id in s.pend {
      var t := s.(settled := s.settled + multiset{id}, outcome := s.outcome[id := o]);
      assert Consistent(t) by { HistoryAside(s, t); }
      CleaningIsConsistent(t, id);
    }
  }

  lemma HistoryAside(s: State, t: State)
    requires Consistent(s)
    requires t == s.(settled := t.settled, outcome := t.outcome, issued := t.issued, seqNo := t.seqNo)
    ensures Consistent(t)
  {
  }

  lemma SettlingRemoves(s: State, id: Id, o: Outcome)
    ensures SettledAs(s, id, o).pend == s.pend - {id}
  {
  }

  lemma SettlingIsAccounted(s: State, id: Id, o: Outcome)
    requires Accounted(s)
    ensures Accounted(SettledAs(s, id, o))
  {
    var t := SettledAs(s, id, o);
    forall other: Id
      ensures OneFate(t, other)
    {
      assert OneFate(s, other) && OneFate(s, id);
    }
  }

  // ---------- unloading ----------

  /** The history of one request, when it is unloaded in `t` or not yet. */
  ghost predicate FateHalfway(s: State, t: State, id: Id) {
    var gone := id in s.pend && id !in t.pend;
    && t.settled[id] == s.settled[id] + (if gone then 1 else 0)
    && (id in t.outcome <==> gone || id in s.outcome)
    && (id in t.outcome ==> t.outcome[id] == if gone then Unloaded else s.outcome[id])
  }

  ghost predicate KeyHalfway(s: State, t: State, k: string) {
    && (k in t.byAbortKey <==> k in s.byAbortKey && (s.byAbortKey[k] in t.pend || s.byAbortKey[k] !in s.pend))
    && (k in t.byAbortKey ==> t.byAbortKey[k] == s.byAbortKey[k])
  }

  /** `t` is `s` with some of what is pending already unloaded. */
  ghost predicate Halfway(s: State, t: State) {
    && Consistent(t)
    && t.pend.Keys <= s.pend.Keys
    && (t.seqNo, t.nextTimer, t.issued, t.thrown) == (s.seqNo, s.nextTimer, s.issued, s.thrown)
    && (forall id :: FateHalfway(s, t, id))
    && forall k :: KeyHalfway(s, t, k)
  }

  lemma HalfwayStarts(s: State)
    requires Consistent(s)
    ensures Halfway(s, s)
  {
  }

  lemma KeyStep(s: State, t: State, id: Id, k: string)
    requires Consistent(t) && id in t.pend && t.pend.Keys <= s.pend.Keys && KeyHalfway(s, t, k)
    ensures KeyHalfway(s, SettledAs(t, id, Unloaded), k)
  {
  }

  lemma FateStep(s: State, t: State, id: Id, other: Id)
    requires id in t.pend && t.pend.Keys <= s.pend.Keys && FateHalfway(s, t, other)
    ensures FateHalfway(s, SettledAs(t, id, Unloaded), other)
  {
  }

  lemma HalfwayStep(s: State, t: State, id: Id)
    requires Halfway(s, t) && id in t.pend
    ensures Halfway(s, SettledAs(t, id, Unloaded))
  {
    hide Consistent, FateHalfway, KeyHalfway;
    var u := SettledAs(t, id, Unloaded);
    SettlingIsConsistent(t, id, Unloaded);
    forall other: Id
      ensures FateHalfway(s, u, other)
    {
      FateStep(s, t, id, other);
    }
    forall k: string
      ensures KeyHalfway(s, u, k)
    {
      KeyStep(s, t, id, k);
    }
  }

  lemma KeysEnd(s: State, t: State)
    requires t.pend == map[] && forall k :: KeyHalfway(s, t, k)
    ensures t.byAbortKey == AllUnloaded(s).byAbortKey
  {
    var kept := AllUnloaded(s).byAbortKey;
    forall k: string
      ensures (k in t.byAbortKey <==> k in kept) && (k in kept ==> t.byAbortKey[k] == kept[k])
    {
      assert KeyHalfway(s, t, k);
    }
  }

  lemma CountsEnd(s: State, t: State)
    requires t.pend == map[] && forall id :: FateHalfway(s, t, id)
    ensures t.settled == AllUnloaded(s).settled
  {
    forall id: Id
      ensures t.settled[id] == AllUnloaded(s).settled[id]
    {
      assert FateHalfway(s, t, id);
    }
  }

  lemma FatesEnd(s: State, t: State)
    requires t.pend == map[] && forall id :: FateHalfway(s, t, id)
    ensures t.settled == AllUnloaded(s).settled && t.outcome == AllUnloaded(s).outcome
  {
    CountsEnd(s, t);
    var u := AllUnloaded(s);
    forall id: Id
      ensures (id in t.outcome <==> id in u.outcome) && (id in u.outcome ==> t.outcome[id] == u.outcome[id])
    {
      assert FateHalfway(s, t, id);
    }
  }

  lemma HalfwayEnds(s: State, t: State)
    requires Halfway(s, t) && t.pend == map[]
    ensures t == AllUnloaded(s)
  {
    assert t.armed == map[] by {
      assert forall timer :: timer in t.armed ==> TimerLeads(t, timer);
    }
    hide Consistent, FateHalfway, KeyHalfway;
    KeysEnd(s, t);
    FatesEnd(s, t);
  }

  // ---------- requests ----------

  /** No pending request has the key, and the key leads at most to one that was never posted. */
  ghost predicate KeyFree(s: State, key: string) {
    key in s.byAbortKey ==> s.byAbortKey[key] !in s.pend
  }

  /** The older request with the key, if there is one, out of the way. */
  function Superseding(s: State, key: string): State {
    if key != "" && key in s.byAbortKey then SettledAs(s, s.byAbortKey[key], Superseded) else s
  }

  lemma SupersedingKeeps(s: State, key: string)
    requires Consistent(s) && Accounted(s)
    ensures var t := Superseding(s, key);
            && Consistent(t) && Accounted(t) && (key != "" ==> KeyFree(t, key))
            && (t.seqNo, t.issued, t.nextTimer, t.thrown) == (s.seqNo, s.issued, s.nextTimer, s.thrown)
  {
    hide Accounted;
    if key != "" && key in s.byAbortKey {
      SettlingIsConsistent(s, s.byAbortKey[key], Superseded);
      SettlingIsAccounted(s, s.byAbortKey[key], Superseded);
    }
  }

  /** The state after the older request is out of the way and the new one holds the key. */
  function Entered(t: State, key: string, id: Id): State {
    t.(seqNo := id.number, issued := t.issued + {id}, byAbortKey := if key == "" then t.byAbortKey else t.byAbortKey[key := id])
  }

  lemma RequestedInSteps(s: State, now: int, key: string, posts: bool)
    ensures var id := Id(now, s.seqNo + 1);
            var u := Entered(Superseding(s, key), key, id);
            Requested(s, now, key, posts) == if posts then Awaited(u, key, id) else u.(thrown := u.thrown + {id})
  {
    hide Awaited;
    var id := Id(now, s.seqNo + 1);
    if key != "" && key in s.byAbortKey {
      SettlingAndEntering(s, s.byAbortKey[key], id);
    }
  }

  lemma SettlingAndEntering(s: State, older: Id, id: Id)
    ensures SettledAs(s.(seqNo := id.number, issued := s.issued + {id}), older, Superseded)
            == SettledAs(s, older, Superseded).(seqNo := id.number, issued := s.issued + {id})
  {
  }

  lemma AwaitingIsConsistent(t: State, key: string, id: Id)
    requires Consistent(t) && id !in t.pend && id !in t.thrown && (key != "" ==> KeyFree(t, key))
    ensures Consistent(Awaited(Entered(t, key, id), key, id))
  {
    var v := Awaited(Entered(t, key, id), key, id);
    forall other | other in v.pend
      ensures HoldsItsOwn(v, other)
    {
      if other != id {
        assert HoldsItsOwn(t, other);
        assert t.pend[other].timer in t.armed && TimerLeads(t, t.pend[other].timer);
      }
    }
    forall k | k in v.byAbortKey
      ensures KeyLeads(v, k)
    {
      if k in t.byAbortKey {
        assert KeyLeads(t, k);
      }
    }
    forall timer | timer in v.armed
      ensures TimerLeads(v, timer)
    {
      if timer in t.armed {
        assert TimerLeads(t, timer);
      }
    }
  }

  lemma ThrowingIsConsistent(t: State, key: string, id: Id)
    requires Consistent(t) && id !in t.pend && (key != "" ==> KeyFree(t, key))
    ensures Consistent(Entered(t, key, id).(thrown := t.thrown + {id}))
  {
  }

  lemma RequestIsAccounted(t: State, key: string, id: Id, posts: bool)
    requires Accounted(t) && id.number == t.seqNo + 1
    ensures var u := Entered(t, key, id); Accounted(if posts then Awaited(u, key, id) else u.(thrown := u.thrown + {id}))
  {
    var u := Entered(t, key, id);
    var v := if posts then Awaited(u, key, id) else u.(thrown := u.thrown + {id});
    forall other: Id
      ensures OneFate(v, other)
    {
      assert OneFate(t, other) && OneFate(t, id);
    }
  }

  lemma RequestKeeps(s: State, now: int, key: string, posts: bool)
    requires Consistent(s) && Accounted(s)
    ensures Consistent(Requested(s, now, key, posts)) && Accounted(Requested(s, now, key, posts))
  {
    var id, t := Id(now, s.seqNo + 1), Superseding(s, key);
    SupersedingKeeps(s, key);
    RequestedInSteps(s, now, key, posts);
    assert id !in t.pend && id !in t.thrown by { assert OneFate(t, id); }
    hide Requested, Superseding, Consistent, Accounted, Awaited;
    RequestIsAccounted(t, key, id, posts);
    AwaitingIsConsistent(t, key, id);
    ThrowingIsConsistent(t, key, id);
  }

  // ---------- the other events ----------

  /** A timer that fires finds its request pending. */
  lemma FiringSettles(s: State, t: nat)
    requires Consistent(s) && t in s.armed
    ensures s.armed[t] in s.pend
    ensures Next(s, Fires(t)) == SettledAs(s, s.armed[t], TimedOut)
  {
  }

  lemma UnloadKeeps(s: State)
    requires Consistent(s) && Accounted(s)
    ensures Consistent(AllUnloaded(s)) && Accounted(AllUnloaded(s))
  {
    var t := AllUnloaded(s);
    forall k | k in t.byAbortKey
      ensures KeyLeads(t, k)
    {
      assert KeyLeads(s, k);
    }
    forall id: Id
      ensures OneFate(t, id)
    {
      assert OneFate(s, id);
    }
  }

  lemma NextKeeps(s: State, e: Event)
    requires Consistent(s) && Accounted(s) && Enabled(s, e)
    ensures Consistent(Next(s, e)) && Accounted(Next(s, e))
  {
    hide Consistent, Accounted, SettledAs, Requested, AllUnloaded;
    match e
    case Requests(now, key, posts) => RequestKeeps(s, now, key, posts);
    case Acks(id) => SettlingIsConsistent(s, id, Acked); SettlingIsAccounted(s, id, Acked);
    case Errs(id) => SettlingIsConsistent(s, id, Failed); SettlingIsAccounted(s, id, Failed);
    case Fires(t) => FiringSettles(s, t); SettlingIsConsistent(s, s.armed[t], TimedOut); SettlingIsAccounted(s, s.armed[t], TimedOut);
    case Unloads => UnloadKeeps(s);
  }

  // ---------- every run ----------

  lemma NewIsFine()
    ensures Consistent(NEW) && Accounted(NEW)
  {
  }

  /** In every state of every run the maps and timers agree, and every request made is pending, settled once
      or never posted. */
  lemma {:induction false} AlwaysFine(events: seq<Event>, states: seq<State>, i: int)
    requires IsRun(events, states) && 0 <= i < |states|
    ensures Consistent(states[i]) && Accounted(states[i])
  {
    NewIsFine();
    hide Consistent, Accounted, Next;
    if i > 0 {
      AlwaysFine(events, states, i - 1);
      NextKeeps(states[i - 1], events[i - 1]);
    }
  }

  lemma OutcomeStep(s: State, e: Event, id: Id)
    requires Consistent(s) && Accounted(s) && Enabled(s, e) && id in s.outcome
    ensures id in Next(s, e).outcome && Next(s, e).outcome[id] == s.outcome[id]
  {
    assert OneFate(s, id);
    hide Consistent, Accounted;
  }

  /** An outcome is final. */
  lemma {:induction false} OutcomesStand(events: seq<Event>, states: seq<State>, i: int, j: int, id: Id)
    requires IsRun(events, states) && 0 <= i <= j < |states| && id in states[i].outcome
    ensures id in states[j].outcome && states[j].outcome[id] == states[i].outcome[id]
    decreases j
  {
    hide Consistent, Accounted, Next;
    if i < j {
      OutcomesStand(events, states, i, j - 1, id);
      AlwaysFine(events, states, j - 1);
      OutcomeStep(states[j - 1], events[j - 1], id);
    }
  }

  /** Two requests that are pending never share an abort key. */
  lemma OnePerKey(events: seq<Event>, states: seq<State>, i: int, a: Id, b: Id)
    requires IsRun(events, states) && 0 <= i < |states| && a in states[i].pend && b in states[i].pend
    requires states[i].pend[a].abortKey == states[i].pend[b].abortKey != ""
    ensures a == b
  {
    AlwaysFine(events, states, i);
    assert HoldsItsOwn(states[i], a) && HoldsItsOwn(states[i], b);
  }

  /** A request leaves the pending ones exactly when it is settled. */
  lemma LeavesWhenSettled(events: seq<Event>, states: seq<State>, i: int, id: Id)
    requires IsRun(events, states) && 0 <= i < |events| && id in states[i].pend
    ensures id !in states[i + 1].pend <==> id in states[i + 1].outcome
    ensures id !in states[i].outcome
  {
    AlwaysFine(events, states, i);
    AlwaysFine(events, states, i + 1);
    assert OneFate(states[i], id) && OneFate(states[i + 1], id);
    StaysIssued(states[i], events[i], id);
  }

  lemma StaysIssued(s: State, e: Event, id: Id)
    requires Enabled(s, e) && id in s.issued
    ensures id in Next(s, e).issued && (id in Next(s, e).thrown ==> id in s.thrown || id.number > s.seqNo)
  {
  }

  // ---------- stale keys ----------

  /** The key leads to a request that is not pending. */
  predicate Stale(s: State, key: string) {
    key in s.byAbortKey && s.byAbortKey[key] !in s.pend
  }

  /** Whether the last request with the key was posted, if there was one. */
  function LastPosted(events: seq<Event>, key: string): Option<bool> {
    if events == [] then None
    else
      var last := events[|events| - 1];
      if last.Requests? && last.abortKey == key then Some(last.posts) else LastPosted(events[..|events| - 1], key)
  }

  lemma SettlingKeepsStale(s: State, id: Id, o: Outcome, key: string)
    requires Consistent(s)
    ensures Stale(SettledAs(s, id, o), key) <==> Stale(s, key)
  {
    if key in s.byAbortKey {
      assert KeyLeads(s, key);
    }
    if id in s.pend {
      assert HoldsItsOwn(s, id);
    }
  }

  lemma EnteringSetsStale(t: State, abortKey: string, id: Id, posts: bool, key: string)
    requires Consistent(t) && id !in t.pend && id !in t.thrown && key != ""
    ensures var u := Entered(t, abortKey, id);
            var v := if posts then Awaited(u, abortKey, id) else u.(thrown := u.thrown + {id});
            Stale(v, key) <==> if abortKey == key then !posts else Stale(t, key)
  {
    if key in t.byAbortKey {
      assert KeyLeads(t, key);
    }
  }

  lemma RequestSetsStale(s: State, now: int, abortKey: string, posts: bool, key: string)
    requires Consistent(s) && Accounted(s) && key != ""
    ensures Stale(Requested(s, now, abortKey, posts), key) <==> if abortKey == key then !posts else Stale(s, key)
  {
    var id, t := Id(now, s.seqNo + 1), Superseding(s, abortKey);
    SupersedingKeeps(s, abortKey);
    RequestedInSteps(s, now, abortKey, posts);
    assert id !in t.pend && id !in t.thrown by { assert OneFate(t, id); }
    assert Stale(t, key) <==> Stale(s, key) by {
      if abortKey != "" && abortKey in s.byAbortKey {
        SettlingKeepsStale(s, s.byAbortKey[abortKey], Superseded, key);
      }
    }
    hide Requested, Superseding, Consistent, Accounted, Stale, Awaited;
    EnteringSetsStale(t, abortKey, id, posts, key);
  }

  lemma StaleStep(s: State, e: Event, key: string)
    requires Consistent(s) && Accounted(s) && Enabled(s, e) && key != ""
    ensures Stale(Next(s, e), key) <==> if e.Requests? && e.abortKey == key then !e.posts else Stale(s, key)
  {
    hide Consistent, Accounted, SettledAs, Requested;
    match e
    case Requests(now, abortKey, posts) => RequestSetsStale(s, now, abortKey, posts, key);
    case Acks(id) => SettlingKeepsStale(s, id, Acked, key);
    case Errs(id) => SettlingKeepsStale(s, id, Failed, key);
    case Fires(t) => FiringSettles(s, t); SettlingKeepsStale(s, s.armed[t], TimedOut, key);
    case Unloads =>
  }

  /** After any events, an abort key leads to nothing pending if and only if the last request with that key could
      not be posted. */
  lemma {:induction false} KeysLeadToPending(events: seq<Event>, states: seq<State>, i: int, key: string)
    requires IsRun(events, states) && 0 <= i < |states| && key != ""
    ensures Stale(states[i], key) <==> LastPosted(events[..i], key) == Some(false)
  {
    hide Consistent, Accounted, Next, Enabled;
    if i > 0 {
      hide Stale;
      KeysLeadToPending(events, states, i - 1, key);
      AlwaysFine(events, states, i - 1);
      StaleStep(states[i - 1], events[i - 1], key);
      assert events[..i][..i - 1] == events[..i - 1];
    }
  }

  /** A request that could not be posted leaves its abort key behind. */
  lemma StaleKey(now: int, key: string)
    requires key != ""
    ensures var s := Next(NEW, Requests(now, key, false)); key in s.byAbortKey && s.byAbortKey[key] !in s.pend
    ensures IsRun([Requests(now, key, false)], [NEW, Next(NEW, Requests(now, key, false))])
  {
  }
}
