/** The client's response routing under concurrency: callers register, send, wait
    and leave; the reader looks a queue up and puts into it later; a teardown
    empties the table and then wakes the queues it found there. */
module PendingTable {
  import opened Wrappers

  datatype Item = Response | Unavailable

  /** `Stuck`: a connect whose send raised, gone without deregistering. */
  datatype Phase = Registered | Waiting | Took(item: Item) | GaveUp | Raised | Gone | Stuck

  datatype State = State(
    next: int, table: set<int>, queues: map<int, seq<Item>>, phases: map<int, Phase>,
    reader: Option<int>, waking: set<int>,
    // history: every id some teardown found in the table; all items put for each id
    found: set<int>, put: map<int, seq<Item>>)

  const INIT := State(0, {}, map[], map[], None, {}, {}, map[])

  datatype Step =
    | Register
    | Send(id: int)
    | SendRaises(id: int, connect: bool)
    | Take(id: int)
    | GiveUp(id: int)
    | Leave(id: int)
    | LookUp(id: int)
    | Deliver
    | TakeDown
    | Wake(id: int)

  predicate In(s: State, id: int, phase: Phase) { id in s.phases && s.phases[id] == phase && id in s.queues && id in s.put }

  predicate Enabled(s: State, a: Step) {
    match a
    case Register => true
    case Send(id) => In(s, id, Registered)
    case SendRaises(id, _) => In(s, id, Registered)
    case Take(id) => In(s, id, Waiting) && s.queues[id] != []
    case GiveUp(id) => In(s, id, Waiting) && s.queues[id] == []
    case Leave(id) => id in s.phases && (s.phases[id].Took? || s.phases[id].GaveUp? || s.phases[id].Raised?)
    case LookUp(id) => s.reader.None? && id in s.table
    case Deliver => s.reader.Some? && s.reader.value in s.queues && s.reader.value in s.put
    case TakeDown => s.waking == {}
    case Wake(id) => id in s.waking && id in s.queues && id in s.put
  }

  function PutItem(s: State, id: int, item: Item): State
    requires id in s.queues && id in s.put
  {
    s.(queues := s.queues[id := s.queues[id] + [item]], put := s.put[id := s.put[id] + [item]])
  }

  function After(s: State, a: Step): State
    requires Enabled(s, a)
  {
    match a
    case Register =>
      var id := s.next + 1;
      s.(next := id, table := s.table + {id}, queues := s.queues[id := []], phases := s.phases[id := Registered],
         put := s.put[id := []])
    case Send(id) => s.(phases := s.phases[id := Waiting])
    case SendRaises(id, connect) => s.(phases := s.phases[id := if connect then Stuck else Raised])
    case Take(id) => s.(phases := s.phases[id := Took(s.queues[id][0])], queues := s.queues[id := s.queues[id][1..]])
    case GiveUp(id) => s.(phases := s.phases[id := GaveUp])
    case Leave(id) => s.(phases := s.phases[id := Gone], table := s.table - {id})
    case LookUp(id) => s.(reader := Some(id))
    case Deliver => PutItem(s, s.reader.value, Response).(reader := None)
    case TakeDown => s.(waking := s.table, table := {}, found := s.found + s.table)
    case Wake(id) => PutItem(s, id, Unavailable).(waking := s.waking - {id})
  }

  ghost predicate Legal(steps: seq<Step>)
    decreases |steps|, 0
  {
    steps != [] ==> Legal(steps[..|steps| - 1]) && Enabled(Exec(steps[..|steps| - 1]), steps[|steps| - 1])
  }

  ghost function Exec(steps: seq<Step>): State
    requires Legal(steps)
    decreases |steps|, 1
  {
    if steps == [] then INIT else After(Exec(steps[..|steps| - 1]), steps[|steps| - 1])
  }

  function Count(items: seq<Item>, item: Item): nat { multiset(items)[item] }

  ghost predicate IdKept(s: State, id: int)
    requires id in s.phases && id in s.queues && id in s.put
  {
    var items := s.put[id];
    && id <= s.next
    // until the caller takes one, every item put is still in its queue
    && (s.phases[id].Registered? || s.phases[id].Waiting? ==> s.queues[id] == items)
    // the caller took the first item there was
    && (s.phases[id].Took? ==> items != [] && s.phases[id].item == items[0])
    // leaving and being found are the two ways out of the table
    && (id in s.table <==> !s.phases[id].Gone? && id !in s.found)
    // exactly the ids a teardown found have been, or are about to be, woken, once
    && Count(items, Unavailable) == (if id in s.found && id !in s.waking then 1 else 0)
    && (id in s.waking ==> id in s.found)
  }

  ghost predicate Kept(s: State) {
    && s.phases.Keys == s.queues.Keys == s.put.Keys
    && s.table <= s.phases.Keys && s.waking <= s.phases.Keys && s.found <= s.phases.Keys
    && (s.reader.Some? ==> s.reader.value in s.phases)
    && (forall id | id in s.phases :: IdKept(s, id))
  }

  lemma CallerKeeps(s: State, a: Step)
    requires Kept(s) && Enabled(s, a) && (a.Register? || a.Send? || a.SendRaises? || a.Take? || a.GiveUp? || a.Leave?)
    ensures Kept(After(s, a))
  {
    var s' := After(s, a);
    forall id | id in s'.phases ensures IdKept(s', id) {
      if id in s.phases {
        assert IdKept(s, id);
      }
    }
  }

  lemma RoutingKeeps(s: State, a: Step)
    requires Kept(s) && Enabled(s, a) && (a.LookUp? || a.Deliver? || a.TakeDown? || a.Wake?)
    ensures Kept(After(s, a))
  {
    var s' := After(s, a);
    forall id | id in s'.phases ensures IdKept(s', id) {
      if id in s.phases {
        assert IdKept(s, id);
      }
    }
  }

  lemma StepKeeps(s: State, a: Step)
    requires Kept(s) && Enabled(s, a)
    ensures Kept(After(s, a))
  {
    if a.LookUp? || a.Deliver? || a.TakeDown? || a.Wake? {
      RoutingKeeps(s, a);
    } else {
      CallerKeeps(s, a);
    }
  }

  lemma {:induction false} Invariant(steps: seq<Step>)
    requires Legal(steps)
    ensures Kept(Exec(steps))
    decreases |steps|
  {
    if steps != [] {
      Invariant(steps[..|steps| - 1]);
      StepKeeps(Exec(steps[..|steps| - 1]), steps[|steps| - 1]);
    }
  }

  /** No lost wake-up: once a teardown has finished waking, every caller it found in
      the table that has not ended its wait has an item in its own queue, so it can
      take one and can no longer give up; each such caller was sent exactly one
      unavailable item, and callers no teardown found were sent none. */
  lemma NoLostWakeUp(steps: seq<Step>, id: int)
    requires Legal(steps) && id in Exec(steps).phases
    ensures var s := Exec(steps);
            && id in s.queues && id in s.put
            && (id in s.found && s.waking == {} ==>
                  && Count(s.put[id], Unavailable) == 1
                  && (s.phases[id].Registered? || s.phases[id].Waiting? ==> s.queues[id] != [])
                  && !Enabled(s, GiveUp(id)))
            && (id !in s.found ==> Count(s.put[id], Unavailable) == 0)
  {
    Invariant(steps);
    assert IdKept(Exec(steps), id);
  }

  /** A caller that took an item took the first one it was sent, and it was told of
      the teardown only if a teardown found it. */
  lemma TakenItemWasMeant(steps: seq<Step>, id: int)
    requires Legal(steps) && id in Exec(steps).phases && Exec(steps).phases[id].Took?
    ensures var s := Exec(steps);
            && id in s.put && s.put[id] != [] && s.phases[id].item == s.put[id][0]
            && (s.phases[id].item.Unavailable? ==> id in s.found)
  {
    Invariant(steps);
    assert IdKept(Exec(steps), id);
  }

  /** Whoever has ended its call is out of the table, except a connect whose send
      raised: that one stays until a teardown. */
  lemma OnlyRaisingConnectsStay(steps: seq<Step>, id: int)
    requires Legal(steps) && id in Exec(steps).phases
    requires Exec(steps).phases[id].Gone? || Exec(steps).phases[id].Stuck?
    ensures id in Exec(steps).table <==> Exec(steps).phases[id].Stuck? && id !in Exec(steps).found
  {
    Invariant(steps);
    assert IdKept(Exec(steps), id);
  }

  /** Such a run: one connect whose send raises has ended its call and is still in the table. */
  lemma {:induction false} RaisingConnectStays()
    ensures var steps := [Register, SendRaises(1, true)];
            Legal(steps) && 1 in Exec(steps).phases && Exec(steps).phases[1].Stuck? && 1 in Exec(steps).table
  {
    var steps := [Register, SendRaises(1, true)];
    assert steps[..1] == [Register] && [Register][..0] == [];
    assert Legal([]) && Legal([Register]) && Exec([Register]) == After(INIT, Register);
  }
}
