/** `RevisionBudgetStore` (storage/revision_exchange_repository.py): numbered slot files,
    each created exclusively, shared by any number of processes. */
module RevisionBudget {
  import opened Json

  datatype Route = Internal | Upstream

  /** What `deterministic_revision_request_id` digests. */
  datatype RequestId = RequestId(fromPlaywright: bool, route: Route, epoch: nat, review: string, findings: set<string>)

  /** The slot files of one layer, workflow and route, by iteration. */
  type Slots = map<nat, RequestId>

  predicate Held(slots: Slots, i: nat, r: RequestId) {
    i in slots && slots[i] == r
  }

  /** Slots are numbered from one without a gap, and no request has two. */
  ghost predicate Sound(slots: Slots) {
    && (forall i | i in slots :: i >= 1)
    && (forall i, j | i in slots && 1 <= j < i :: j in slots)
    && (forall i, j | i in slots && j in slots && slots[i] == slots[j] :: i == j)
  }

  /** Every slot below `at` belongs to another request. */
  ghost predicate TakenBelow(slots: Slots, r: RequestId, at: nat) {
    forall j | 1 <= j < at :: j in slots && slots[j] != r
  }

  ghost predicate Within(slots: Slots, limit: nat) {
    forall i | i in slots :: 1 <= i <= limit
  }

  /** `consume` run by itself. A replay gets its own slot back; a new request gets the first
      free slot up to the limit; without one it is refused and nothing is written. */
  method Consume(slots: Slots, r: RequestId, limit: nat) returns (now: Slots, slot: Option<nat>)
    requires Sound(slots)
    ensures Sound(now)
    ensures r in slots.Values ==> now == slots && slot.Some? && Held(slots, slot.value, r)
    ensures r !in slots.Values && slot.Some? ==>
              slot.value !in slots && 1 <= slot.value <= limit && TakenBelow(slots, r, slot.value)
              && now == slots[slot.value := r]
    ensures slot.None? <==> r !in slots.Values && forall j | 1 <= j <= limit :: j in slots
    ensures slot.None? ==> now == slots
  {
    now := slots;
    if r in slots.Values {
      var i :| i in slots && slots[i] == r;
      return now, Some(i);
    }
    for iteration := 1 to limit + 1
      invariant TakenBelow(slots, r, iteration)
    {
      if iteration !in slots {
        return slots[iteration := r], Some(iteration);
      }
      assert slots[iteration] in slots.Values;
    }
    slot := None;
  }

  // ---- several processes ----

  datatype Process =
    | Idle
    | Scanning(request: RequestId, limit: nat, at: nat)
    | Holding(request: RequestId, slot: nat)
    | Refused(request: RequestId, limit: nat)

  datatype System = System(slots: Slots, processes: map<nat, Process>)

  /** What happens next: a process asks for a slot, tries the next file, or stops. */
  datatype Move = Ask(p: nat, request: RequestId, limit: nat) | Try(p: nat) | Crash(p: nat)

  function Put(s: System, p: nat, process: Process): System {
    s.(processes := s.processes[p := process])
  }

  /** `for_request`, then the start of the loop. */
  ghost predicate Asked(s: System, p: nat, r: RequestId, limit: nat, t: System) {
    if r in s.slots.Values then exists i :: Held(s.slots, i, r) && t == Put(s, p, Holding(r, i))
    else t == Put(s, p, Scanning(r, limit, 1))
  }

  /** One iteration of the loop: `open("x")` on the slot file, or a look at who holds it. */
  function Tried(s: System, p: nat): System
    requires p in s.processes && s.processes[p].Scanning?
  {
    var Scanning(r, limit, at) := s.processes[p];
    if at > limit then Put(s, p, Refused(r, limit))
    else if at !in s.slots then Put(s.(slots := s.slots[at := r]), p, Holding(r, at))
    else if s.slots[at] == r then Put(s, p, Holding(r, at))
    else Put(s, p, Scanning(r, limit, at + 1))
  }

  ghost predicate Step(s: System, m: Move, t: System) {
    match m
    case Ask(p, r, limit) => Asked(s, p, r, limit, t)
    case Try(p) => p in s.processes && s.processes[p].Scanning? && t == Tried(s, p)
    case Crash(p) => t == Put(s, p, Idle)
  }

  ghost predicate Run(states: seq<System>, moves: seq<Move>) {
    && |states| == |moves| + 1
    && states[0] == System(map[], map[])
    && forall i | 0 <= i < |moves| :: Step(states[i], moves[i], states[i + 1])
  }

  /** The limits every process is configured with. */
  ghost predicate Bounded(moves: seq<Move>, limit: nat) {
    forall i | 0 <= i < |moves| && moves[i].Ask? :: moves[i].limit <= limit
  }

  ghost predicate Honest(slots: Slots, p: Process, limit: nat) {
    match p
    case Idle => true
    case Scanning(r, l, at) => 1 <= at && l <= limit && TakenBelow(slots, r, at)
    case Holding(r, i) => Held(slots, i, r)
    case Refused(r, l) => TakenBelow(slots, r, l + 1)
  }

  ghost predicate Inv(s: System, limit: nat) {
    && Sound(s.slots) && Within(s.slots, limit)
    && forall p | p in s.processes :: Honest(s.slots, s.processes[p], limit)
  }

  lemma StepKeeps(s: System, m: Move, t: System, limit: nat)
    requires Inv(s, limit) && Step(s, m, t) && (m.Ask? ==> m.limit <= limit)
    ensures Inv(t, limit)
    ensures s.slots.Keys <= t.slots.Keys && forall i | i in s.slots :: t.slots[i] == s.slots[i]
  {
    if m.Try? {
      var p := m.p;
      assert Honest(s.slots, s.processes[p], limit);
      var Scanning(r, l, at) := s.processes[p];
      if at <= l && at !in s.slots {
        FirstFreeIsSound(s.slots, r, at);
        forall q | q in t.processes ensures Honest(t.slots, t.processes[q], limit) {
          if q != p {
            assert Honest(s.slots, s.processes[q], limit);
            StaysHonest(s.slots, r, at, s.processes[q], limit);
          }
        }
      }
    }
  }

  /** The scan finds the first free slot, so no gap appears, and the request that takes it
      holds no other: a slot above a free one was never created. */
  lemma FirstFreeIsSound(slots: Slots, r: RequestId, at: nat)
    requires Sound(slots) && at >= 1 && at !in slots && TakenBelow(slots, r, at)
    ensures Sound(slots[at := r])
  {
    forall i | i in slots ensures i < at && slots[i] != r {
      assert i < at;
    }
  }

  lemma StaysHonest(slots: Slots, r: RequestId, at: nat, p: Process, limit: nat)
    requires at !in slots && Honest(slots, p, limit)
    ensures Honest(slots[at := r], p, limit)
  {
    match p
    case Scanning(q, l, k) => assert forall j | 1 <= j < k :: j in slots && slots[at := r][j] == slots[j];
    case Refused(q, l) => assert forall j | 1 <= j < l + 1 :: j in slots && slots[at := r][j] == slots[j];
    case _ =>
  }

  lemma {:induction false} RunKeeps(states: seq<System>, moves: seq<Move>, limit: nat, i: nat, j: nat)
    requires Run(states, moves) && Bounded(moves, limit) && i <= j <= |moves|
    ensures Inv(states[i], limit) && Inv(states[j], limit)
    ensures states[i].slots.Keys <= states[j].slots.Keys
    ensures forall k | k in states[i].slots :: states[j].slots[k] == states[i].slots[k]
    decreases j
  {
    if j > 0 {
      var before := if i < j then i else j - 1;
      RunKeeps(states, moves, limit, before, j - 1);
      assert Step(states[j - 1], moves[j - 1], states[j - 1 + 1]);
      StepKeeps(states[j - 1], moves[j - 1], states[j], limit);
    }
  }

  /** Whichever processes ask for a request, whenever, and however they interleave or stop:
      the slot it was given once is the slot it is always given. */
  lemma OneSlotPerRequest(states: seq<System>, moves: seq<Move>, limit: nat, i: nat, j: nat, p: nat, q: nat)
    requires Run(states, moves) && Bounded(moves, limit) && i <= j <= |moves|
    requires p in states[i].processes && states[i].processes[p].Holding?
    requires q in states[j].processes && states[j].processes[q].Holding?
    requires states[i].processes[p].request == states[j].processes[q].request
    ensures states[i].processes[p].slot == states[j].processes[q].slot
  {
    RunKeeps(states, moves, limit, i, j);
    assert Honest(states[i].slots, states[i].processes[p], limit);
    assert Honest(states[j].slots, states[j].processes[q], limit);
  }

  /** A request is refused only when every slot up to the limit belongs to another request,
      and from then on nobody is given a slot for it within that limit. */
  lemma RefusedForGood(states: seq<System>, moves: seq<Move>, limit: nat, i: nat, j: nat, p: nat, q: nat)
    requires Run(states, moves) && Bounded(moves, limit) && i <= j <= |moves|
    requires p in states[i].processes && states[i].processes[p].Refused?
    requires q in states[j].processes && states[j].processes[q].Holding?
    requires states[j].processes[q].request == states[i].processes[p].request
    ensures states[j].processes[q].slot > states[i].processes[p].limit
  {
    RunKeeps(states, moves, limit, i, j);
    assert Honest(states[i].slots, states[i].processes[p], limit);
    assert Honest(states[j].slots, states[j].processes[q], limit);
    var slot, r := states[j].processes[q].slot, states[i].processes[p].request;
    assert slot in states[i].slots ==> states[i].slots[slot] == r;
  }

  function UpTo(n: nat): (r: set<nat>)
    ensures |r| == n && forall i :: i in r <==> 1 <= i <= n
  {
    if n == 0 then {} else UpTo(n - 1) + {n}
  }

  lemma SubsetSize(a: set<nat>, b: set<nat>)
    requires a <= b
    ensures |a| <= |b|
    decreases b
  {
    if a != {} {
      var x :| x in a;
      SubsetSize(a - {x}, b - {x});
    }
  }

  /** No run hands out more slots than the limit. */
  lemma AdmittedWithinLimit(states: seq<System>, moves: seq<Move>, limit: nat, i: nat)
    requires Run(states, moves) && Bounded(moves, limit) && i <= |moves|
    ensures |states[i].slots.Keys| <= limit
  {
    RunKeeps(states, moves, limit, i, i);
    SubsetSize(states[i].slots.Keys, UpTo(limit));
  }
}
