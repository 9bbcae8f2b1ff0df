/** The one-shot authorizations of a replacement search (common/retrieval_reconstruction.py,
    common/retrieval_provider_retry.py) with the search itself (retrieval/coordinator.py), for
    one task: its authorization, reservation and context files, and any number of processes. */
module RetrievalLedger {
  import opened Json

  /** The fields `authorize_once` fixes. */
  datatype Identity = Identity(workflow: string, provider: string, agent: string, task: string, searchTask: string,
                               retrieval: string, strategy: string, failure: string)

  datatype Reservation = Reservation(retrieval: string, workflow: string, task: string, agent: string, strategy: string,
                                     provider: string)

  datatype Context = Context(retrieval: string, workflow: string, task: string, agent: string, strategy: string,
                             body: string)

  datatype Status = Pending | Consumed

  /** `digest` stands for the SHA-256 of the context file: a digest determines the content. */
  datatype Authorization = Authorization(identity: Identity, status: Status, digest: Option<Context>)

  datatype Files = Files(authorization: Option<Authorization>, reservation: Option<Reservation>,
      context: Option<Context>)

  predicate Reserves(r: Reservation, i: Identity) {
    r == Reservation(i.retrieval, i.workflow, i.searchTask, i.agent, i.strategy, i.provider)
  }

  predicate Answers(c: Context, i: Identity) {
    && c.retrieval == i.retrieval && c.workflow == i.workflow && c.task == i.searchTask
    && c.agent == i.agent && c.strategy == i.strategy
  }

  // ---- the operations ----

  datatype Error = IdentityChanged | NotPending | ReservationMissing | ReservationMismatch | NotConsumed
                 | ContextMissing | ContextMismatch | ContextChanged

  function AuthorizeOnce(f: Files, i: Identity): (Files, Result<Authorization, Error>) {
    match f.authorization
    case None =>
      var a := Authorization(i, Pending, None);
      (f.(authorization := Some(a)), Ok(a))
    case Some(a) => (f, if a.identity == i then Ok(a) else Err(IdentityChanged))
  }

  /** `consume` writes the caller's copy; it does not read the record. */
  function Consume(f: Files, copy: Authorization): (Files, Result<Authorization, Error>) {
    if copy.status != Pending then (f, Err(NotPending))
    else
      match f.reservation
      case None => (f, Err(ReservationMissing))
      case Some(r) =>
        if !Reserves(r, copy.identity) then (f, Err(ReservationMismatch))
        else
          var spent := copy.(status := Consumed);
          (f.(authorization := Some(spent)), Ok(spent))
  }

  /** The reading half of `record_context`: what it is about to write. */
  function Recording(f: Files): Result<Authorization, Error> {
    match f.authorization
    case None => Err(NotConsumed)
    case Some(a) =>
      if a.status != Consumed then Err(NotConsumed)
      else
        match f.context
        case None => Err(ContextMissing)
        case Some(c) =>
          if !Answers(c, a.identity) then Err(ContextMismatch)
          else if a.digest.Some? && a.digest != Some(c) then Err(ContextChanged)
          else Ok(a.(digest := Some(c)))
  }

  function RecordContext(f: Files): (Files, Result<Authorization, Error>) {
    match Recording(f)
    case Ok(a) => (f.(authorization := Some(a)), Ok(a))
    case Err(e) => (f, Err(e))
  }

  /** The store as one process uses it. */
  class Store {
    var files: Files

    constructor (files: Files)
      ensures this.files == files
    {
      this.files := files;
    }

    method Authorize(i: Identity) returns (r: Result<Authorization, Error>)
      modifies this
      ensures (files, r) == AuthorizeOnce(old(files), i)
    {
      if files.authorization.Some? {
        var existing := files.authorization.value;
        if existing.identity != i {
          return Err(IdentityChanged);
        }
        return Ok(existing);
      }
      var authorization := Authorization(i, Pending, None);
      files := files.(authorization := Some(authorization));
      r := Ok(authorization);
    }

    method Spend(copy: Authorization) returns (r: Result<Authorization, Error>)
      modifies this
      ensures (files, r) == Consume(old(files), copy)
    {
      if copy.status != Pending {
        return Err(NotPending);
      }
      if files.reservation.None? {
        return Err(ReservationMissing);
      }
      if !Reserves(files.reservation.value, copy.identity) {
        return Err(ReservationMismatch);
      }
      var updated := copy.(status := Consumed);
      files := files.(authorization := Some(updated));
      r := Ok(updated);
    }

    method Record() returns (r: Result<Authorization, Error>)
      modifies this
      ensures (files, r) == RecordContext(old(files))
      ensures r.Ok? ==> r.value.digest == files.context && files.context.Some?
    {
      if files.authorization.None? || files.authorization.value.status != Consumed {
        return Err(NotConsumed);
      }
      var current := files.authorization.value;
      if files.context.None? {
        return Err(ContextMissing);
      }
      var context := files.context.value;
      if !Answers(context, current.identity) {
        return Err(ContextMismatch);
      }
      if current.digest.Some? && current.digest != Some(context) {
        return Err(ContextChanged);
      }
      if current.digest == Some(context) {
        return Ok(current);
      }
      var updated := current.(digest := Some(context));
      files := files.(authorization := Some(updated));
      r := Ok(updated);
    }
  }

  /** Recording twice is recording once, and with a recorded digest only the very context it
      was taken from passes. */
  lemma RecordIsIdempotent(f: Files)
    requires RecordContext(f).1.Ok?
    ensures RecordContext(RecordContext(f).0) == RecordContext(f)
    ensures forall c :: RecordContext(RecordContext(f).0.(context := Some(c))).1.Ok? <==> f.context == Some(c)
  {
    var g := RecordContext(f).0;
    forall c ensures RecordContext(g.(context := Some(c))).1.Ok? <==> f.context == Some(c) {
      assert g.authorization.value.digest == f.context;
    }
  }

  // ---- processes ----

  /** Where a process is between `authorize_once` and `record_context`. */
  datatype Process =
    | Idle
    | Holding(copy: Authorization)
    | Entered(copy: Authorization)
    | Reserved(copy: Authorization)
    | Searching(copy: Authorization)
    | Searched(copy: Authorization)
    | Recorder
    | Writing(next: Authorization)

  /** `searches` counts the paid searches. */
  datatype System = System(files: Files, processes: map<nat, Process>, searches: nat)

  datatype Move =
    | Authorize(p: nat, identity: Identity)
    | Enter(p: nat)
    | Reserve(p: nat, reservation: Reservation)
    | Spend(p: nat)
    | Search(p: nat)
    | Save(p: nat, context: Context)
    | Read(p: nat)
    | Write(p: nat)
    | Crash(p: nat)

  function At(s: System, p: nat): Process {
    if p in s.processes then s.processes[p] else Idle
  }

  function Put(s: System, p: nat, q: Process): System {
    s.(processes := s.processes[p := q])
  }

  /** The next state. A reservation that is already there is adopted; a failed step ends the
      process. */
  function Next(s: System, m: Move): System {
    match m
    case Authorize(p, i) =>
      var (f, r) := AuthorizeOnce(s.files, i);
      (match r
       case Ok(copy) => Put(s.(files := f), p, Holding(copy))
       case Err(_) => Put(s, p, Idle))
    case Enter(p) =>
      if !At(s, p).Holding? then s
      else if At(s, p).copy.status == Consumed || s.files.context.Some? then Put(s, p, Recorder)
      else Put(s, p, Entered(At(s, p).copy))
    case Reserve(p, r) =>
      if !At(s, p).Entered? then s
      else Put(s.(files := s.files.(reservation := Some(if s.files.reservation.Some? then s.files.reservation.value
          else r))),
               p, Reserved(At(s, p).copy))
    case Spend(p) =>
      if !At(s, p).Reserved? then s
      else
        var (f, r) := Consume(s.files, At(s, p).copy);
        (match r
         case Ok(spent) => Put(s.(files := f), p, Searching(spent))
         case Err(_) => Put(s, p, Idle))
    case Search(p) =>
      if !At(s, p).Searching? then s else Put(s.(searches := s.searches + 1), p, Searched(At(s, p).copy))
    case Save(p, c) =>
      if !At(s, p).Searched? then s
      else if s.files.context.Some? then Put(s, p, Idle)
      else Put(s.(files := s.files.(context := Some(c))), p, Recorder)
    case Read(p) =>
      if !At(s, p).Recorder? then s
      else
        (match Recording(s.files)
         case Ok(a) => Put(s, p, Writing(a))
         case Err(_) => Put(s, p, Idle))
    case Write(p) =>
      if !At(s, p).Writing? then s
      else Put(s.(files := s.files.(authorization := Some(At(s, p).next))), p, Idle)
    case Crash(p) => Put(s, p, Idle)
  }

  const INITIAL: System := System(Files(None, None, None), map[], 0)

  function After(s: System, moves: seq<Move>): System
    decreases |moves|
  {
    if moves == [] then s else Next(After(s, moves[..|moves| - 1]), moves[|moves| - 1])
  }

  /** The state of a run before its move number `i`. */
  function StateAt(moves: seq<Move>, i: nat): System
    requires i <= |moves|
  {
    After(INITIAL, moves[..i])
  }

  lemma NextState(moves: seq<Move>, i: nat)
    requires i < |moves|
    ensures StateAt(moves, i + 1) == Next(StateAt(moves, i), moves[i])
  {
    assert moves[..i + 1][..i] == moves[..i];
  }

  // ---- what every run keeps ----

  predicate Matches(f: Files, a: Authorization) {
    && f.authorization.Some? && f.authorization.value.identity == a.identity
    && (a.status == Consumed ==> f.reservation.Some? && Reserves(f.reservation.value, a.identity)
                                 && f.authorization.value.status == Consumed)
    && (a.digest.Some? ==> a.status == Consumed && f.context == a.digest && Answers(a.digest.value, a.identity))
  }

  predicate Fits(f: Files, q: Process) {
    match q
    case Idle => true
    case Recorder => true
    case Holding(copy) => Matches(f, copy)
    case Entered(copy) => Matches(f, copy) && copy.status == Pending
    case Reserved(copy) => Matches(f, copy) && copy.status == Pending && f.reservation.Some?
    case Searching(copy) => Matches(f, copy) && copy.status == Consumed
    case Searched(copy) => Matches(f, copy) && copy.status == Consumed
    case Writing(next) => Matches(f, next) && next.digest.Some?
  }

  ghost predicate Inv(s: System) {
    && (s.files.authorization.Some? ==> Matches(s.files, s.files.authorization.value))
    && forall p | p in s.processes :: Fits(s.files, s.processes[p])
  }

  /** What is never taken back: the identity, a consumed status, a reservation, a context. */
  predicate Grows(f: Files, g: Files) {
    && (f.authorization.Some? ==>
         g.authorization.Some? && g.authorization.value.identity == f.authorization.value.identity
                                  && (f.authorization.value.status == Consumed ==>
                                       g.authorization.value.status == Consumed))
    && (f.reservation.Some? ==> g.reservation == f.reservation)
    && (f.context.Some? ==> g.context == f.context)
  }

  lemma StillFits(f: Files, g: Files, q: Process)
    requires Fits(f, q) && Grows(f, g)
    ensures Fits(g, q)
  {
  }

  /** What a step does to the files and to the process that takes it. */
  lemma ActorKeeps(s: System, m: Move)
    requires Inv(s)
    ensures Grows(s.files, Next(s, m).files) && Fits(Next(s, m).files, At(Next(s, m), m.p))
    ensures Next(s, m).files.authorization.Some? ==> Matches(Next(s, m).files, Next(s, m).files.authorization.value)
  {
    assert Fits(s.files, At(s, m.p));
  }

  lemma OthersStay(s: System, m: Move, p: nat)
    requires p != m.p
    ensures At(Next(s, m), p) == At(s, p) && (p in Next(s, m).processes <==> p in s.processes)
  {
  }

  lemma StepKeeps(s: System, m: Move)
    requires Inv(s)
    ensures Inv(Next(s, m)) && Grows(s.files, Next(s, m).files)
  {
    hide Next, Grows, Matches, Fits;
    var t := Next(s, m);
    ActorKeeps(s, m);
    forall p | p in t.processes ensures Fits(t.files, t.processes[p]) {
      if p != m.p {
        OthersStay(s, m, p);
        StillFits(s.files, t.files, s.processes[p]);
      }
    }
  }

  lemma {:induction false} RunKeeps(moves: seq<Move>, i: nat, j: nat)
    requires i <= j <= |moves|
    ensures Inv(StateAt(moves, i)) && Inv(StateAt(moves, j))
    ensures Grows(StateAt(moves, i).files, StateAt(moves, j).files)
    decreases j
  {
    if j > 0 {
      var before := if i < j then i else j - 1;
      RunKeeps(moves, before, j - 1);
      NextState(moves, j - 1);
      StepKeeps(StateAt(moves, j - 1), moves[j - 1]);
    }
  }

  /** In every run, with any number of processes and crashes: a recorded digest is that of the
      context on disk, belongs to a consumed authorization with its own reservation, and no
      two recorded digests ever differ. */
  lemma DigestIsOfTheContext(moves: seq<Move>, i: nat, j: nat)
    requires i <= j <= |moves|
    requires StateAt(moves, i).files.authorization.Some? && StateAt(moves, i).files.authorization.value.digest.Some?
    ensures var a := StateAt(moves, i).files.authorization.value;
            && a.status == Consumed && StateAt(moves, i).files.context == a.digest
            && StateAt(moves, i).files.reservation.Some?
                 && Reserves(StateAt(moves, i).files.reservation.value, a.identity)
            && StateAt(moves, j).files.authorization.Some?
            && (StateAt(moves, j).files.authorization.value.digest == None
                || StateAt(moves, j).files.authorization.value.digest == a.digest)
  {
    RunKeeps(moves, i, j);
  }

  // ---- when a consumption is stale ----

  /** The process consumes, whatever the record on disk says by now. */
  predicate Spends(s: System, m: Move) {
    m.Spend? && At(s, m.p).Reserved? && Consume(s.files, At(s, m.p).copy).1.Ok?
  }

  /** It does so although the record is consumed already. */
  predicate IsStale(s: System, m: Move) {
    Spends(s, m) && s.files.authorization.Some? && s.files.authorization.value.status == Consumed
  }

  /** How many consumptions the first moves of a run contain. */
  function Spendings(moves: seq<Move>, i: nat): nat
    requires i <= |moves|
  {
    if i == 0 then 0 else Spendings(moves, i - 1) + (if Spends(StateAt(moves, i - 1), moves[i - 1]) then 1 else 0)
  }

  /** A step loses a recorded digest exactly when it is a stale consumption of a record that
      has one. */
  lemma LosesDigestIff(s: System, m: Move)
    requires Inv(s) && s.files.authorization.Some? && s.files.authorization.value.digest.Some?
    ensures Next(s, m).files.authorization.value.digest == None <==> IsStale(s, m)
  {
    assert Fits(s.files, At(s, m.p));
  }

  /** The searches made and the ones about to be made never outnumber the consumptions. */
  ghost predicate Paid(s: System, spent: nat, busy: set<nat>) {
    && (forall p :: p in busy <==> p in s.processes && s.processes[p].Searching?)
    && s.searches + |busy| <= spent
  }

  function Busy(q: Process): nat {
    if q.Searching? then 1 else 0
  }

  lemma ActorPays(s: System, m: Move)
    ensures Next(s, m).searches + Busy(At(Next(s, m), m.p)) <=
              s.searches + Busy(At(s, m.p)) + (if Spends(s, m) then 1 else 0)
  {
  }

  lemma PaidStep(s: System, m: Move, spent: nat, busy: set<nat>) returns (now: set<nat>)
    requires Paid(s, spent, busy)
    ensures Paid(Next(s, m), spent + (if Spends(s, m) then 1 else 0), now)
  {
    hide Next, Spends;
    ActorPays(s, m);
    var t := Next(s, m);
    now := if At(t, m.p).Searching? then busy + {m.p} else busy - {m.p};
    forall p ensures p in now <==> p in t.processes && t.processes[p].Searching? {
      if p != m.p {
        OthersStay(s, m, p);
      }
    }
    assert m.p in busy <==> At(s, m.p).Searching?;
  }

  lemma {:induction false} SearchesArePaid(moves: seq<Move>, i: nat) returns (busy: set<nat>)
    requires i <= |moves|
    ensures Paid(StateAt(moves, i), Spendings(moves, i), busy)
  {
    if i == 0 {
      busy := {};
    } else {
      busy := SearchesArePaid(moves, i - 1);
      RunKeeps(moves, i - 1, i - 1);
      NextState(moves, i - 1);
      busy := PaidStep(StateAt(moves, i - 1), moves[i - 1], Spendings(moves, i - 1), busy);
    }
  }

  lemma {:induction false} SpentMeansConsumed(moves: seq<Move>, i: nat)
    requires i <= |moves|
    ensures Spendings(moves, i) > 0 <==>
              StateAt(moves, i).files.authorization.Some?
                  && StateAt(moves, i).files.authorization.value.status == Consumed
  {
    if i > 0 {
      SpentMeansConsumed(moves, i - 1);
      RunKeeps(moves, i - 1, i - 1);
      NextState(moves, i - 1);
      StepKeeps(StateAt(moves, i - 1), moves[i - 1]);
      assert Fits(StateAt(moves, i - 1).files, At(StateAt(moves, i - 1), moves[i - 1].p));
    }
  }

  /** A run consumes its authorization more than once exactly when one of its consumptions is
      stale. */
  lemma {:induction false} ConsumedOnceIff(moves: seq<Move>, n: nat)
    requires n <= |moves|
    ensures Spendings(moves, n) <= 1 <==> forall i | 0 <= i < n :: !IsStale(StateAt(moves, i), moves[i])
  {
    hide Next, StateAt, Spends;
    if n > 0 {
      ConsumedOnceIff(moves, n - 1);
      SpentMeansConsumed(moves, n - 1);
      if IsStale(StateAt(moves, n - 1), moves[n - 1]) {
        assert Spendings(moves, n) >= 2;
      } else if Spendings(moves, n - 1) > 1 {
        var i :| 0 <= i < n - 1 && IsStale(StateAt(moves, i), moves[i]);
        assert IsStale(StateAt(moves, i), moves[i]);
      }
    }
  }

  /** Without a stale consumption there is at most one paid search, a consumed authorization
      without a context is never consumed again, and a recorded digest is there for good. */
  lemma OneSearch(moves: seq<Move>, n: nat)
    requires n <= |moves| && forall i | 0 <= i < n :: !IsStale(StateAt(moves, i), moves[i])
    ensures StateAt(moves, n).searches <= 1
  {
    ConsumedOnceIff(moves, n);
    var busy := SearchesArePaid(moves, n);
  }

  lemma {:induction false} DigestStays(moves: seq<Move>, i: nat, j: nat)
    requires i <= j <= |moves| && forall k | 0 <= k < j :: !IsStale(StateAt(moves, k), moves[k])
    requires StateAt(moves, i).files.authorization.Some? && StateAt(moves, i).files.authorization.value.digest.Some?
    ensures StateAt(moves, j).files.authorization.Some?
    ensures StateAt(moves, j).files.authorization.value.digest == StateAt(moves, i).files.authorization.value.digest
    decreases j
  {
    hide Next, StateAt, Inv, Matches, IsStale;
    if i < j {
      DigestStays(moves, i, j - 1);
      RunKeeps(moves, j - 1, j - 1);
      NextState(moves, j - 1);
      LosesDigestIff(StateAt(moves, j - 1), moves[j - 1]);
      DigestIsOfTheContext(moves, j - 1, j);
    }
  }

  lemma NeverConsumedAgain(moves: seq<Move>, i: nat, j: nat)
    requires i <= j < |moves| && forall k | 0 <= k < |moves| :: !IsStale(StateAt(moves, k), moves[k])
    requires StateAt(moves, i).files.authorization.Some?
              && StateAt(moves, i).files.authorization.value.status == Consumed
    ensures !Spends(StateAt(moves, j), moves[j])
  {
    RunKeeps(moves, i, j);
    assert !IsStale(StateAt(moves, j), moves[j]);
  }

  // ---- what keeps consumptions fresh ----

  /** Only the process that created the reservation goes on to consume. */
  ghost predicate WinnersOnly(moves: seq<Move>, n: nat)
    requires n <= |moves|
  {
    forall i | 0 <= i < n && moves[i].Reserve? && At(StateAt(moves, i), moves[i].p).Entered? ::
      StateAt(moves, i).files.reservation == None
  }

  ghost predicate OneWinner(s: System) {
    && (forall p | p in s.processes && s.processes[p].Reserved? ::
          s.files.reservation.Some? && s.files.authorization.Some? && s.files.authorization.value.status == Pending)
    && (forall p, q | p in s.processes && q in s.processes && s.processes[p].Reserved? && s.processes[q].Reserved? ::
         p == q)
  }

  lemma WinnerStep(s: System, m: Move)
    requires Inv(s) && OneWinner(s)
    requires m.Reserve? && At(s, m.p).Entered? ==> s.files.reservation == None
    ensures OneWinner(Next(s, m))
    ensures !IsStale(s, m)
  {
    assert Fits(s.files, At(s, m.p));
    var t := Next(s, m);
    forall p | p in t.processes && t.processes[p].Reserved?
      ensures t.files.reservation.Some? && t.files.authorization.Some? && t.files.authorization.value.status == Pending
    {
      if p != m.p {
        assert s.processes[p].Reserved? && Fits(s.files, s.processes[p]);
      }
    }
  }

  /** When only the winner of the exclusive reservation consumes, nothing is ever stale. */
  lemma {:induction false} WinnersAreFresh(moves: seq<Move>, n: nat)
    requires n <= |moves| && WinnersOnly(moves, n)
    ensures OneWinner(StateAt(moves, n))
    ensures forall i | 0 <= i < n :: !IsStale(StateAt(moves, i), moves[i])
  {
    if n > 0 {
      WinnersAreFresh(moves, n - 1);
      RunKeeps(moves, n - 1, n - 1);
      NextState(moves, n - 1);
      WinnerStep(StateAt(moves, n - 1), moves[n - 1]);
    }
  }

  /** A process starts only while every other one has finished or died. */
  ghost predicate OneAtATime(moves: seq<Move>, n: nat)
    requires n <= |moves|
  {
    forall i, q | 0 <= i < n && moves[i].Authorize? && q != moves[i].p :: At(StateAt(moves, i), q).Idle?
  }

  /** The copy of the one process at work is the record itself. */
  ghost predicate Alone(s: System) {
    && (forall p, q | !At(s, p).Idle? && !At(s, q).Idle? :: p == q)
    && (forall p | p in s.processes
         && (s.processes[p].Holding? || s.processes[p].Entered? || s.processes[p].Reserved?) ::
          s.files.authorization == Some(s.processes[p].copy))
  }

  lemma AloneStep(s: System, m: Move)
    requires Inv(s) && Alone(s)
    requires m.Authorize? ==> forall q | q != m.p :: At(s, q).Idle?
    ensures Alone(Next(s, m)) && !IsStale(s, m)
  {
    assert Fits(s.files, At(s, m.p));
    var t := Next(s, m);
    forall q | q != m.p ensures At(t, q) == At(s, q) {
      OthersStay(s, m, q);
    }
    if At(s, m.p).Idle? && !m.Authorize? {
      assert t.files == s.files && At(t, m.p).Idle?;
    } else {
      forall q | q != m.p ensures At(t, q).Idle? {
        assert At(s, q).Idle?;
      }
    }
    forall p | p in t.processes && (t.processes[p].Holding? || t.processes[p].Entered? || t.processes[p].Reserved?)
      ensures t.files.authorization == Some(t.processes[p].copy)
    {
      if p == m.p {
        assert m.Authorize? || m.Enter? || m.Reserve? || At(t, p) == At(s, p);
      } else {
        assert At(s, p) == t.processes[p] && At(s, m.p).Idle?;
      }
    }
  }

  /** Neither is anything stale when processes do not overlap, although a later one may then
      adopt the reservation of one that died. */
  lemma {:induction false} SuccessionIsFresh(moves: seq<Move>, n: nat)
    requires n <= |moves| && OneAtATime(moves, n)
    ensures Alone(StateAt(moves, n))
    ensures forall i | 0 <= i < n :: !IsStale(StateAt(moves, i), moves[i])
  {
    if n > 0 {
      SuccessionIsFresh(moves, n - 1);
      RunKeeps(moves, n - 1, n - 1);
      NextState(moves, n - 1);
      AloneStep(StateAt(moves, n - 1), moves[n - 1]);
    }
  }

  // ---- two overlapping processes ----

  const TASK := Identity("w", "p", "a", "t", "t_1", "r", "s", "m")
  const FOUND := Context("r", "w", "t_1", "a", "s", "text")
  const TURN := Reservation("r", "w", "t_1", "a", "s", "p")

  /** The first process runs to the end while the second, which has read the authorization and
      seen no context, waits to reserve. */
  const OVERLAP: seq<Move> := [
    Authorize(1, TASK), Authorize(2, TASK), Enter(1), Enter(2), Reserve(1, TURN), Spend(1), Search(1), Save(1, FOUND),
    Read(1), Write(1), Reserve(2, TURN), Spend(2), Search(2)]

  const COPY := Authorization(TASK, Pending, None)

  lemma BothEnter()
    ensures StateAt(OVERLAP, 4) == System(Files(Some(COPY), None, None), map[1 := Entered(COPY), 2 := Entered(COPY)], 0)
  {
    assert StateAt(OVERLAP, 0) == INITIAL;
    NextState(OVERLAP, 0);
    NextState(OVERLAP, 1);
    NextState(OVERLAP, 2);
    NextState(OVERLAP, 3);
    assert StateAt(OVERLAP, 4).processes == map[1 := Entered(COPY), 2 := Entered(COPY)];
  }

  lemma FirstSearches()
    ensures StateAt(OVERLAP, 7) == System(Files(Some(COPY.(status := Consumed)), Some(TURN), None),
                                          map[1 := Searched(COPY.(status := Consumed)), 2 := Entered(COPY)], 1)
  {
    BothEnter();
    NextState(OVERLAP, 4);
    NextState(OVERLAP, 5);
    NextState(OVERLAP, 6);
    assert StateAt(OVERLAP, 7).processes == map[1 := Searched(COPY.(status := Consumed)), 2 := Entered(COPY)];
  }

  lemma FirstRecords()
    ensures StateAt(OVERLAP, 10) ==
              System(Files(Some(Authorization(TASK, Consumed, Some(FOUND))), Some(TURN), Some(FOUND)),
                                           map[1 := Idle, 2 := Entered(COPY)], 1)
  {
    FirstSearches();
    NextState(OVERLAP, 7);
    NextState(OVERLAP, 8);
    NextState(OVERLAP, 9);
    assert StateAt(OVERLAP, 10).processes == map[1 := Idle, 2 := Entered(COPY)];
  }

  /** Up to its end the first process is the only winner, and the record it leaves is the
      consumed authorization with the digest of its context. */
  lemma FirstWins()
    ensures WinnersOnly(OVERLAP, 10)
    ensures StateAt(OVERLAP, 10).files.authorization == Some(Authorization(TASK, Consumed, Some(FOUND)))
  {
    BothEnter();
    FirstRecords();
    forall i | 0 <= i < 10 && OVERLAP[i].Reserve? ensures StateAt(OVERLAP, i).files.reservation == None {
      assert i == 4;
    }
  }

  /** Adoption alone does not keep consumptions fresh: here the second process consumes its
      stale copy, the recorded digest is gone and the search is paid twice. */
  lemma OverlapLosesTheDigest()
    ensures StateAt(OVERLAP, 10).files.authorization == Some(Authorization(TASK, Consumed, Some(FOUND)))
    ensures StateAt(OVERLAP, 13).files.authorization == Some(Authorization(TASK, Consumed, None))
    ensures StateAt(OVERLAP, 13).searches == 2
    ensures IsStale(StateAt(OVERLAP, 11), OVERLAP[11])
  {
    FirstRecords();
    NextState(OVERLAP, 10);
    NextState(OVERLAP, 11);
    NextState(OVERLAP, 12);
  }

  // ---- the sidecar a provider retry is justified by ----

  datatype Sidecar = Sidecar(name: string, model: string, batch: Option<string>, status: string, digest: string)

  predicate IsFailedBatch(s: Sidecar, model: string) {
    s.model == model && s.batch.Some? && s.status in ["failed", "expired", "cancelled"]
  }

  function FailedBatches(files: seq<Sidecar>, model: string): seq<Sidecar> {
    if files == [] then []
    else FailedBatches(files[..|files| - 1], model) + (if IsFailedBatch(files[|files| - 1], model)
        then [files[|files| - 1]] else [])
  }

  /** The loop over the matching files, and the demand that there is exactly one. */
  method CorrelatedSidecar(files: seq<Sidecar>, model: string) returns (r: Option<Sidecar>)
    ensures r.Some? <==> |FailedBatches(files, model)| == 1
    ensures r.Some? ==> r.value in files && IsFailedBatch(r.value, model)
  {
    var sidecars := [];
    for i := 0 to |files|
      invariant sidecars == FailedBatches(files[..i], model)
      invariant forall x | x in sidecars :: x in files && IsFailedBatch(x, model)
    {
      assert files[..i + 1][..i] == files[..i];
      if IsFailedBatch(files[i], model) {
        sidecars := sidecars + [files[i]];
      }
    }
    assert files[..|files|] == files;
    r := if |sidecars| == 1 then Some(sidecars[0]) else None;
  }

  /** Each failed batch is found as often as it is listed. */
  lemma {:induction false} OrderDoesNotMatter(files: seq<Sidecar>, model: string)
    ensures forall x ::
              multiset(FailedBatches(files, model))[x] == (if IsFailedBatch(x, model) then multiset(files)[x] else 0)
  {
    if files != [] {
      var init, last := files[..|files| - 1], files[|files| - 1];
      OrderDoesNotMatter(init, model);
      assert files == init + [last];
    }
  }

  /** The number of correlated failures does not depend on the order the files are listed in,
      and a single one is the same file in every order. */
  lemma SameSidecar(a: seq<Sidecar>, b: seq<Sidecar>, model: string)
    requires multiset(a) == multiset(b)
    ensures |FailedBatches(a, model)| == |FailedBatches(b, model)|
    ensures |FailedBatches(a, model)| == 1 ==> FailedBatches(a, model) == FailedBatches(b, model)
  {
    hide FailedBatches, IsFailedBatch;
    OrderDoesNotMatter(a, model);
    OrderDoesNotMatter(b, model);
    SameElements(FailedBatches(a, model), FailedBatches(b, model));
  }

  lemma SameElements(x: seq<Sidecar>, y: seq<Sidecar>)
    requires forall s :: multiset(x)[s] == multiset(y)[s]
    ensures |x| == |y| && (|x| == 1 ==> x == y)
  {
    assert multiset(x) == multiset(y);
    assert |x| == |multiset(x)| && |y| == |multiset(y)|;
    if |x| == 1 {
      assert x[0] in multiset(x);
      assert x[0] in y;
    }
  }
}
