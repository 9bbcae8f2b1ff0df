/** Any number of processes around one batch sidecar, restarted and crashed at will. The
    exclusive create of the sidecar decides who may submit (providers/openrouter_batch.py). */
module BatchSystem {
  import opened Json
  import opened Batch

  /** Where a process is inside `execute_chat`. Copies were read or made earlier. */
  datatype Pc =
    | Idle
    | Creating(job: Job)
    | Prepared(copy: Sidecar)
    | Failed(copy: Sidecar)
    | Submitted(copy: Sidecar)
    | Polling(copy: Sidecar)

  /** Network traffic and answers to callers. */
  datatype Event =
    | Posted(job: Job)
    | Fetched(job: Job, batchId: string, response: Fields)
    | Returned(job: Job, batchId: string, body: Fields)

  datatype System = System(file: Option<Sidecar>, pcs: map<nat, Pc>, log: seq<Event>)

  datatype Step =
    | Start(p: nat, job: Job)
    | Create(p: nat)
    | Post(p: nat, answer: Option<string>)
    | Record(p: nat, status: string)
    | Save(p: nat, status: string)
    | PollFails(p: nat)
    | PollAnswers(p: nat, response: Fields)
    | Crash(p: nat)

  function At(s: System, p: nat): Pc {
    if p in s.pcs then s.pcs[p] else Idle
  }

  function Go(s: System, p: nat, pc: Pc): System {
    s.(pcs := s.pcs[p := pc])
  }

  function Loading(s: System, p: nat, job: Job): System {
    match Load(s.file, job)
    case Poll(copy) => Go(s, p, Polling(copy))
    case Absent => Go(s, p, Creating(job))
    case Refused(_) => Go(s, p, Idle)
  }

  /** `open("x")`; when the file is there after all, load it. */
  function CreatingFile(s: System, p: nat, job: Job): System {
    if s.file.Some? then Loading(s, p, job)
    else Go(s.(file := Some(PreparedState(job))), p, Prepared(PreparedState(job)))
  }

  /** The POST goes out; a batch ID comes back, or nothing usable does. */
  function Posting(s: System, p: nat, copy: Sidecar, answer: Option<string>): System {
    var sent := s.(log := s.log + [Posted(copy.job)]);
    match answer
    case Some(id) => Go(sent, p, Submitted(copy.(batchId := Some(id))))
    case None => Go(sent, p, Failed(copy))
  }

  /** One turn of the polling loop that gets an answer. */
  function Answered(s: System, p: nat, copy: Sidecar, response: Fields): System
    requires copy.batchId.Some?
  {
    var status, id := StatusOf(response), copy.batchId.value;
    var next := copy.(status := status);
    var seen := s.(file := Some(next), log := s.log + [Fetched(copy.job, id, response)]);
    if !IsTerminal(status) then Go(seen, p, Polling(next))
    else if status != "completed" then Go(seen, p, Idle)
    else
      match CompletedResponse(response, copy.job.customId)
      case Ok(body) => Go(seen.(log := seen.log + [Returned(copy.job, id, body)]), p, Idle)
      case Err(_) => Go(seen, p, Idle)
  }

  /** One step; a step that is not possible in the state leaves it alone. */
  function Apply(s: System, step: Step): System {
    match step
    case Start(p, job) => if At(s, p).Idle? then Loading(s, p, job) else s
    case Create(p) => (match At(s, p) case Creating(job) => CreatingFile(s, p, job) case _ => s)
    case Post(p, answer) => (match At(s, p) case Prepared(copy) => Posting(s, p, copy, answer) case _ => s)
    case Record(p, status) =>
      (match At(s, p) case Failed(copy) => Go(s.(file := Some(copy.(status := status))), p, Idle) case _ => s)
    case Save(p, status) =>
      (match At(s, p)
       case Submitted(copy) => Go(s.(file := Some(copy.(status := status))), p, Polling(copy.(status := status)))
       case _ => s)
    case PollFails(p) => (match At(s, p) case Polling(copy) => s.(file := Some(copy)) case _ => s)
    case PollAnswers(p, response) =>
      (match At(s, p)
       case Polling(copy) => if copy.batchId.Some? then Answered(s, p, copy, response) else s
       case _ => s)
    case Crash(p) => Go(s, p, Idle)
  }

  const EMPTY := System(None, map[], [])

  function Run(steps: seq<Step>): System {
    if steps == [] then EMPTY else Apply(Run(steps[..|steps| - 1]), steps[|steps| - 1])
  }

  function Posts(log: seq<Event>): nat {
    if log == [] then 0 else Posts(log[..|log| - 1]) + if log[|log| - 1].Posted? then 1 else 0
  }

  lemma PostsSnoc(log: seq<Event>, e: Event)
    ensures Posts(log + [e]) == Posts(log) + if e.Posted? then 1 else 0
  {
    assert (log + [e])[..|log|] == log;
  }

  // ---- the invariant ----

  /** The process that created the sidecar and has not finished with the submission. */
  predicate Submitter(pc: Pc) {
    pc.Prepared? || pc.Failed? || pc.Submitted?
  }

  predicate PcSound(s: System, pc: Pc) {
    match pc
    case Idle => true
    case Creating(_) => true
    case Prepared(copy) =>
      s.file.Some? && s.file.value.job == copy.job && s.file.value.batchId == None && copy.batchId == None
          && Posts(s.log) == 0
    case Failed(copy) =>
      s.file.Some? && s.file.value.job == copy.job && s.file.value.batchId == None && copy.batchId == None
          && Posts(s.log) == 1
    case Submitted(copy) =>
      s.file.Some? && s.file.value.job == copy.job && s.file.value.batchId == None && copy.batchId.Some?
          && Posts(s.log) == 1
    case Polling(copy) =>
      s.file.Some? && s.file.value.job == copy.job && copy.batchId.Some? && s.file.value.batchId == copy.batchId
  }

  /** What was sent and returned belongs to the job and batch of the sidecar; a returned body
      is the single matching result of a response of that batch. */
  predicate EventSound(s: System, i: nat)
    requires i < |s.log|
  {
    match s.log[i]
    case Posted(job) => s.file.Some? && s.file.value.job == job
    case Fetched(job, id, _) => s.file.Some? && s.file.value.job == job && s.file.value.batchId == Some(id)
    case Returned(job, id, body) =>
      && s.file.Some? && s.file.value.job == job && s.file.value.batchId == Some(id)
      && i > 0 && s.log[i - 1].Fetched? && s.log[i - 1].job == job && s.log[i - 1].batchId == id
      && CompletedResponse(s.log[i - 1].response, job.customId) == Ok(body)
  }

  predicate OneSubmitter(s: System) {
    forall p, q | p in s.pcs && q in s.pcs && Submitter(s.pcs[p]) && Submitter(s.pcs[q]) :: p == q
  }

  predicate Inv(s: System) {
    && Posts(s.log) <= 1
    && (s.file == None ==> s.log == [])
    && (s.file.Some? && s.file.value.batchId.Some? ==> Posts(s.log) == 1)
    && (forall p | p in s.pcs :: PcSound(s, s.pcs[p]))
    && OneSubmitter(s)
    && (forall i | 0 <= i < |s.log| :: EventSound(s, i))
  }

  /** The job of a sidecar never changes, and its batch ID is written once. */
  predicate KeepsFile(before: Option<Sidecar>, after: Option<Sidecar>) {
    before.Some? ==>
      && after.Some? && after.value.job == before.value.job
      && (before.value.batchId.Some? ==> after.value.batchId == before.value.batchId)
  }

  // ---- every step keeps it ----

  /** A process moves without touching file or log. */
  lemma MoveKeeps(s: System, p: nat, pc: Pc)
    requires Inv(s) && PcSound(s, pc) && !Submitter(pc)
    ensures Inv(Go(s, p, pc))
  {
    var t := Go(s, p, pc);
    forall i | 0 <= i < |t.log| ensures EventSound(t, i) {
      assert EventSound(s, i);
    }
  }

  lemma LoadingKeeps(s: System, p: nat, job: Job)
    requires Inv(s)
    ensures Inv(Loading(s, p, job)) && Loading(s, p, job).file == s.file
  {
    match Load(s.file, job)
    case Poll(copy) => MoveKeeps(s, p, Polling(copy));
    case Absent => MoveKeeps(s, p, Creating(job));
    case Refused(_) => MoveKeeps(s, p, Idle);
  }

  lemma CreateKeeps(s: System, p: nat, job: Job)
    requires Inv(s) && At(s, p) == Creating(job)
    ensures Inv(CreatingFile(s, p, job)) && KeepsFile(s.file, CreatingFile(s, p, job).file)
  {
    if s.file.Some? {
      LoadingKeeps(s, p, job);
    } else {
      var t := CreatingFile(s, p, job);
      forall q | q in t.pcs ensures PcSound(t, t.pcs[q]) && (q != p ==> !Submitter(t.pcs[q])) {
        if q != p {
          assert PcSound(s, s.pcs[q]);
        }
      }
    }
  }

  lemma PostKeeps(s: System, p: nat, copy: Sidecar, answer: Option<string>)
    requires Inv(s) && At(s, p) == Prepared(copy)
    ensures Inv(Posting(s, p, copy, answer)) && Posting(s, p, copy, answer).file == s.file
  {
    assert PcSound(s, s.pcs[p]);
    var t := Posting(s, p, copy, answer);
    PostsSnoc(s.log, Posted(copy.job));
    forall q | q in t.pcs ensures PcSound(t, t.pcs[q]) {
      if q != p {
        assert PcSound(s, s.pcs[q]);
        assert !Submitter(s.pcs[q]);
      }
    }
    forall i | 0 <= i < |t.log| ensures EventSound(t, i) {
      if i < |s.log| {
        assert EventSound(s, i);
      }
    }
  }

  /** The submitter writes its copy back, with or without the batch ID it learned. */
  lemma WriteKeeps(s: System, p: nat, next: Sidecar, pc: Pc)
    requires Inv(s) && p in s.pcs && (s.pcs[p].Failed? || s.pcs[p].Submitted?)
    requires next.job == s.pcs[p].copy.job && next.batchId == s.pcs[p].copy.batchId
    requires pc == Idle || (pc == Polling(next) && next.batchId.Some?)
    ensures Inv(Go(s.(file := Some(next)), p, pc)) && KeepsFile(s.file, Some(next))
  {
    assert PcSound(s, s.pcs[p]);
    var t := Go(s.(file := Some(next)), p, pc);
    forall q | q in t.pcs ensures PcSound(t, t.pcs[q]) {
      if q != p {
        assert PcSound(s, s.pcs[q]);
        assert !Submitter(s.pcs[q]);
      }
    }
    forall i | 0 <= i < |t.log| ensures EventSound(t, i) {
      assert EventSound(s, i);
    }
  }

  /** A poller writes its copy back: same job, same batch ID. */
  lemma PollerKeeps(s: System, p: nat, next: Sidecar, events: seq<Event>, pc: Pc)
    requires Inv(s) && p in s.pcs && s.pcs[p].Polling?
    requires next.job == s.pcs[p].copy.job && next.batchId == s.pcs[p].copy.batchId
    requires pc == Idle || pc == Polling(next) || pc == s.pcs[p]
    requires forall e | e in events :: !e.Posted?
    requires var t := System(Some(next), s.pcs[p := pc], s.log + events);
             forall i | |s.log| <= i < |t.log| :: EventSound(t, i)
    ensures Inv(System(Some(next), s.pcs[p := pc], s.log + events)) && KeepsFile(s.file, Some(next))
  {
    assert PcSound(s, s.pcs[p]);
    var t := System(Some(next), s.pcs[p := pc], s.log + events);
    NoPosts(s.log, events);
    forall q | q in t.pcs ensures PcSound(t, t.pcs[q]) {
      if q != p {
        assert PcSound(s, s.pcs[q]);
      }
    }
    forall i | 0 <= i < |t.log| ensures EventSound(t, i) {
      if i < |s.log| {
        assert EventSound(s, i);
      }
    }
  }

  lemma {:induction false} NoPosts(log: seq<Event>, events: seq<Event>)
    requires forall e | e in events :: !e.Posted?
    ensures Posts(log + events) == Posts(log)
  {
    if events == [] {
      assert log + events == log;
    } else {
      var init, last := events[..|events| - 1], events[|events| - 1];
      assert log + events == (log + init) + [last];
      PostsSnoc(log + init, last);
      NoPosts(log, init);
    }
  }

  lemma AnswerKeeps(s: System, p: nat, copy: Sidecar, response: Fields)
    requires Inv(s) && At(s, p) == Polling(copy) && copy.batchId.Some?
    ensures Inv(Answered(s, p, copy, response)) && KeepsFile(s.file, Answered(s, p, copy, response).file)
  {
    assert PcSound(s, s.pcs[p]);
    var status, id := StatusOf(response), copy.batchId.value;
    var next := copy.(status := status);
    var fetched := Fetched(copy.job, id, response);
    if !IsTerminal(status) {
      PollerKeeps(s, p, next, [fetched], Polling(next));
    } else if status == "completed" && CompletedResponse(response, copy.job.customId).Ok? {
      var body := CompletedResponse(response, copy.job.customId).value;
      var events := [fetched] + [Returned(copy.job, id, body)];
      assert s.log + [fetched] + [Returned(copy.job, id, body)] == s.log + events;
      PollerKeeps(s, p, next, events, Idle);
    } else {
      PollerKeeps(s, p, next, [fetched], Idle);
    }
  }

  lemma SubmittedHasId(s: System, p: nat)
    requires Inv(s) && At(s, p).Submitted?
    ensures At(s, p).copy.batchId.Some?
  {
    assert PcSound(s, s.pcs[p]);
  }

  lemma PollFailKeeps(s: System, p: nat)
    requires Inv(s) && At(s, p).Polling?
    ensures Inv(s.(file := Some(At(s, p).copy))) && KeepsFile(s.file, Some(At(s, p).copy))
  {
    var pc := At(s, p);
    PollerKeeps(s, p, pc.copy, [], pc);
    assert s.log + [] == s.log && s.pcs[p := pc] == s.pcs;
  }

  lemma StepKeeps(s: System, step: Step)
    requires Inv(s)
    ensures Inv(Apply(s, step)) && KeepsFile(s.file, Apply(s, step).file)
  {
    hide Inv, Loading, CreatingFile, Posting, Answered;
    match step
    case Start(p, job) => LoadingKeeps(s, p, job);
    case Create(p) =>
      if At(s, p).Creating? {
        CreateKeeps(s, p, At(s, p).job);
      }
    case Post(p, answer) =>
      if At(s, p).Prepared? {
        PostKeeps(s, p, At(s, p).copy, answer);
      }
    case Record(p, status) =>
      if At(s, p).Failed? {
        WriteKeeps(s, p, At(s, p).copy.(status := status), Idle);
      }
    case Save(p, status) =>
      if At(s, p).Submitted? {
        SubmittedHasId(s, p);
        var next := At(s, p).copy.(status := status);
        WriteKeeps(s, p, next, Polling(next));
      }
    case PollFails(p) =>
      if At(s, p).Polling? {
        PollFailKeeps(s, p);
      }
    case PollAnswers(p, response) =>
      if At(s, p).Polling? && At(s, p).copy.batchId.Some? {
        AnswerKeeps(s, p, At(s, p).copy, response);
      }
    case Crash(p) => MoveKeeps(s, p, Idle);
  }

  // ---- every run ----

  lemma {:induction false} RunKeeps(steps: seq<Step>)
    ensures Inv(Run(steps))
  {
    if steps != [] {
      RunKeeps(steps[..|steps| - 1]);
      StepKeeps(Run(steps[..|steps| - 1]), steps[|steps| - 1]);
    }
  }

  /** Over any number of processes, restarts and crashes on one sidecar, at most one POST is
      issued, and it is for the job the sidecar was created for. */
  lemma SubmittedAtMostOnce(steps: seq<Step>)
    ensures Posts(Run(steps).log) <= 1
    ensures forall i | 0 <= i < |Run(steps).log| && Run(steps).log[i].Posted? ::
              Run(steps).file.Some? && Run(steps).log[i].job == Run(steps).file.value.job
  {
    RunKeeps(steps);
    var s := Run(steps);
    forall i | 0 <= i < |s.log| && s.log[i].Posted? ensures s.file.Some? && s.log[i].job == s.file.value.job {
      assert EventSound(s, i);
    }
  }

  /** The job of the sidecar stays, and its batch ID once written is never changed. */
  lemma {:induction false} BatchIdIsWriteOnce(steps: seq<Step>, more: seq<Step>)
    ensures KeepsFile(Run(steps).file, Run(steps + more).file)
  {
    if more == [] {
      assert steps + more == steps;
    } else {
      var init, last := more[..|more| - 1], more[|more| - 1];
      assert steps + more == steps + init + [last];
      assert (steps + init + [last])[..|steps + init|] == steps + init;
      BatchIdIsWriteOnce(steps, init);
      RunKeeps(steps + init);
      StepKeeps(Run(steps + init), last);
    }
  }

  /** Every body handed to a caller is the successful body of the one result, in a response
      fetched for the saved batch ID, that carries the caller's own custom ID. */
  lemma ReturnedBodyIsTheMatch(steps: seq<Step>, i: nat)
    requires i < |Run(steps).log| && Run(steps).log[i].Returned?
    ensures var s := Run(steps);
            var e := s.log[i];
            && s.file.Some? && s.file.value.job == e.job && s.file.value.batchId == Some(e.batchId)
            && exists response: Fields, items: seq<Json>, k: nat ::
                 Fetched(e.job, e.batchId, response) in s.log && Get(response, "results") == Some(Arr(items))
                     && k < |items|
                 && Matches(items[k], e.job.customId) && BodyOf(items[k]) == Some(e.body)
                 && forall m | 0 <= m < |items| && Matches(items[m], e.job.customId) :: m == k
  {
    RunKeeps(steps);
    var s := Run(steps);
    assert EventSound(s, i);
    var e, response := s.log[i], s.log[i - 1].response;
    assert s.log[i - 1] == Fetched(e.job, e.batchId, response);
    CompletedResponseIff(response, e.job.customId, e.body);
    var items, k :| Get(response, "results") == Some(Arr(items)) && 0 <= k < |items|
                   && Matches(items[k], e.job.customId) && BodyOf(items[k]) == Some(e.body)
                   && forall m | 0 <= m < |items| && Matches(items[m], e.job.customId) :: m == k;
    assert Fetched(e.job, e.batchId, response) in s.log;
  }
}
