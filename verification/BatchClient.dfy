/** `execute_chat` as one process runs it, with the polling loop
    (providers/openrouter_batch.py). */
module BatchClient {
  import opened Json
  import opened Batch

  /** What the POST brings back: a batch ID, an unusable answer, or an exception. */
  datatype Submission = Accepted(id: string, status: string) | Unusable | Fails

  /** What one GET brings back. */
  datatype Reply = Transient | NotAnObject | Answer(response: Fields)

  /** What polling comes to: the first terminal answer decides; without one before the
      deadline the batch is still pending. */
  function PollOutcome(replies: seq<Reply>, customId: string): Result<Fields, Error> {
    if replies == [] then Err(Pending)
    else
      match replies[0]
      case Transient => PollOutcome(replies[1..], customId)
      case NotAnObject => Err(InvalidEnvelope)
      case Answer(response) =>
        if !IsTerminal(StatusOf(response)) then PollOutcome(replies[1..], customId)
        else if StatusOf(response) != "completed" then Err(TerminalFailure)
        else CompletedResponse(response, customId)
  }

  predicate Undecided(reply: Reply) {
    reply.Transient? || (reply.Answer? && !IsTerminal(StatusOf(reply.response)))
  }

  lemma {:induction false} SkipUndecided(replies: seq<Reply>, k: nat, customId: string)
    requires k <= |replies| && forall i | 0 <= i < k :: Undecided(replies[i])
    ensures PollOutcome(replies, customId) == PollOutcome(replies[k..], customId)
  {
    if k > 0 {
      assert forall i | 0 <= i < k - 1 :: replies[1..][i] == replies[i + 1];
      SkipUndecided(replies[1..], k - 1, customId);
      assert replies[1..][k - 1..] == replies[k..];
    } else {
      assert replies[0..] == replies;
    }
  }

  class Client {
    var file: Option<Sidecar>

    constructor ()
      ensures file == None
    {
      file := None;
    }

    /** `_load_or_prepare_state`: the sidecar to poll, or a fresh one that is ours to submit. */
    method LoadOrPrepare(job: Job) returns (r: Result<Sidecar, Error>)
      modifies this
      ensures old(file) == None ==> r == Ok(PreparedState(job)) && file == Some(PreparedState(job))
      ensures old(file).Some? ==> file == old(file)
      ensures old(file).Some? ==>
                r == (match Load(old(file), job)
                      case Poll(copy) => Ok(copy)
                      case Refused(e) => Err(e)
                      case Absent => Err(Pending))
    {
      if file.Some? {
        var saved := file.value;
        if saved.job != job {
          return Err(StateMismatch);
        }
        if saved.batchId == None {
          return Err(SubmissionAmbiguous);
        }
        return Ok(saved);
      }
      file := Some(PreparedState(job));
      return Ok(PreparedState(job));
    }

    /** The POST goes out exactly when there was no sidecar. A saved batch ID is kept; a saved
        sidecar without one, or of another job, is refused before any request. */
    method ExecuteChat(job: Job, submission: Submission, replies: seq<Reply>)
        returns (r: Result<Fields, Error>, posts: nat)
      modifies this
      ensures posts == if old(file) == None then 1 else 0
      ensures file.Some?
                && (old(file).Some? ==>
                     file.value.job == old(file).value.job && file.value.batchId == old(file).value.batchId)
      ensures old(file) == None ==>
                file.value.job == job
                    && file.value.batchId == if submission.Accepted? then Some(submission.id) else None
      ensures r == if old(file).Some? && old(file).value.job != job then Err(StateMismatch)
                   else if old(file).Some? && old(file).value.batchId == None then Err(SubmissionAmbiguous)
                   else if old(file) == None && submission.Fails? then Err(SubmissionFailed)
                   else if old(file) == None && submission.Unusable? then Err(NoBatchId)
                   else PollOutcome(replies, job.customId)
    {
      posts := 0;
      var loaded := LoadOrPrepare(job);
      if loaded.Err? {
        return Err(loaded.error), posts;
      }
      var state := loaded.value;
      if state.batchId == None {
        posts := posts + 1;
        match submission {
          case Fails =>
            file := Some(state.(status := "submission_ambiguous"));
            return Err(SubmissionFailed), posts;
          case Unusable =>
            file := Some(state.(status := "submission_contract_failed"));
            return Err(NoBatchId), posts;
          case Accepted(id, status) =>
            state := state.(batchId := Some(id), status := if status == "" then "validating" else status);
            file := Some(state);
        }
      }
      var k := 0;
      while k < |replies|
        invariant 0 <= k <= |replies|
        invariant forall i | 0 <= i < k :: Undecided(replies[i])
        invariant state.job == job && state.batchId.Some?
        invariant old(file).Some? ==> state.batchId == old(file).value.batchId && old(file).value.job == job
        invariant old(file) == None ==> submission.Accepted? && state.batchId == Some(submission.id)
        invariant file.Some? && file.value.job == state.job && file.value.batchId == state.batchId
      {
        SkipUndecided(replies, k, job.customId);
        match replies[k] {
          case Transient =>
            file := Some(state);
          case NotAnObject =>
            return Err(InvalidEnvelope), posts;
          case Answer(response) =>
            state := state.(status := StatusOf(response));
            file := Some(state);
            if IsTerminal(state.status) {
              if state.status != "completed" {
                return Err(TerminalFailure), posts;
              }
              r := CompletedResponse(response, job.customId);
              return r, posts;
            }
        }
        k := k + 1;
      }
      SkipUndecided(replies, k, job.customId);
      return Err(Pending), posts;
    }
  }
}
