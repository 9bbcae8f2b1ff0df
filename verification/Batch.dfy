/** One asynchronous batch job behind a durable sidecar file: submitted at most once, polled by
    any process (providers/openrouter_batch.py). */
module Batch {
  import opened Json

  // ---- the sidecar ----

  /** What a sidecar is bound to. Hashes stand for what they are computed from. */
  datatype Job = Job(requestHash: string, customId: string, model: string, baseModel: string)

  datatype Sidecar = Sidecar(job: Job, batchId: Option<string>, status: string)

  datatype Error =
    | StateMismatch | SubmissionAmbiguous | SubmissionFailed | NoBatchId
    | Pending | InvalidEnvelope | TerminalFailure | NoResults | CorrelationFailed | ItemFailed

  /** How `_load_or_prepare_state` leaves a process: with the state to poll, or about to create. */
  datatype Loaded = Poll(copy: Sidecar) | Absent | Refused(error: Error)

  function Load(file: Option<Sidecar>, job: Job): Loaded {
    match file
    case None => Absent
    case Some(saved) =>
      if saved.job != job then Refused(StateMismatch)
      else if saved.batchId.None? then Refused(SubmissionAmbiguous)
      else Poll(saved)
  }

  function PreparedState(job: Job): Sidecar {
    Sidecar(job, None, "prepared")
  }

  predicate IsTerminal(status: string) {
    status == "completed" || status == "failed" || status == "expired" || status == "cancelled"
  }

  /** `str(batch.get("status") or "unknown")`. */
  function StatusOf(response: Fields): string {
    match Get(response, "status")
    case Some(Str(status)) => if status == "" then "unknown" else status
    case _ => "unknown"
  }

  // ---- the result of a completed batch ----

  /** The item answers the request with this custom ID. */
  predicate Matches(item: Json, customId: string) {
    item.Obj? && Get(item.fields, "custom_id") == Some(Str(customId))
  }

  function Matching(items: seq<Json>, customId: string): (r: seq<Json>)
    ensures forall x | x in r :: Matches(x, customId)
  {
    if items == [] then []
    else (if Matches(items[0], customId) then [items[0]] else []) + Matching(items[1..], customId)
  }

  /** The body of an item that succeeded. */
  function BodyOf(item: Json): Option<Fields>
    requires item.Obj?
  {
    var error, response := Get(item.fields, "error"), Get(item.fields, "response");
    if (error.Some? && error.value != Null) || response.None? || !response.value.Obj? then None
    else
      var fs := response.value.fields;
      if Get(fs, "status_code") != Some(Num(200.0)) then None
      else match Get(fs, "body") case Some(Obj(body)) => Some(body) case _ => None
  }

  /** `_completed_response`. */
  function CompletedResponse(batch: Fields, customId: string): Result<Fields, Error> {
    match Get(batch, "results")
    case Some(Arr(items)) =>
      var matches := Matching(items, customId);
      if |matches| != 1 then Err(CorrelationFailed)
      else
        assert matches[0] in matches;
        (match BodyOf(matches[0]) case Some(body) => Ok(body) case None => Err(ItemFailed))
    case _ => Err(NoResults)
  }

  lemma {:induction false} MatchingHas(items: seq<Json>, customId: string, i: nat)
    requires i < |items| && Matches(items[i], customId)
    ensures |Matching(items, customId)| >= 1
    ensures |Matching(items, customId)| == 1 ==>
              Matching(items, customId)[0] == items[i]
              && forall k | 0 <= k < |items| && Matches(items[k], customId) :: k == i
  {
    if i == 0 {
      if |Matching(items, customId)| == 1 {
        NoneMatches(items[1..], customId);
        assert forall k | 0 < k < |items| :: items[k] == items[1..][k - 1];
      }
    } else {
      MatchingHas(items[1..], customId, i - 1);
      if |Matching(items, customId)| == 1 {
        assert forall k | 0 < k < |items| :: items[k] == items[1..][k - 1];
      }
    }
  }

  lemma {:induction false} NoneMatches(items: seq<Json>, customId: string)
    requires Matching(items, customId) == []
    ensures forall k | 0 <= k < |items| :: !Matches(items[k], customId)
  {
    if items != [] {
      NoneMatches(items[1..], customId);
      assert forall k | 0 < k < |items| :: items[k] == items[1..][k - 1];
    }
  }

  lemma {:induction false} MatchingFrom(items: seq<Json>, customId: string)
    requires Matching(items, customId) != []
    ensures exists i :: 0 <= i < |items| && Matches(items[i], customId)
  {
    if Matches(items[0], customId) {
    } else {
      MatchingFrom(items[1..], customId);
      var i :| 0 <= i < |items[1..]| && Matches(items[1..][i], customId);
      assert items[i + 1] == items[1..][i];
    }
  }

  lemma {:induction false} MatchingOnly(items: seq<Json>, customId: string, i: nat)
    requires i < |items| && Matches(items[i], customId)
    requires forall k | 0 <= k < |items| && Matches(items[k], customId) :: k == i
    ensures Matching(items, customId) == [items[i]]
  {
    if i == 0 {
      assert forall k | 0 <= k < |items[1..]| :: items[1..][k] == items[k + 1];
      NothingMatches(items[1..], customId);
    } else {
      assert forall k | 0 <= k < |items[1..]| :: items[1..][k] == items[k + 1];
      MatchingOnly(items[1..], customId, i - 1);
    }
  }

  lemma {:induction false} NothingMatches(items: seq<Json>, customId: string)
    requires forall k | 0 <= k < |items| :: !Matches(items[k], customId)
    ensures Matching(items, customId) == []
  {
    if items != [] {
      assert forall k | 0 <= k < |items[1..]| :: items[1..][k] == items[k + 1];
      NothingMatches(items[1..], customId);
    }
  }

  /** A body is returned exactly when one and only one result carries the custom ID, and then
      it is that result's own successful body. */
  lemma CompletedResponseIff(batch: Fields, customId: string, body: Fields)
    ensures CompletedResponse(batch, customId) == Ok(body)
            <==> exists items, i :: Get(batch, "results") == Some(Arr(items)) && 0 <= i < |items|
                   && Matches(items[i], customId) && BodyOf(items[i]) == Some(body)
                   && forall k | 0 <= k < |items| && Matches(items[k], customId) :: k == i
  {
    match Get(batch, "results")
    case Some(Arr(items)) =>
      if CompletedResponse(batch, customId) == Ok(body) {
        MatchingFrom(items, customId);
        var i :| 0 <= i < |items| && Matches(items[i], customId);
        MatchingHas(items, customId, i);
      }
      if i :| 0 <= i < |items| && Matches(items[i], customId) && BodyOf(items[i]) == Some(body)
              && forall k | 0 <= k < |items| && Matches(items[k], customId) :: k == i {
        MatchingOnly(items, customId, i);
      }
    case _ =>
  }
}
