/** Runs of `/predict` and `/update` requests served one after another against
    the same table, and what holds over any such run: rows are never removed,
    their observation and probability never change, each key is created at most
    once, and every created row was reported to its caller. */
module RequestLog {
  import opened PyJson
  import opened Predictions

  datatype Request = PredictRequest(payload: Payload) | UpdateRequest(payload: Payload)

  /** The reply announces a newly stored row under key `k`. */
  predicate Creates(r: Response, k: string) {
    r.status == 200 && r.body.Scored? && r.body.id == k
  }

  /** One request served: no row disappears and no stored observation or
      probability changes; only `/update` touches a stored row, and only its label. */
  function Step(rows: Table, req: Request, score: Scorer): (out: (Table, Response))
    ensures rows.Keys <= out.0.Keys
    ensures forall k :: k in rows ==>
              out.0[k].observation == rows[k].observation && out.0[k].proba == rows[k].proba
    ensures req.PredictRequest? ==> forall k :: k in rows ==> out.0[k] == rows[k]
    ensures forall k :: Creates(out.1, k) ==> k !in rows && k in out.0
  {
    match req
    case PredictRequest(payload) => PredictStep(rows, payload, score)
    case UpdateRequest(payload) => UpdateStep(rows, payload)
  }

  /** Serving `reqs` in order: the final table and one reply per request. */
  function Run(rows: Table, reqs: seq<Request>, score: Scorer): (out: (Table, seq<Response>))
    ensures |out.1| == |reqs|
    decreases |reqs|
  {
    if reqs == [] then (rows, [])
    else
      var (next, reply) := Step(rows, reqs[0], score);
      var (last, replies) := Run(next, reqs[1..], score);
      (last, [reply] + replies)
  }

  /** How many replies announce a newly stored row. */
  function CountCreated(replies: seq<Response>): nat
    decreases |replies|
  {
    if replies == [] then 0
    else (if replies[0].status == 200 && replies[0].body.Scored? then 1 else 0) + CountCreated(replies[1..])
  }

  /** A stored row survives every later request with its observation and probability. */
  lemma {:induction false} RunFreezesRows(rows: Table, reqs: seq<Request>, score: Scorer, k: string)
    requires k in rows
    ensures var last := Run(rows, reqs, score).0;
            k in last && last[k].observation == rows[k].observation && last[k].proba == rows[k].proba
    decreases |reqs|
  {
    if reqs != [] {
      var next := Step(rows, reqs[0], score).0;
      RunFreezesRows(next, reqs[1..], score, k);
    }
  }

  /** The table grows by exactly the number of successful `/predict` replies. */
  lemma {:induction false} RunCountsCreated(rows: Table, reqs: seq<Request>, score: Scorer)
    ensures var (last, replies) := Run(rows, reqs, score);
            |last| == |rows| + CountCreated(replies)
    decreases |reqs|
  {
    if reqs != [] {
      var (next, reply) := Step(rows, reqs[0], score);
      RunCountsCreated(next, reqs[1..], score);
      var replies := Run(rows, reqs, score).1;
      assert replies[1..] == Run(next, reqs[1..], score).1;
    }
  }

  /** A key already stored is never announced as created again. */
  lemma {:induction false} StoredKeyNeverCreated(rows: Table, reqs: seq<Request>, score: Scorer, k: string)
    requires k in rows
    ensures forall i :: 0 <= i < |reqs| ==> !Creates(Run(rows, reqs, score).1[i], k)
    decreases |reqs|
  {
    if reqs != [] {
      var (next, reply) := Step(rows, reqs[0], score);
      StoredKeyNeverCreated(next, reqs[1..], score, k);
      var replies := Run(rows, reqs, score).1;
      assert replies == [reply] + Run(next, reqs[1..], score).1;
      assert !Creates(reply, k);
    }
  }

  /** However many requests name the same id, at most one of them creates its row. */
  lemma {:induction false} AtMostOneCreation(rows: Table, reqs: seq<Request>, score: Scorer, k: string, i: nat, j: nat)
    requires i < |reqs| && j < |reqs|
    requires Creates(Run(rows, reqs, score).1[i], k) && Creates(Run(rows, reqs, score).1[j], k)
    ensures i == j
    decreases |reqs|
  {
    var replies := Run(rows, reqs, score).1;
    var next := Step(rows, reqs[0], score).0;
    var rest := Run(next, reqs[1..], score).1;
    assert replies == [replies[0]] + rest;
    if i > 0 && j > 0 {
      AtMostOneCreation(next, reqs[1..], score, k, i - 1, j - 1);
    } else if i > 0 || j > 0 {
      // the first request created `k`, so no later one can
      assert k in next;
      StoredKeyNeverCreated(next, reqs[1..], score, k);
      assert false;
    }
  }

  /** Every row the run added was announced to its caller, with the probability
      that is still stored at the end. */
  lemma {:induction false} NewRowWasReported(rows: Table, reqs: seq<Request>, score: Scorer, k: string)
    requires k in Run(rows, reqs, score).0 && k !in rows
    ensures var (last, replies) := Run(rows, reqs, score);
            exists i :: 0 <= i < |replies| && replies[i] == Response(200, Scored(k, last[k].proba))
    decreases |reqs|
  {
    var (next, reply) := Step(rows, reqs[0], score);
    var (last, replies) := Run(rows, reqs, score);
    assert replies == [reply] + Run(next, reqs[1..], score).1;
    assert last == Run(next, reqs[1..], score).0;
    if k in next {
      // the first request created the row; its probability never changes afterwards
      RunFreezesRows(next, reqs[1..], score, k);
      assert replies[0] == Response(200, Scored(k, last[k].proba));
    } else {
      NewRowWasReported(next, reqs[1..], score, k);
      var i :| 0 <= i < |replies| - 1 && replies[1..][i] == Response(200, Scored(k, last[k].proba));
      assert replies[i + 1] == Response(200, Scored(k, last[k].proba));
    }
  }

  /** Every stored probability stays the pipeline's score of its stored observation. */
  lemma {:induction false} RunKeepsConsistent(rows: Table, reqs: seq<Request>, score: Scorer)
    requires Consistent(rows, score)
    ensures Consistent(Run(rows, reqs, score).0, score)
    decreases |reqs|
  {
    if reqs != [] {
      StepsKeepConsistent(rows, reqs[0].payload, score);
      RunKeepsConsistent(Step(rows, reqs[0], score).0, reqs[1..], score);
    }
  }

  function Repeat(req: Request, n: nat): seq<Request> {
    seq(n, _ => req)
  }

  /** Once its key is stored, every further copy of a `/predict` is refused as a
      duplicate and leaves the table alone. */
  lemma {:induction false} RepeatedDuplicates(rows: Table, payload: Payload, score: Scorer, n: nat)
    requires HasPredictFields(payload) && Key(payload["id"]) in rows
    ensures var (last, replies) := Run(rows, Repeat(PredictRequest(payload), n), score);
            && last == rows
            && forall i :: 0 <= i < n ==> replies[i] == Response(400, FailureFor(DuplicateId, Key(payload["id"])))
    decreases n
  {
    if n > 0 {
      var reqs := Repeat(PredictRequest(payload), n);
      assert reqs[1..] == Repeat(PredictRequest(payload), n - 1);
      RepeatedDuplicates(rows, payload, score, n - 1);
      var replies := Run(rows, reqs, score).1;
      assert replies == [Step(rows, reqs[0], score).1] + Run(rows, reqs[1..], score).1;
    }
  }

  /** The same `/predict` sent `n + 1` times for a fresh id: the first is scored
      and stored, the other `n` are refused as duplicates (without a probability),
      and the table holds exactly one new row. */
  lemma {:induction false} RepeatedPredict(rows: Table, payload: Payload, score: Scorer, n: nat)
    requires HasPredictFields(payload) && Key(payload["id"]) !in rows
    requires score(payload["observation"]).Ok?
    ensures var k := Key(payload["id"]);
            var proba := score(payload["observation"]).value;
            var (last, replies) := Run(rows, Repeat(PredictRequest(payload), n + 1), score);
            && last == rows[k := Prediction(payload["observation"], proba, JNull)]
            && |last| == |rows| + 1
            && replies[0] == Response(200, Scored(k, proba))
            && forall i :: 1 <= i <= n ==> replies[i] == Response(400, FailureFor(DuplicateId, k))
  {
    var reqs := Repeat(PredictRequest(payload), n + 1);
    var next := PredictStep(rows, payload, score).0;
    assert reqs[1..] == Repeat(PredictRequest(payload), n);
    RepeatedDuplicates(next, payload, score, n);
  }
}
