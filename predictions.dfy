/** The `/predict` and `/update` handlers of the inference service, as transitions
    over the `Prediction` table keyed by the string form of the caller's id. */
module Predictions {
  import opened PyJson

  /** One row of the `Prediction` table (without its key). The observation is
      kept as the decoded JSON value (encoding it to text and decoding it again
      is taken to be the identity); `trueClass` is `JNull` while the column is
      NULL, which is how every row starts. */
  datatype Prediction = Prediction(observation: Json, proba: real, trueClass: Json)

  /** The table: primary key `observation_id` to the rest of the row. */
  type Table = map<string, Prediction>

  /** A request body: a decoded JSON object. */
  type Payload = map<string, Json>

  /** The trained pipeline applied to one observation (building the one-row frame
      over the expected columns, then the positive-class probability), or the text
      of the exception it raised. Loaded once at start-up. */
  type Scorer = Json -> Result<real>

  /** The JSON body of a reply. */
  datatype Body =
    | Failure(error: string)
    | FailureFor(error: string, id: string)
    | Scored(id: string, probability: real)
    | Labelled(id: string, observation: Json, probability: real, trueClass: Json)

  datatype Response = Response(status: int, body: Body)

  const MissingPredictFields := "Faltam campos obrigatorios (id, observation)"
  const MissingUpdateFields := "Faltam campos obrigatorios (id, true_class)"
  const DuplicateId := "ID ja existe"
  const UnknownId := "ID nao encontrado"

  /** The key a request's id names: Python's `str()` of it. */
  function Key(id: Json): string {
    PyStr(id)
  }

  predicate HasPredictFields(payload: Payload) {
    "id" in payload && "observation" in payload
  }

  predicate HasUpdateFields(payload: Payload) {
    "id" in payload && "true_class" in payload
  }

  /** Every stored probability is what the scorer gives for the stored observation. */
  ghost predicate Consistent(rows: Table, score: Scorer) {
    forall k :: k in rows ==> score(rows[k].observation) == Ok(rows[k].proba)
  }

  /** `/predict`: the new table and the reply. */
  function PredictStep(rows: Table, payload: Payload, score: Scorer): (out: (Table, Response))
    // which reply each path gives
    ensures out.1.status in {200, 400, 500}
    ensures !HasPredictFields(payload) ==> out.1 == Response(400, Failure(MissingPredictFields))
    ensures HasPredictFields(payload) && Key(payload["id"]) in rows ==>
              out.1 == Response(400, FailureFor(DuplicateId, Key(payload["id"])))
    ensures HasPredictFields(payload) && Key(payload["id"]) !in rows && score(payload["observation"]).Err? ==>
              out.1 == Response(500, Failure(score(payload["observation"]).message))
    ensures out.1.status == 200 <==>
              HasPredictFields(payload) && Key(payload["id"]) !in rows && score(payload["observation"]).Ok?
    // every error leaves the table as it was
    ensures out.1.status != 200 ==> out.0 == rows
    // a success adds exactly one unlabelled row under the caller's key and reports the stored probability
    ensures out.1.status == 200 ==>
              var k := Key(payload["id"]);
              && k !in rows
              && out.0.Keys == rows.Keys + {k}
              && |out.0| == |rows| + 1
              && (forall j :: j in rows ==> out.0[j] == rows[j])
              && out.0[k] == Prediction(payload["observation"], score(payload["observation"]).value, JNull)
              && out.1.body == Scored(k, out.0[k].proba)
  {
    if !HasPredictFields(payload) then
      (rows, Response(400, Failure(MissingPredictFields)))
    else
      var id := Key(payload["id"]);
      var observation := payload["observation"];
      if id in rows then
        (rows, Response(400, FailureFor(DuplicateId, id)))
      else
        match score(observation)
        case Err(message) => (rows, Response(500, Failure(message)))
        case Ok(proba) =>
          (rows[id := Prediction(observation, proba, JNull)], Response(200, Scored(id, proba)))
  }

  /** `/update`: the new table and the reply. */
  function UpdateStep(rows: Table, payload: Payload): (out: (Table, Response))
    // which reply each path gives
    ensures out.1.status in {200, 400, 404}
    ensures !HasUpdateFields(payload) ==> out.1 == Response(400, Failure(MissingUpdateFields))
    ensures HasUpdateFields(payload) && Key(payload["id"]) !in rows ==>
              out.1 == Response(404, FailureFor(UnknownId, Key(payload["id"])))
    ensures out.1.status == 200 <==> HasUpdateFields(payload) && Key(payload["id"]) in rows
    // every error leaves the table as it was; in particular no row is created
    ensures out.1.status != 200 ==> out.0 == rows
    ensures out.0.Keys == rows.Keys && |out.0| == |rows|
    // a success relabels that one row, keeps its observation and probability, and echoes them
    ensures out.1.status == 200 ==>
              var k := Key(payload["id"]);
              && out.0[k].observation == rows[k].observation
              && out.0[k].proba == rows[k].proba
              && out.0[k].trueClass == payload["true_class"]
              && (forall j :: j in rows && j != k ==> out.0[j] == rows[j])
              && out.1.body == Labelled(k, rows[k].observation, rows[k].proba, payload["true_class"])
  {
    if !HasUpdateFields(payload) then
      (rows, Response(400, Failure(MissingUpdateFields)))
    else
      var id := Key(payload["id"]);
      var newClass := payload["true_class"];
      if id !in rows then
        (rows, Response(404, FailureFor(UnknownId, id)))
      else
        var row := rows[id];
        (rows[id := row.(trueClass := newClass)], Response(200, Labelled(id, row.observation, row.proba, newClass)))
  }

  /** A `/predict` for an id already stored, or without its fields, never consults the scorer. */
  lemma RejectedPredictIgnoresScorer(rows: Table, payload: Payload, s1: Scorer, s2: Scorer)
    requires !HasPredictFields(payload) || Key(payload["id"]) in rows
    ensures PredictStep(rows, payload, s1) == PredictStep(rows, payload, s2)
  {
  }

  /** The handlers cannot tell an integer id from the string of its digits. */
  lemma IntAndTextIdsNameSameRow(rows: Table, payload: Payload, score: Scorer, n: int)
    requires "id" in payload && payload["id"] == JInt(n)
    ensures var textual := payload["id" := JString(IntToDecimal(n))];
            && PredictStep(rows, payload, score) == PredictStep(rows, textual, score)
            && UpdateStep(rows, payload) == UpdateStep(rows, textual)
  {
    IntKeyIsItsText(n);
  }

  /** Repeating an `/update` changes nothing more and gives the same reply. */
  lemma UpdateIdempotent(rows: Table, payload: Payload)
    ensures var (once, reply) := UpdateStep(rows, payload);
            UpdateStep(once, payload) == (once, reply)
  {
    var (once, reply) := UpdateStep(rows, payload);
    if reply.status == 200 {
      var k := Key(payload["id"]);
      assert once[k := once[k].(trueClass := payload["true_class"])] == once;
    }
  }

  /** A later label for the same key replaces an earlier one: the table ends as
      if only the later `/update` had been made. */
  lemma UpdateOverwrites(rows: Table, first: Payload, second: Payload)
    requires HasUpdateFields(first) && HasUpdateFields(second)
    requires Key(first["id"]) == Key(second["id"])
    ensures UpdateStep(UpdateStep(rows, first).0, second) == UpdateStep(rows, second)
  {
    var k := Key(first["id"]);
    if k in rows {
      var once := UpdateStep(rows, first).0;
      assert once[k := once[k].(trueClass := second["true_class"])]
          == rows[k := rows[k].(trueClass := second["true_class"])];
    }
  }

  /** Both handlers keep every stored probability equal to the score of its observation. */
  lemma StepsKeepConsistent(rows: Table, payload: Payload, score: Scorer)
    requires Consistent(rows, score)
    ensures Consistent(PredictStep(rows, payload, score).0, score)
    ensures Consistent(UpdateStep(rows, payload).0, score)
  {
  }

  /** When the pipeline only gives probabilities, every stored one lies in [0, 1]. */
  lemma ConsistentProbaBounded(rows: Table, score: Scorer, k: string)
    requires Consistent(rows, score)
    requires forall obs :: score(obs).Ok? ==> 0.0 <= score(obs).value <= 1.0
    requires k in rows
    ensures 0.0 <= rows[k].proba <= 1.0
  {
  }

  /** The `Prediction` table together with the pipeline the service loaded. */
  class PredictionTable {
    const score: Scorer
    var rows: Table

    ghost predicate Valid()
      reads this
    {
      Consistent(rows, score)
    }

    /** A service started against an empty table. */
    constructor (score: Scorer)
      ensures Valid() && this.score == score && rows == map[]
    {
      this.score := score;
      rows := map[];
    }

    method Predict(payload: Payload) returns (resp: Response)
      requires Valid()
      modifies this
      ensures Valid()
      ensures (rows, resp) == PredictStep(old(rows), payload, score)
    {
      if !("id" in payload && "observation" in payload) {
        return Response(400, Failure(MissingPredictFields));
      }
      var id := Key(payload["id"]);
      var observation := payload["observation"];
      if id in rows {
        return Response(400, FailureFor(DuplicateId, id));
      }
      var scored := score(observation);
      if scored.Err? {
        return Response(500, Failure(scored.message));
      }
      rows := rows[id := Prediction(observation, scored.value, JNull)];
      resp := Response(200, Scored(id, scored.value));
    }

    method Update(payload: Payload) returns (resp: Response)
      requires Valid()
      modifies this
      ensures Valid()
      ensures (rows, resp) == UpdateStep(old(rows), payload)
    {
      if !("id" in payload && "true_class" in payload) {
        return Response(400, Failure(MissingUpdateFields));
      }
      var id := Key(payload["id"]);
      var newClass := payload["true_class"];
      if id !in rows {
        return Response(404, FailureFor(UnknownId, id));
      }
      var row := rows[id];
      rows := rows[id := row.(trueClass := newClass)];
      resp := Response(200, Labelled(id, row.observation, row.proba, newClass));
    }
  }
}
