# Prediction service handlers, modelled in Dafny

The service scores feature observations with a trained classification pipeline
and keeps one row per observation id in a `Prediction` table
(`observation_id` primary key, `observation` as JSON text, `proba`, and a
nullable `true_class`). Two HTTP handlers act on that table:

- `/predict` checks that the body has `id` and `observation`, turns the id
  into text with Python's `str()`, refuses an id that is already stored,
  scores the observation, inserts one unlabelled row and replies with the id
  and the probability. Any exception becomes a 500 reply carrying its text.
- `/update` checks that the body has `id` and `true_class`, turns the id into
  text the same way, replies 404 for an unknown id, and otherwise overwrites
  that row's `true_class` and echoes the stored observation and probability
  with the new label.

The model has three modules:

- `PyJson` (`json_value.dfy`): decoded JSON values and the text Python's
  `str()` gives for them, which is what the handlers use as the table key.
  Integers print in decimal; strings are their own key; `None`, `True` and
  `False` print as those words; lists and dicts print through `repr()`.
- `Predictions` (`predictions.dfy`): the row, the reply bodies and status
  codes, the two handlers as pure transitions `PredictStep` and `UpdateStep`
  over the table, and the class `PredictionTable`, whose `rows` map field the
  `Predict` and `Update` methods change in place, with early returns in the
  same order as the handlers' guards. The class keeps the invariant that every
  stored probability is the pipeline's score of the stored observation.
- `RequestLog` (`request_log.dfy`): any sequence of requests served one
  after the other, and the facts that hold over such a run. Rows are never
  removed. Their observation and probability never change. A key is created at
  most once. The table grows by exactly the number of successful `/predict`
  replies. Every row that was added was announced to its caller with the
  probability that stays stored.

The pipeline (building a one-row data frame over the expected columns, then
taking the positive-class probability) is a parameter of type
`Json -> Result<real>`. It is fixed when the table object is made, as the
service loads it once at start-up. An `Err` result stands for any exception
raised while scoring.

Facts about the handlers that the model keeps:

- The observation is not converted field by field. It is stored and scored
  as received.
- A duplicate id gets status 400 with a body holding only the error text and
  the id.
- The handler checks for a duplicate by looking the id up before it inserts.

## Model

| member | source | states |
|---|---|---|
| `PyJson.IntToDecimal` | app.py:43 | `str()` of an integer starts with `-` exactly for negatives and is otherwise all decimal digits |
| `PyJson.NatToDecimal` | app.py:43 | the digits of a non-negative id are non-empty, all decimal, and have no leading zero unless the id is 0 |
| `PyJson.DecimalRoundTrip` | app.py:43 | reading back the printed digits gives the same number |
| `PyJson.IntKeysInjective` | app.py:43 | two different integer ids never name the same row |
| `PyJson.IntKeyIsItsText` | app.py:43 | an integer id and the string of its digits give the same key |
| `PyJson.NullAndBoolKeys` | app.py:43 | `null`, `true` and `false` ids name the same rows as the strings "None", "True" and "False" |
| `PyJson.ListKeyExample` | app.py:43 | the list id `[1, ["x"]]` gives the key `[1, ['x']]`, as Python's `str()` prints it |
| `PyJson.DictKeyExample` | app.py:43 | the dict id `{"a": null, "b": true}` gives the key `{'a': None, 'b': True}`, as Python's `str()` prints it |
| `PyJson.DoubleQuotedRepr` | app.py:43 | inside list or dict ids, `repr()` prints the string `it's` in double quotes, with the single quote unescaped |
| `PyJson.EscapedQuoteRepr` | app.py:43 | inside list or dict ids, `repr()` prints the string `a'"` in single quotes and escapes the single quote |
| `Predictions.PredictStep` | app.py:36-62 | missing `id`/`observation` gives 400 with the missing-fields text; a stored key gives 400 `ID ja existe` with that key; a scorer failure gives 500 with its message; 200 happens exactly when the key is fresh and scoring succeeds; every non-200 reply leaves the table unchanged; a 200 adds exactly one row under `str(id)` holding the observation, the score and no label, keeps every other row, and replies with the key and the stored probability |
| `Predictions.UpdateStep` | app.py:66-93 | missing `id`/`true_class` gives 400 with the missing-fields text; an unknown key gives 404 `ID nao encontrado` with that key and creates nothing; 200 happens exactly when the key is stored; the set of keys never changes; a 200 sets only that row's label, keeps its observation and probability and every other row, and echoes observation, probability and the new label |
| `Predictions.RejectedPredictIgnoresScorer` | app.py:40-54 | a request refused for missing fields or a stored id gives the same outcome whatever the scorer does, so scoring is never reached |
| `Predictions.IntAndTextIdsNameSameRow` | app.py:43-77 | both handlers treat an integer id exactly like the string of its digits (`5` and `"5"` name one row) |
| `Predictions.UpdateIdempotent` | app.py:82-90 | repeating the same update leaves the table as the first one left it and gives the same reply |
| `Predictions.UpdateOverwrites` | app.py:82-83 | a later label for the same key replaces any earlier one: two updates end like the second alone |
| `Predictions.StepsKeepConsistent` | app.py:54-57 | both handlers keep every stored probability equal to the score of its stored observation |
| `Predictions.ConsistentProbaBounded` | app.py:54 | if the pipeline only yields probabilities, every stored probability is in [0, 1] |
| `Predictions.PredictionTable.constructor` | app.py:14-32 | a service started on an empty table, with the pipeline it loaded; the invariant holds |
| `Predictions.PredictionTable.Predict` | app.py:36-62 | the new rows and the reply are those of `PredictStep` on the old rows; the invariant is kept |
| `Predictions.PredictionTable.Update` | app.py:66-93 | the new rows and the reply are those of `UpdateStep` on the old rows; the invariant is kept |
| `RequestLog.Step` | app.py:35-93 | serving one request never removes a row or changes a stored observation or probability; `/predict` leaves stored rows untouched; a creation reply names a key that was absent and is now stored |
| `RequestLog.Run` | app.py:35-93 | serving a sequence of requests gives one reply per request |
| `RequestLog.RunFreezesRows` | app.py:57-83 | a stored row survives any run with its observation and probability |
| `RequestLog.RunCountsCreated` | app.py:47-59 | the table grows by exactly the number of successful `/predict` replies |
| `RequestLog.StoredKeyNeverCreated` | app.py:47-48 | once a key is stored, no later reply announces it as created |
| `RequestLog.AtMostOneCreation` | app.py:47-57 | within any run, at most one reply creates a given key |
| `RequestLog.NewRowWasReported` | app.py:57-59 | every row added by a run was announced by a 200 reply carrying its key and the probability still stored at the end |
| `RequestLog.RunKeepsConsistent` | app.py:54-57 | over any run, every stored probability stays the score of its stored observation |
| `RequestLog.RepeatedDuplicates` | app.py:47-48 | repeated `/predict` calls for a stored key are all refused with 400 `ID ja existe` and leave the table unchanged |
| `RequestLog.RepeatedPredict` | app.py:47-59 | the same `/predict` sent n+1 times for a fresh id is scored and stored once; the other n replies are 400 duplicates; exactly one row is added |

## Left out

- HTTP routing, `request.get_json` and `jsonify` (app.py:1, 35, 65): a request body is a decoded JSON object (`map<string, Json>`) and a reply is a status with a body datatype. A body that is not a JSON object is not modelled. In the source, an array or string body that does not contain both names gets the 400 missing-fields reply (app.py:40-41, 70-71). Any other such body ends in the 500 reply: `null`, a number or a bool fails at the `in` test, and an array or string containing both names fails at `data["id"]`.
- Module set-up (app.py:10, 25-26): the database connection and table creation are not modelled. As written, line 10 uses `os` without importing it, so the module fails at import. The model starts from an empty table and does not model an existing database file that already holds rows.
- Database failures: an error raised by the insert or by `save()` would give a 500 reply. The model has no failing store, so `/update` has no 500 path.
- The gap between the existence check (app.py:47) and the insert (app.py:57): requests are served one at a time. Under concurrency, a second insert of the same id would break the primary key and end in a 500 reply. That is not modelled.
- Loading `columns.json` and `pipeline.pickle` (app.py:29-32), the data-frame projection onto the columns and `predict_proba` (app.py:51, 54): these are folded into the opaque scorer parameter. Floating-point values are `real`.
- JSON encoding of the stored observation (app.py:57, 87): the stored value is the decoded observation itself, as if encoding and decoding were the identity.
- The text conversion that the `true_class` text column applies to a non-string label on save, and the column's length limit: the row keeps the label as received. A `null` label stores NULL, as in the source.
- Python's `str()` of floats: `JFloat` carries the printed text rather than computing it. Nothing restricts that text to what `str()` of a float can print (which always holds `.`, `e`, `inf` or `nan`), so `JFloat("5")` and `JInt(5)` would share a key in the model, though never in the source. Likewise `JObject` allows repeated member names, which the JSON decoder never produces. `repr()` of strings inside list or dict ids covers the choice of quote and the escapes for backslash, the quote, newline, carriage return and tab, but not the other non-printable characters.
- Server start-up (app.py:96-97).
