/** The question record and the response validation of `getQuestions`
    (lib/api.ts). The HTTP request itself is not modelled: the response reaches
    the model as `Some(parsed JSON body)`, or `None` when the request failed,
    the status was not 2xx or the body was not JSON. */
module QuestionApi {
  import opened Wrappers

  /** A parsed JSON value. JSON has no NaN, so a JavaScript number read from
      JSON is a real number, except that a literal too large for a double
      (`1e400`) parses to plus or minus Infinity; that value is folded into an
      arbitrary real here, which changes nothing because the filter only asks
      that `id` be a number. Duplicate keys collapse (the last one
      wins in `response.json()`), so an object is a map. */
  datatype Json =
    | JNull
    | JBool(b: bool)
    | JNum(n: real)
    | JStr(s: string)
    | JArr(items: seq<Json>)
    | JObj(fields: map<string, Json>)

  /** The `Question` interface. The filter only checks that `answers` is an
      array of length four, not that its entries are strings, so the entries
      stay JSON values here. */
  datatype Question = Question(id: real, text: string, answers: seq<Json>, correctAnswer: string)

  /** The errors `getQuestions` throws. */
  datatype ApiError =
    | TransportError    // the request failed, the status was not ok, or the body was not JSON
    | InvalidFormat     // "Invalid response format: expected array"
    | NoValidQuestions  // "No valid questions found in response"

  /** What the filter guarantees of a question that survives it. */
  predicate WellFormed(q: Question) {
    |q.answers| == 4 && JStr(q.correctAnswer) in q.answers
  }

  /** The filter predicate. A value that is not an object is either `null`
      (falsy) or reads `undefined` for every one of the four properties, so only
      objects can pass. */
  predicate IsValidRecord(v: Json)
    ensures IsValidRecord(v) ==> v.JObj? && {"id", "text", "answers", "correct_answer"} <= v.fields.Keys
  {
    match v
    case JObj(f) =>
      && "id" in f && f["id"].JNum?
      && "text" in f && f["text"].JStr?
      && "answers" in f && f["answers"].JArr? && |f["answers"].items| == 4
      && "correct_answer" in f && f["correct_answer"].JStr?
      && f["correct_answer"] in f["answers"].items
    case _ => false
  }

  /** The `as Question[]` cast: the same object seen through the interface. */
  function ToQuestion(v: Json): (q: Question)
    requires IsValidRecord(v)
    ensures WellFormed(q)
    ensures JNum(q.id) == v.fields["id"] && JStr(q.text) == v.fields["text"]
    ensures q.answers == v.fields["answers"].items
    ensures JStr(q.correctAnswer) == v.fields["correct_answer"]
  {
    Question(v.fields["id"].n, v.fields["text"].s, v.fields["answers"].items, v.fields["correct_answer"].s)
  }

  /** `Array.prototype.filter` with a side-effect-free predicate: the elements
      that pass, in their order. */
  function Filter<T>(keep: T -> bool, data: seq<T>): (kept: seq<T>)
    ensures |kept| <= |data|
    ensures forall v :: v in kept ==> keep(v)
  {
    if data == [] then []
    else if keep(data[0]) then [data[0]] + Filter(keep, data[1..])
    else Filter(keep, data[1..])
  }

  /** `data.filter(...)` with the predicate above. */
  function FilterValid(data: seq<Json>): (kept: seq<Json>)
    ensures forall v :: v in kept ==> IsValidRecord(v)
  {
    Filter(IsValidRecord, data)
  }

  /** The validation part of `getQuestions`, from the parsed body to the
      returned batch or the thrown error. */
  function GetQuestions(response: Option<Json>): (r: Result<seq<Question>, ApiError>)
    ensures response.None? ==> r == Failure(TransportError)
    ensures response.Some? && !response.value.JArr? ==> r == Failure(InvalidFormat)
    ensures response.Some? && response.value.JArr? && FilterValid(response.value.items) == [] ==>
              r == Failure(NoValidQuestions)
    ensures response.Some? && response.value.JArr? && FilterValid(response.value.items) != [] ==>
              var kept := FilterValid(response.value.items);
              && r.Success? && |r.value| == |kept|
              && forall k :: 0 <= k < |kept| ==> r.value[k] == ToQuestion(kept[k])
    ensures r.Success? ==> |r.value| > 0 && forall q :: q in r.value ==> WellFormed(q)
  {
    match response
    case None => Failure(TransportError)
    case Some(body) =>
      if !body.JArr? then Failure(InvalidFormat)
      else
        var kept := FilterValid(body.items);
        if |kept| == 0 then Failure(NoValidQuestions)
        else Success(seq(|kept|, k requires 0 <= k < |kept| => ToQuestion(kept[k])))
  }

  /** `idx` lists, in increasing order, exactly the positions of `data` whose
      element passes `keep`, and `kept` is the elements at those positions. */
  ghost predicate KeptPositions<T>(keep: T -> bool, data: seq<T>, kept: seq<T>, idx: seq<nat>) {
    && |idx| == |kept|
    && (forall i, j :: 0 <= i < j < |idx| ==> idx[i] < idx[j])
    && (forall k :: 0 <= k < |idx| ==> idx[k] < |data| && kept[k] == data[idx[k]])
    && (forall j :: 0 <= j < |data| ==> (j in idx <==> keep(data[j])))
  }

  /** Positions in `data[1..]` moved up by one are positions in `data`. */
  lemma ShiftedPositions<T>(keep: T -> bool, data: seq<T>, kept: seq<T>, rest: seq<nat>) returns (shifted: seq<nat>)
    requires data != [] && KeptPositions(keep, data[1..], kept, rest)
    ensures |shifted| == |kept|
    ensures forall i, j :: 0 <= i < j < |shifted| ==> 1 <= shifted[i] < shifted[j]
    ensures forall k :: 0 <= k < |shifted| ==> 1 <= shifted[k] < |data| && kept[k] == data[shifted[k]]
    ensures forall j :: 1 <= j < |data| ==> (j in shifted <==> keep(data[j]))
  {
    var tail := data[1..];
    shifted := seq(|rest|, k requires 0 <= k < |rest| => rest[k] + 1);
    forall j | 1 <= j < |data|
      ensures j in shifted <==> keep(data[j])
    {
      assert data[j] == tail[j - 1];
      if j - 1 in rest {
        var k :| 0 <= k < |rest| && rest[k] == j - 1;
        assert shifted[k] == j;
      }
    }
  }

  /** The filter keeps exactly the positions whose element passes the
      predicate, in increasing order: its output is the order-preserving
      subsequence of passing elements, nothing more and nothing less. */
  lemma {:induction false} FilterPositions<T>(keep: T -> bool, data: seq<T>) returns (idx: seq<nat>)
    ensures KeptPositions(keep, data, Filter(keep, data), idx)
  {
    if data == [] {
      idx := [];
    } else {
      var rest := FilterPositions(keep, data[1..]);
      var shifted := ShiftedPositions(keep, data, Filter(keep, data[1..]), rest);
      if keep(data[0]) {
        idx := [0] + shifted;
        PrependedPositions(keep, data, Filter(keep, data[1..]), shifted);
      } else {
        idx := shifted;
      }
    }
  }

  /** Position 0 in front of the shifted positions of a passing head. */
  lemma PrependedPositions<T>(keep: T -> bool, data: seq<T>, kept: seq<T>, shifted: seq<nat>)
    requires data != [] && keep(data[0])
    requires |shifted| == |kept|
    requires forall i, j :: 0 <= i < j < |shifted| ==> 1 <= shifted[i] < shifted[j]
    requires forall k :: 0 <= k < |shifted| ==> 1 <= shifted[k] < |data| && kept[k] == data[shifted[k]]
    requires forall j :: 1 <= j < |data| ==> (j in shifted <==> keep(data[j]))
    ensures KeptPositions(keep, data, [data[0]] + kept, [0] + shifted)
  {
  }

  /** Completeness: every record that satisfies the predicate is kept. */
  lemma FilterKeepsEveryValidRecord(data: seq<Json>)
    ensures forall j :: 0 <= j < |data| && IsValidRecord(data[j]) ==> data[j] in FilterValid(data)
  {
    var idx := FilterPositions(IsValidRecord, data);
    forall j | 0 <= j < |data| && IsValidRecord(data[j])
      ensures data[j] in FilterValid(data)
    {
      var k :| 0 <= k < |idx| && idx[k] == j;
      assert FilterValid(data)[k] == data[j];
    }
  }

  /** A list whose records all pass is left as it is. */
  lemma {:induction false} FilterKeepsValidList(data: seq<Json>)
    requires forall v :: v in data ==> IsValidRecord(v)
    ensures FilterValid(data) == data
  {
    if data != [] {
      FilterKeepsValidList(data[1..]);
    }
  }

  /** Filtering the filter's output again changes nothing. */
  lemma FilterIdempotent(data: seq<Json>)
    ensures FilterValid(FilterValid(data)) == FilterValid(data)
  {
    FilterKeepsValidList(FilterValid(data));
  }

  /** `getQuestions` returns a batch exactly when the body is an array holding
      at least one valid record; otherwise it throws. */
  lemma GetQuestionsSucceedsIffSomeRecordValid(response: Option<Json>)
    ensures GetQuestions(response).Success? <==>
              && response.Some? && response.value.JArr?
              && exists j :: 0 <= j < |response.value.items| && IsValidRecord(response.value.items[j])
  {
    if response.Some? && response.value.JArr? {
      var items := response.value.items;
      FilterKeepsEveryValidRecord(items);
      if FilterValid(items) != [] {
        var idx := FilterPositions(IsValidRecord, items);
        assert IsValidRecord(items[idx[0]]);
      }
    }
  }
}
