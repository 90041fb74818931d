/**
 * The value a `FormState` holds, as a pure snapshot: the ordered field list,
 * the index of the field being collected, the answers and the validation
 * errors (both keyed by field id). Both `FormState` classes (the app one over
 * the Anmeldung catalogue and the legacy one over the schema fields) expose
 * their state as a `Form`, and the tool-call dispatchers and the server's
 * event sync are specified on it.
 */
module FormModel {
  import opened Wrappers

  /**
   * `progress_percent`: `min(100, answered / total * 100)`, and 100 when
   * there are no fields. Answers under ids outside the field list count too.
   */
  function ProgressPercent(answered: nat, total: nat): (r: real)
    ensures 0.0 <= r <= 100.0
    ensures total == 0 ==> r == 100.0
    ensures r == 100.0 <==> answered >= total
  {
    if total == 0 then 100.0
    else
      var p := (answered as real / total as real) * 100.0;
      if p < 100.0 then p else 100.0
  }

  /** More answers never mean less progress. */
  lemma ProgressMonotone(a: nat, b: nat, total: nat)
    requires a <= b
    ensures ProgressPercent(a, total) <= ProgressPercent(b, total)
  {
    if total > 0 {
      var t := total as real;
      assert a as real / t <= b as real / t;
    }
  }

  datatype Form<F> = Form(
    fields: seq<F>,
    currentIndex: nat,
    answers: map<string, string>,
    errors: map<string, string>)
  {
    /** The field being collected, or `None` once the index has passed the end. */
    function CurrentField(): Option<F> {
      if currentIndex < |fields| then Some(fields[currentIndex]) else None
    }

    predicate IsComplete() {
      currentIndex >= |fields|
    }

    /** `advance`: one step forward, with no upper bound. */
    function Advanced(): Form<F> {
      this.(currentIndex := currentIndex + 1)
    }

    /** `record_value`: store (or overwrite) the answer and drop that id's error. */
    function WithValue(id: string, value: string): Form<F> {
      this.(answers := answers[id := value], errors := errors - {id})
    }

    /** `set_error`: store (or overwrite) the message for one id. */
    function WithError(id: string, message: string): Form<F> {
      this.(errors := errors[id := message])
    }

    function Progress(): real {
      ProgressPercent(|answers|, |fields|)
    }

    /** `advance` called `n` times. */
    function AdvancedBy(n: nat): Form<F>
      decreases n
    {
      if n == 0 then this else Advanced().AdvancedBy(n - 1)
    }

    /** Record `value` for the current field and move on: the save step of the dispatchers. */
    function SaveCurrent(id: F -> string, value: string): Form<F>
      requires !IsComplete()
    {
      WithValue(id(fields[currentIndex]), value).Advanced()
    }

    /** Save one value per remaining field, in field order. */
    function SaveAll(id: F -> string, values: seq<string>): (g: Form<F>)
      requires currentIndex + |values| <= |fields|
      ensures g.fields == fields && g.currentIndex == currentIndex + |values|
      decreases |values|
    {
      if values == [] then this else SaveCurrent(id, values[0]).SaveAll(id, values[1..])
    }
  }

  /** A fresh state: index 0, no answers, no errors. */
  function Start<F>(fields: seq<F>): (f: Form<F>)
    ensures f.fields == fields && f.currentIndex == 0
    ensures f.answers == map[] && f.errors == map[]
    ensures fields != [] ==> f.CurrentField() == Some(fields[0])
  {
    Form(fields, 0, map[], map[])
  }

  predicate DistinctIds<F>(fields: seq<F>, id: F -> string) {
    forall i, j :: 0 <= i < j < |fields| ==> id(fields[i]) != id(fields[j])
  }

  function IdSet<F>(fields: seq<F>, id: F -> string): set<string> {
    set i | 0 <= i < |fields| :: id(fields[i])
  }

  /** `current_field` is absent exactly when the form is complete. */
  lemma CurrentFieldAbsentIffComplete<F>(f: Form<F>)
    ensures f.CurrentField().None? <==> f.IsComplete()
    ensures f.CurrentField().Some? ==> f.CurrentField().value == f.fields[f.currentIndex]
  {
  }

  /**
   * `advance` is unbounded: after `n` advances the index has grown by exactly
   * `n`, nothing else changed, and a complete form stays complete.
   */
  lemma {:induction false} AdvancedByMoves<F>(f: Form<F>, n: nat)
    ensures f.AdvancedBy(n) == f.(currentIndex := f.currentIndex + n)
    ensures f.IsComplete() ==> f.AdvancedBy(n).IsComplete()
    decreases n
  {
    if n > 0 {
      AdvancedByMoves(f.Advanced(), n - 1);
    }
  }

  /** On the last field the form is not complete; one advance completes it. */
  lemma LastFieldThenComplete<F>(f: Form<F>)
    requires f.fields != [] && f.currentIndex == |f.fields| - 1
    ensures !f.IsComplete() && f.Advanced().IsComplete()
  {
  }

  /** `record_value` for an id changes only that id's answer and error, never the index. */
  lemma WithValueFrame<F>(f: Form<F>, id: string, value: string, other: string)
    requires other != id
    ensures f.WithValue(id, value).answers[id] == value && id !in f.WithValue(id, value).errors
    ensures other in f.answers <==> other in f.WithValue(id, value).answers
    ensures other in f.answers ==> f.WithValue(id, value).answers[other] == f.answers[other]
    ensures other in f.errors <==> other in f.WithValue(id, value).errors
    ensures other in f.errors ==> f.WithValue(id, value).errors[other] == f.errors[other]
    ensures f.WithValue(id, value).currentIndex == f.currentIndex
  {
  }

  /** Recording adds at most one answer: one exactly when the id was unanswered. */
  lemma WithValueSize<F>(f: Form<F>, id: string, value: string)
    ensures id in f.answers ==> |f.WithValue(id, value).answers| == |f.answers|
    ensures id !in f.answers ==> |f.WithValue(id, value).answers| == |f.answers| + 1
  {
    assert f.WithValue(id, value).answers == f.answers[id := value];
  }

  /** Recording never lowers progress. */
  lemma WithValueProgress<F>(f: Form<F>, id: string, value: string)
    ensures f.Progress() <= f.WithValue(id, value).Progress()
  {
    WithValueSize(f, id, value);
    ProgressMonotone(|f.answers|, |f.WithValue(id, value).answers|, |f.fields|);
  }

  lemma {:induction false} IdSetPrefix<F>(fields: seq<F>, id: F -> string, k: nat)
    requires k < |fields|
    ensures IdSet(fields[..k + 1], id) == IdSet(fields[..k], id) + {id(fields[k])}
  {
    var a, b := fields[..k + 1], fields[..k];
    forall x | x in IdSet(a, id) ensures x in IdSet(b, id) + {id(fields[k])} {
      var i :| 0 <= i < |a| && x == id(a[i]);
      if i < k { assert b[i] == a[i]; }
    }
    forall x | x in IdSet(b, id) ensures x in IdSet(a, id) {
      var i :| 0 <= i < |b| && x == id(b[i]);
      assert a[i] == b[i];
    }
  }

  /** With distinct ids, the first `k` fields carry `k` different ids. */
  lemma {:induction false} IdSetSize<F>(fields: seq<F>, id: F -> string, k: nat)
    requires k <= |fields| && DistinctIds(fields, id)
    ensures |IdSet(fields[..k], id)| == k
    decreases k
  {
    if k > 0 {
      IdSetSize(fields, id, k - 1);
      IdSetPrefix(fields, id, k - 1);
    }
  }

  lemma {:induction false} SaveAllFromPrefix<F>(f: Form<F>, id: F -> string, values: seq<string>)
    requires f.currentIndex + |values| == |f.fields|
    requires f.answers.Keys == IdSet(f.fields[..f.currentIndex], id)
    ensures f.SaveAll(id, values).currentIndex == |f.fields|
    ensures f.SaveAll(id, values).fields == f.fields
    ensures f.SaveAll(id, values).answers.Keys == IdSet(f.fields, id)
    decreases |values|
  {
    if values == [] {
      assert f.fields[..f.currentIndex] == f.fields;
    } else {
      var g := f.SaveCurrent(id, values[0]);
      IdSetPrefix(f.fields, id, f.currentIndex);
      SaveAllFromPrefix(g, id, values[1..]);
    }
  }

  /** Saving one more value after a batch is the batch followed by one save. */
  lemma {:induction false} SaveAllSnoc<F>(f: Form<F>, id: F -> string, values: seq<string>, v: string)
    requires f.currentIndex + |values| + 1 <= |f.fields|
    ensures f.SaveAll(id, values + [v]) == f.SaveAll(id, values).SaveCurrent(id, v)
    decreases |values|
  {
    if values != [] {
      assert (values + [v])[1..] == values[1..] + [v];
      SaveAllSnoc(f.SaveCurrent(id, values[0]), id, values[1..], v);
    }
  }

  /**
   * Saving one value per field, in field order, from a fresh state completes
   * the form with one answer per field and progress exactly 100.
   */
  lemma SaveAllCompletes<F>(fields: seq<F>, id: F -> string, values: seq<string>)
    requires |values| == |fields| && DistinctIds(fields, id)
    ensures Start(fields).SaveAll(id, values).IsComplete()
    ensures |Start(fields).SaveAll(id, values).answers| == |fields|
    ensures Start(fields).SaveAll(id, values).Progress() == 100.0
  {
    var f := Start(fields);
    assert f.answers.Keys == IdSet(fields[..0], id);
    SaveAllFromPrefix(f, id, values);
    IdSetSize(fields, id, |fields|);
    assert fields[..|fields|] == fields;
  }
}
