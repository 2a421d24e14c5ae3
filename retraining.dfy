/** `treinar_modelo` (app.py:14-28): the log is read back, invalid rows are dropped
    (app.py:19-20), and a classifier is fitted only when at least three rows remain
    (app.py:22). The fit itself (app.py:23-27) is modelled by the two conditions under
    which it raises instead of reaching `joblib.dump` (app.py:28); a saved classifier
    is represented by the examples it was fitted on. */
module Retraining {
  import opened Text
  import opened Wrappers

  /** The two columns of a log row that retraining looks at; `None` is a missing
      (`NaN`) cell. */
  datatype Row = Row(anamnese: Option<String>, decisao: Option<String>)

  /** A row that survives `dropna` and the blank-after-strip filter. */
  predicate ValidRow(row: Row) {
    && row.anamnese.Some? && row.decisao.Some?
    && !IsBlank(row.anamnese.value) && !IsBlank(row.decisao.value)
  }

  /** One training example: anamnesis text and the decision it is labelled with. */
  datatype Example = Example(text: String, decision: String)

  /** app.py:19-20 and 23-24: the surviving rows, in log order, as training examples.
      `CleanedMembers` states which examples these are. */
  function Cleaned(rows: seq<Row>): (r: seq<Example>)
    ensures |r| <= |rows|
  {
    if rows == [] then []
    else
      var rest := Cleaned(rows[1..]);
      if ValidRow(rows[0]) then [Example(rows[0].anamnese.value, rows[0].decisao.value)] + rest
      else rest
  }

  /** The cleaned examples are exactly the valid rows of the log: none is dropped and
      none is invented. */
  lemma {:induction false} CleanedMembers(rows: seq<Row>)
    ensures forall a, d :: Example(a, d) in Cleaned(rows) <==>
      Row(Some(a), Some(d)) in rows && !IsBlank(a) && !IsBlank(d)
  {
    if rows != [] {
      CleanedMembers(rows[1..]);
      assert rows == [rows[0]] + rows[1..];
    }
  }

  /** Appending a row to the log adds it to the cleaned examples exactly when it is
      valid. */
  lemma {:induction false} CleanedAppend(rows: seq<Row>, x: Row)
    ensures Cleaned(rows + [x]) == Cleaned(rows) +
      (if ValidRow(x) then [Example(x.anamnese.value, x.decisao.value)] else [])
  {
    if rows == [] {
      assert [] + [x] == [x];
    } else {
      assert (rows + [x])[1..] == rows[1..] + [x];
      CleanedAppend(rows[1..], x);
    }
  }

  /** The minimum number of clean rows for a retrain (app.py:22). */
  const MinRows := 3

  /** A character matched by `\w` in a Python `str` pattern (letters, digits, other
      numeric characters and the underscore), within ASCII and Latin-1. */
  predicate IsWordChar(c: char) {
    || ('a' <= c <= 'z') || ('A' <= c <= 'Z') || ('0' <= c <= '9') || c == '_'
    || c == '\U{AA}' || c == '\U{B2}' || c == '\U{B3}' || c == '\U{B5}'
    || c == '\U{B9}' || c == '\U{BA}' || ('\U{BC}' <= c <= '\U{BE}')
    || ('\U{C0}' <= c <= '\U{FF}' && c != '\U{D7}' && c != '\U{F7}')
  }

  /** The default token pattern of `TfidfVectorizer`, `\b\w\w+\b`, finds a token in
      `s`: somewhere two word characters stand side by side. */
  predicate HasToken(s: String) {
    |s| >= 2 && ((IsWordChar(s[0]) && IsWordChar(s[1])) || HasToken(s[1..]))
  }

  lemma {:induction false} HasTokenAt(s: String)
    ensures HasToken(s) <==> exists i :: 0 <= i < |s| - 1 && IsWordChar(s[i]) && IsWordChar(s[i + 1])
  {
    if |s| >= 2 {
      HasTokenAt(s[1..]);
      assert forall i :: 1 <= i < |s| ==> s[i] == s[1..][i - 1];
    }
  }

  /** `fit_transform` (app.py:23) finds a token in some text, so the vocabulary is
      not empty. */
  predicate HasVocabulary(ex: seq<Example>) {
    ex != [] && (HasToken(ex[0].text) || HasVocabulary(ex[1..]))
  }

  lemma {:induction false} HasVocabularyIn(ex: seq<Example>)
    ensures HasVocabulary(ex) <==> exists e :: e in ex && HasToken(e.text)
  {
    if ex != [] {
      HasVocabularyIn(ex[1..]);
      assert ex == [ex[0]] + ex[1..];
    }
  }

  /** Every example is labelled `d`. */
  predicate AllLabelled(ex: seq<Example>, d: String) {
    ex == [] || (ex[0].decision == d && AllLabelled(ex[1..], d))
  }

  lemma {:induction false} AllLabelledIn(ex: seq<Example>, d: String)
    ensures AllLabelled(ex, d) <==> forall e :: e in ex ==> e.decision == d
  {
    if ex != [] {
      AllLabelledIn(ex[1..], d);
      assert ex == [ex[0]] + ex[1..];
    }
  }

  /** `LogisticRegression.fit` (app.py:27) sees at least two classes. */
  predicate TwoClasses(ex: seq<Example>) {
    ex != [] && !AllLabelled(ex, ex[0].decision)
  }

  lemma TwoClassesIn(ex: seq<Example>)
    ensures TwoClasses(ex) <==> exists e1, e2 :: e1 in ex && e2 in ex && e1.decision != e2.decision
  {
    if ex != [] {
      AllLabelledIn(ex, ex[0].decision);
    }
  }

  /** The fit of app.py:23-27 runs to the end on these examples. */
  predicate Fittable(ex: seq<Example>) {
    HasVocabulary(ex) && TwoClasses(ex)
  }

  /** What one submission does to the classifier: `Skipped` when no fit is attempted
      (fewer than 3 clean rows, or a blank input for which `treinar_modelo` is never
      called, app.py:71-72), `Raised` when the fit raises (no classifier is saved and
      the error propagates to the handler), or `Saved` with the examples the saved
      classifier was fitted on. */
  datatype Outcome = Skipped | Raised | Saved(examples: seq<Example>)

  /** The outcome of `treinar_modelo` on the rows read back from the log. */
  function Retrain(rows: seq<Row>): (r: Outcome)
    ensures r.Skipped? <==> |Cleaned(rows)| < MinRows
    ensures r.Saved? <==> |Cleaned(rows)| >= MinRows && Fittable(Cleaned(rows))
    ensures r.Saved? ==> r.examples == Cleaned(rows)
  {
    var clean := Cleaned(rows);
    if |clean| < MinRows then Skipped
    else if Fittable(clean) then Saved(clean)
    else Raised
  }

  /** The example a valid row becomes. */
  function RowExample(row: Row): Example
    requires row.anamnese.Some? && row.decisao.Some?
  {
    Example(row.anamnese.value, row.decisao.value)
  }

  /** A log of one, two or three valid rows is cleaned into their examples, in
      order. */
  lemma CleanedOne(x: Row)
    requires ValidRow(x)
    ensures Cleaned([x]) == [RowExample(x)]
  {
    assert [] + [x] == [x];
    CleanedAppend([], x);
  }

  lemma CleanedTwo(x: Row, y: Row)
    requires ValidRow(x) && ValidRow(y)
    ensures Cleaned([x, y]) == [RowExample(x), RowExample(y)]
  {
    CleanedOne(x);
    assert [x] + [y] == [x, y];
    CleanedAppend([x], y);
  }

  lemma CleanedThree(x: Row, y: Row, z: Row)
    requires ValidRow(x) && ValidRow(y) && ValidRow(z)
    ensures Cleaned([x, y, z]) == [RowExample(x), RowExample(y), RowExample(z)]
  {
    CleanedTwo(x, y);
    assert [x, y] + [z] == [x, y, z];
    CleanedAppend([x, y], z);
  }

  /** From an empty log, two valid rows leave retraining skipped and a third reaches
      the fit on exactly the three of them. */
  lemma ThreeValidRows(x: Row, y: Row, z: Row)
    requires ValidRow(x) && ValidRow(y) && ValidRow(z)
    ensures Retrain([x]) == Skipped
    ensures Retrain([x, y]) == Skipped
    ensures var ex := [RowExample(x), RowExample(y), RowExample(z)];
      Retrain([x, y, z]) == if Fittable(ex) then Saved(ex) else Raised
  {
    CleanedOne(x);
    CleanedTwo(x, y);
    CleanedThree(x, y, z);
  }

  /** A saved classifier is fitted on exactly the valid rows of the log. */
  lemma RetrainOnValidRows(rows: seq<Row>)
    requires Retrain(rows).Saved?
    ensures forall a, d :: Example(a, d) in Retrain(rows).examples <==>
      Row(Some(a), Some(d)) in rows && !IsBlank(a) && !IsBlank(d)
  {
    CleanedMembers(rows);
  }

  /** With two valid rows retraining is skipped; a third valid row makes it reach the
      fit. */
  lemma ThirdValidRowTriggers(rows: seq<Row>, x: Row)
    requires |Cleaned(rows)| == 2
    requires ValidRow(x)
    ensures Retrain(rows) == Skipped
    ensures Retrain(rows + [x]) != Skipped
  {
    CleanedAppend(rows, x);
  }

  /** Rows that fail the filter never change whether or on what retraining runs. */
  lemma InvalidRowIsIgnored(rows: seq<Row>, x: Row)
    requires !ValidRow(x)
    ensures Retrain(rows + [x]) == Retrain(rows)
  {
    CleanedAppend(rows, x);
    assert Cleaned(rows) + [] == Cleaned(rows);
  }

  /** When every valid row carries the same decision, the fit raises: no classifier
      is saved, however many rows there are. */
  lemma SingleDecisionRaises(rows: seq<Row>, d: String)
    requires |Cleaned(rows)| >= MinRows
    requires forall x :: x in rows && ValidRow(x) ==> x.decisao == Some(d)
    ensures Retrain(rows) == Raised
  {
    var clean := Cleaned(rows);
    CleanedMembers(rows);
    TwoClassesIn(clean);
    forall e | e in clean
      ensures e.decision == d
    {
      assert Example(e.text, e.decision) in clean;
      assert Row(Some(e.text), Some(e.decision)) in rows;
    }
    assert !TwoClasses(clean);
  }

  /** When no valid row holds a token, the vocabulary is empty and the fit raises. */
  lemma NoTokenRaises(rows: seq<Row>)
    requires |Cleaned(rows)| >= MinRows
    requires forall x :: x in rows && ValidRow(x) ==> !HasToken(x.anamnese.value)
    ensures Retrain(rows) == Raised
  {
    var clean := Cleaned(rows);
    CleanedMembers(rows);
    HasVocabularyIn(clean);
    forall e | e in clean
      ensures !HasToken(e.text)
    {
      assert Example(e.text, e.decision) in clean;
      assert Row(Some(e.text), Some(e.decision)) in rows;
    }
    assert !HasVocabulary(clean);
  }

  /** At least three clean rows, one of them with a token and two with different
      decisions: the classifier is fitted and saved. */
  lemma TwoDecisionsAndATokenSave(rows: seq<Row>, x: Row, y: Row)
    requires |Cleaned(rows)| >= MinRows
    requires x in rows && ValidRow(x) && HasToken(x.anamnese.value)
    requires y in rows && ValidRow(y) && y.decisao != x.decisao
    ensures Retrain(rows) == Saved(Cleaned(rows))
  {
    var clean := Cleaned(rows);
    CleanedMembers(rows);
    HasVocabularyIn(clean);
    TwoClassesIn(clean);
    var ex, ey := Example(x.anamnese.value, x.decisao.value), Example(y.anamnese.value, y.decisao.value);
    assert ex in clean && ey in clean;
    assert Fittable(clean);
  }
}
