/** The submit and reset handlers of the triage screen (app.py:50-54, 70-107,
    122-126): the four session fields, the append-only case log and the retraining
    artifact, as one object. */
module Triage {
  import opened Text
  import opened Wrappers
  import opened Symptoms
  import opened Policy
  import opened Retraining

  /** What the result screen shows for one analysis: the content of `resultado`
      (app.py:81-92) without its markdown, and the matched pairs. */
  datatype Analysis = Analysis(matches: seq<Entry>, risk: real, decision: Decision, days: int, comment: Band)

  /** The analysis of one raw input against the symptom dictionary (app.py:74-90). */
  function Analyze(t: Table, input: String): Analysis {
    var matches := Score(t, input);
    var risk := HighestRisk(matches);
    Analysis(matches, risk, Decide(risk), PredictedDays(risk), Commentary(risk))
  }

  /** One line of the case log (app.py:101): stripped text, decision label, predicted
      days and highest risk. */
  datatype Record = Record(anamnese: String, decisao: String, diasPrev: int, maiorRisco: real)

  /** The record a valid submission of `input` appends. */
  function RecordOf(t: Table, input: String): Record {
    var a := Analyze(t, input);
    Record(Strip(input), Label(a.decision), a.days, a.risk)
  }

  /** The record holds the stripped text and the highest risk matched in it, and its
      decision and days are the policy's for that same risk: one of the two labels
      ("Internar" exactly when the risk is at least 50) and one of the five day
      counts. */
  lemma RecordOfFields(t: Table, input: String)
    ensures var rec := RecordOf(t, input);
      && rec.anamnese == Strip(input)
      && rec.maiorRisco == HighestRisk(Score(t, input))
      && rec.decisao == Label(Decide(rec.maiorRisco))
      && rec.diasPrev == PredictedDays(rec.maiorRisco)
      && rec.decisao in {"Internar", "Medicar e enviar para casa"}
      && rec.diasPrev in {1, 3, 5, 7, 10}
      && (rec.decisao == "Internar" <==> rec.maiorRisco >= 50.0)
  {
  }

  /** The cells `pd.read_csv` reads as `NaN` by default (pandas' `na_values`). */
  predicate IsNaCell(s: String) {
    || s == "" || s == "#N/A" || s == "#N/A N/A" || s == "#NA" || s == "-1.#IND"
    || s == "-1.#QNAN" || s == "-NaN" || s == "-nan" || s == "1.#IND" || s == "1.#QNAN"
    || s == "<NA>" || s == "N/A" || s == "NA" || s == "NULL" || s == "NaN" || s == "None"
    || s == "n/a" || s == "nan" || s == "null"
  }

  /** One cell as `pd.read_csv` reads it back. */
  function Cell(s: String): Option<String> {
    if IsNaCell(s) then None else Some(s)
  }

  /** How retraining sees a record once the log is read back (app.py:16), assuming
      its text holds no comma, quote or line break. */
  function ReadBack(rec: Record): Row {
    Row(Cell(rec.anamnese), Cell(rec.decisao))
  }

  /** The training example a record becomes when its row survives the filter. */
  function ExampleOf(rec: Record): Example {
    Example(rec.anamnese, rec.decisao)
  }

  function ReadLog(log: seq<Record>): (rows: seq<Row>)
    ensures |rows| == |log|
  {
    if log == [] then [] else ReadLog(log[..|log| - 1]) + [ReadBack(log[|log| - 1])]
  }

  /** Reading the log back gives one row per record, in log order. */
  lemma {:induction false} ReadLogAt(log: seq<Record>, i: int)
    requires 0 <= i < |log|
    ensures ReadLog(log)[i] == ReadBack(log[i])
  {
    if i < |log| - 1 {
      ReadLogAt(log[..|log| - 1], i);
    }
  }

  lemma ReadLogAppend(log: seq<Record>, rec: Record)
    ensures ReadLog(log + [rec]) == ReadLog(log) + [ReadBack(rec)]
  {
    assert (log + [rec])[..|log|] == log;
  }

  /** Neither decision label is read back as `NaN`. */
  lemma LabelReadsBack(d: Decision)
    ensures Cell(Label(d)) == Some(Label(d))
  {
  }

  /** The record of a submission survives the cleaning of app.py:19-20 exactly when
      the text passed the blank-input guard and its stripped form is not one of the
      cells pandas reads as `NaN`. */
  lemma RecordIsValid(t: Table, input: String)
    ensures ValidRow(ReadBack(RecordOf(t, input))) <==> !IsBlank(input) && !IsNaCell(Strip(input))
  {
    StripIdempotent(input);
    LabelNotBlank(Analyze(t, input).decision);
    LabelReadsBack(Analyze(t, input).decision);
  }

  /** Logging a submission adds its example to what retraining sees when its record
      survives the filter, and nothing otherwise. */
  lemma LoggedCaseCleaned(log: seq<Record>, t: Table, input: String)
    ensures Cleaned(ReadLog(log + [RecordOf(t, input)])) == Cleaned(ReadLog(log)) +
      (if !IsBlank(input) && !IsNaCell(Strip(input)) then [ExampleOf(RecordOf(t, input))] else [])
  {
    var rec := RecordOf(t, input);
    ReadLogAppend(log, rec);
    RecordIsValid(t, input);
    LabelReadsBack(Analyze(t, input).decision);
    CleanedAppend(ReadLog(log), ReadBack(rec));
  }

  /** A note that reads "NA" passes the blank-input guard, yet its record is read
      back as missing and never changes what retraining does. */
  lemma NaNoteIsIgnored(log: seq<Record>, t: Table)
    ensures !IsBlank("NA")
    ensures Retrain(ReadLog(log + [RecordOf(t, "NA")])) == Retrain(ReadLog(log))
  {
    var rec := RecordOf(t, "NA");
    NotBlank("NA");
    assert LeadingSpaces("NA") == 0 && TrailingSpaces("NA") == 0;
    assert rec.anamnese == "NA";
    assert ReadBack(rec).anamnese == None;
    ReadLogAppend(log, rec);
    InvalidRowIsIgnored(ReadLog(log), ReadBack(rec));
  }

  /** A note naming "febre" (risk 60) and "vômito" (risk 85), in any letter case: both
      are matched, the highest risk is 85, the case is admitted for 10 days. */
  lemma FeverAndVomiting(input: String)
    requires IsSubstring("febre", Lower(Strip(input)))
    requires IsSubstring("vômito", Lower(Strip(input)))
    ensures var a := Analyze([Entry("febre", 60.0), Entry("vômito", 85.0)], input);
            a.matches == [Entry("febre", 60.0), Entry("vômito", 85.0)]
            && a.risk == 85.0 && a.decision == Admit && a.days == 10
  {
    var t := [Entry("febre", 60.0), Entry("vômito", 85.0)];
    assert MatchesIn(t[1..], Lower(Strip(input))) == t[1..];
  }

  /** A note that names no dictionary phrase is sent home with one day. */
  lemma NoSymptomSendsHome(t: Table, input: String)
    requires forall i :: 0 <= i < |t| ==> !IsSubstring(t[i].symptom, Lower(Strip(input)))
    ensures var a := Analyze(t, input);
            a.matches == [] && a.risk == 0.0 && a.decision == MedicateAndSendHome && a.days == 1
  {
    NoMatchNoRisk(t, input);
  }

  /** The session fields agree with each other: the fields shown on the result screen
      always belong to one analysis of the stored text, and the form screen holds
      none. */
  ghost predicate Consistent(symptoms: Table, analiseFeita: bool, resultado: Option<Analysis>,
                             riscosIdentificados: seq<Entry>, anamnese: String)
  {
    && DistinctKeys(symptoms)
    && (analiseFeita <==> resultado.Some?)
    && (!analiseFeita ==> riscosIdentificados == [] && anamnese == [])
    && (analiseFeita ==>
          && !IsBlank(anamnese)
          && resultado == Some(Analyze(symptoms, anamnese))
          && riscosIdentificados == Score(symptoms, anamnese))
  }

  class Session {
    /** The dictionary of app.py:32, loaded once. */
    const symptoms: Table
    var analiseFeita: bool
    /** `None` stands for the empty `resultado` string. */
    var resultado: Option<Analysis>
    var riscosIdentificados: seq<Entry>
    /** The raw text of the last analysed input, as typed (not stripped). */
    var anamnese: String
    /** The case log `data/novos_casos.csv`, oldest record first. */
    var log: seq<Record>
    /** The examples the persisted classifier was last fitted on, if any. */
    var artifact: Option<seq<Example>>

    /** See `Consistent`. */
    ghost predicate Valid()
      reads this`analiseFeita, this`resultado, this`riscosIdentificados, this`anamnese
    {
      Consistent(symptoms, analiseFeita, resultado, riscosIdentificados, anamnese)
    }

    /** The session state of app.py:50-54. */
    predicate Initial()
      reads this
    {
      !analiseFeita && resultado == None && riscosIdentificados == [] && anamnese == []
    }

    /** A new session over the given symptom table rows and whatever the log file and
        the artifact already hold. No phrase of the table is a cell pandas reads as
        `NaN`: such a key would be a float, and the `in` test of app.py:76 would raise
        on every submission. */
    constructor (symptomRows: seq<Entry>, priorLog: seq<Record>, priorArtifact: Option<seq<Example>>)
      requires forall e :: e in symptomRows ==> !IsNaCell(e.symptom)
      ensures Valid() && Initial()
      ensures symptoms == BuildTable(symptomRows)
      ensures log == priorLog && artifact == priorArtifact
    {
      symptoms := BuildTable(symptomRows);
      analiseFeita := false;
      resultado := None;
      riscosIdentificados := [];
      anamnese := [];
      log := priorLog;
      artifact := priorArtifact;
    }

    /** The "Analisar" handler (app.py:70-107): a blank input changes nothing; any
        other input is analysed, shown and appended to the log, and then
        `treinar_modelo` runs on the log. The artifact changes only when that fit
        ends in a saved classifier; when the fit raises, the state written before it
        stays. */
    method Submit(input: String) returns (accepted: bool, outcome: Outcome)
      requires Valid()
      modifies this
      ensures Valid()
      ensures accepted <==> !IsBlank(input)
      ensures !accepted ==> unchanged(this)
      ensures accepted ==>
        && analiseFeita
        && resultado == Some(Analyze(symptoms, input))
        && riscosIdentificados == Score(symptoms, input)
        && anamnese == input
        && log == old(log) + [RecordOf(symptoms, input)]
      ensures outcome == if accepted then Retrain(ReadLog(log)) else Skipped
      ensures artifact == if outcome.Saved? then Some(outcome.examples) else old(artifact)
    {
      if IsBlank(input) {
        return false, Skipped;
      }
      var analysis := Analyze(symptoms, input);
      analiseFeita := true;
      resultado := Some(analysis);
      riscosIdentificados := analysis.matches;
      anamnese := input;
      log := log + [RecordOf(symptoms, input)];
      outcome := Retrain(ReadLog(log));
      if outcome.Saved? {
        artifact := Some(outcome.examples);
      }
      accepted := true;
    }

    /** The "Nova Análise" handler (app.py:122-126): back to the initial session state;
        the log and the artifact stay. */
    method Reset()
      requires Valid()
      modifies this
      ensures Valid() && Initial()
      ensures log == old(log) && artifact == old(artifact)
    {
      analiseFeita := false;
      resultado := None;
      riscosIdentificados := [];
      anamnese := [];
    }
  }

  /** A log of up to three records reads back as their rows. */
  lemma ReadLogThree(ra: Record, rb: Record, rc: Record)
    ensures ReadLog([ra]) == [ReadBack(ra)]
    ensures ReadLog([ra, rb]) == [ReadBack(ra), ReadBack(rb)]
    ensures ReadLog([ra, rb, rc]) == [ReadBack(ra), ReadBack(rb), ReadBack(rc)]
  {
    assert [ra, rb][..1] == [ra];
    assert [ra, rb, rc][..2] == [ra, rb];
  }

  /** A record whose row survives the filter becomes its own example. */
  lemma ExampleOfValid(rec: Record)
    requires ValidRow(ReadBack(rec))
    ensures RowExample(ReadBack(rec)) == ExampleOf(rec)
  {
  }

  /** From an empty log, the first two logged records leave retraining skipped and
      the third reaches the fit on exactly the three of them. */
  lemma ThreeLoggedRecords(ra: Record, rb: Record, rc: Record)
    requires ValidRow(ReadBack(ra)) && ValidRow(ReadBack(rb)) && ValidRow(ReadBack(rc))
    ensures Retrain(ReadLog([ra])) == Skipped
    ensures Retrain(ReadLog([ra, rb])) == Skipped
    ensures var ex := [ExampleOf(ra), ExampleOf(rb), ExampleOf(rc)];
      Retrain(ReadLog([ra, rb, rc])) == if Fittable(ex) then Saved(ex) else Raised
  {
    ReadLogThree(ra, rb, rc);
    ExampleOfValid(ra);
    ExampleOfValid(rb);
    ExampleOfValid(rc);
    ThreeValidRows(ReadBack(ra), ReadBack(rb), ReadBack(rc));
  }

  /** Three submitted notes none of which reads back as `NaN`: from an empty log the
      first two leave retraining skipped and the third reaches the fit on exactly the
      three cases. */
  lemma ThreeLoggedCases(t: Table, a: String, b: String, c: String)
    requires !IsNaCell(Strip(a)) && !IsNaCell(Strip(b)) && !IsNaCell(Strip(c))
    ensures !IsBlank(a) && !IsBlank(b) && !IsBlank(c)
    ensures var ra, rb, rc := RecordOf(t, a), RecordOf(t, b), RecordOf(t, c);
      var ex := [ExampleOf(ra), ExampleOf(rb), ExampleOf(rc)];
      && Retrain(ReadLog([ra])) == Skipped
      && Retrain(ReadLog([ra, rb])) == Skipped
      && Retrain(ReadLog([ra, rb, rc])) == if Fittable(ex) then Saved(ex) else Raised
  {
    assert IsNaCell("");
    RecordIsValid(t, a);
    RecordIsValid(t, b);
    RecordIsValid(t, c);
    ThreeLoggedRecords(RecordOf(t, a), RecordOf(t, b), RecordOf(t, c));
  }

  /** Three records appended one by one to an empty log. */
  lemma LogOfThree(l1: seq<Record>, l2: seq<Record>, l3: seq<Record>, ra: Record, rb: Record, rc: Record)
    requires l1 == [] + [ra] && l2 == l1 + [rb] && l3 == l2 + [rc]
    ensures l1 == [ra] && l2 == [ra, rb] && l3 == [ra, rb, rc]
  {
  }

  /** One case entered on the form ("Analisar") and the result screen left with
      "Nova Análise": the session is back on the form, one record longer, and the
      outcome is that of retraining on the new log. */
  method AnalyseThenReset(s: Session, input: String) returns (outcome: Outcome)
    requires s.Valid() && !IsBlank(input)
    modifies s
    ensures s.Valid() && s.Initial()
    ensures s.log == old(s.log) + [RecordOf(s.symptoms, input)]
    ensures outcome == Retrain(ReadLog(s.log))
  {
    var ok;
    ok, outcome := s.Submit(input);
    s.Reset();
  }

  /** Three cases entered from an empty log, with "Nova Análise" between them: the
      first two skip retraining, and the third reaches the fit on exactly the three
      logged cases, which saves a classifier only when they can be fitted. */
  method ThirdCaseReachesTheFit(symptomRows: seq<Entry>, a: String, b: String, c: String)
    returns (o1: Outcome, o2: Outcome, o3: Outcome)
    requires forall e :: e in symptomRows ==> !IsNaCell(e.symptom)
    requires !IsNaCell(Strip(a)) && !IsNaCell(Strip(b)) && !IsNaCell(Strip(c))
    ensures o1 == Skipped && o2 == Skipped
    ensures var t := BuildTable(symptomRows);
      var ex := [ExampleOf(RecordOf(t, a)), ExampleOf(RecordOf(t, b)), ExampleOf(RecordOf(t, c))];
      o3 == if Fittable(ex) then Saved(ex) else Raised
  {
    var s := new Session(symptomRows, [], None);
    ghost var t := s.symptoms;
    assert IsNaCell("");
    o1 := AnalyseThenReset(s, a);
    ghost var l1 := s.log;
    o2 := AnalyseThenReset(s, b);
    ghost var l2 := s.log;
    o3 := AnalyseThenReset(s, c);
    LogOfThree(l1, l2, s.log, RecordOf(t, a), RecordOf(t, b), RecordOf(t, c));
    ThreeLoggedCases(t, a, b, c);
  }

  /** Three notes that name no dictionary phrase are all sent home, so their examples
      hold a single decision and the fit of the third case raises. */
  lemma UnmatchedNotesCannotFit(t: Table, a: String, b: String, c: String)
    requires forall i :: 0 <= i < |t| ==> !IsSubstring(t[i].symptom, Lower(Strip(a)))
    requires forall i :: 0 <= i < |t| ==> !IsSubstring(t[i].symptom, Lower(Strip(b)))
    requires forall i :: 0 <= i < |t| ==> !IsSubstring(t[i].symptom, Lower(Strip(c)))
    ensures !Fittable([ExampleOf(RecordOf(t, a)), ExampleOf(RecordOf(t, b)), ExampleOf(RecordOf(t, c))])
  {
    NoSymptomSendsHome(t, a);
    NoSymptomSendsHome(t, b);
    NoSymptomSendsHome(t, c);
    var home := Label(MedicateAndSendHome);
    var ex := [ExampleOf(RecordOf(t, a)), ExampleOf(RecordOf(t, b)), ExampleOf(RecordOf(t, c))];
    assert ex[0].decision == home && ex[1].decision == home && ex[2].decision == home;
    AllLabelledIn(ex, home);
  }
}
