/** The fixed decision policy: `calcular_decisao_e_dias` (app.py:35-47) and the
    commentary bands (app.py:85-90). Risks are percentages, as reals. */
module Policy {
  import opened Text

  /** The two outcomes of app.py:46. */
  datatype Decision = Admit | MedicateAndSendHome

  /** The label written to the case log for a decision. */
  function Label(d: Decision): String {
    match d
    case Admit => "Internar"
    case MedicateAndSendHome => "Medicar e enviar para casa"
  }

  /** Neither label is blank, so a logged decision always survives the cleaning of
      the log before retraining. */
  lemma LabelNotBlank(d: Decision)
    ensures !IsBlank(Label(d))
  {
    NotBlank(Label(d));
  }

  /** The predicted length of stay of app.py:36-45. */
  function PredictedDays(risk: real): (d: int)
    ensures d in {1, 3, 5, 7, 10}
  {
    if risk >= 80.0 then 10
    else if risk >= 60.0 then 7
    else if risk >= 40.0 then 5
    else if risk >= 20.0 then 3
    else 1
  }

  /** The decision of app.py:46. */
  function Decide(risk: real): Decision {
    if risk >= 50.0 then Admit else MedicateAndSendHome
  }

  /** The three commentary bands of app.py:85-90. */
  datatype Band = HighMortality | ModerateMortality | HighRecovery

  function Commentary(risk: real): Band {
    if risk >= 70.0 then HighMortality
    else if risk >= 30.0 then ModerateMortality
    else HighRecovery
  }

  /** Each tier of days is a half-open interval of risk; 20, 40, 60 and 80 fall into
      the higher tier. */
  lemma DaysTiers(risk: real)
    ensures PredictedDays(risk) == 10 <==> risk >= 80.0
    ensures PredictedDays(risk) == 7 <==> 60.0 <= risk < 80.0
    ensures PredictedDays(risk) == 5 <==> 40.0 <= risk < 60.0
    ensures PredictedDays(risk) == 3 <==> 20.0 <= risk < 40.0
    ensures PredictedDays(risk) == 1 <==> risk < 20.0
  {
  }

  /** A higher risk never predicts a shorter stay. */
  lemma DaysMonotone(r1: real, r2: real)
    requires r1 <= r2
    ensures PredictedDays(r1) <= PredictedDays(r2)
  {
  }

  /** Admission is decided exactly from 50 up. */
  lemma DecisionCutoff(risk: real)
    ensures Decide(risk) == Admit <==> risk >= 50.0
    ensures Decide(risk) == MedicateAndSendHome <==> risk < 50.0
  {
  }

  /** The cutoff at 50 lies inside the 5-day tier, so the decision is not a function
      of the predicted days: two cases predicted 5 days each may be decided apart. */
  lemma DecisionSplitsFiveDayTier()
    ensures PredictedDays(45.0) == PredictedDays(55.0) == 5
    ensures Decide(45.0) == MedicateAndSendHome && Decide(55.0) == Admit
  {
  }

  /** How the two threshold sets relate: admitted cases stay at least 5 days and
      cases sent home at most 5. */
  lemma DecisionAgreesWithDays(risk: real)
    ensures Decide(risk) == Admit ==> PredictedDays(risk) >= 5
    ensures Decide(risk) == MedicateAndSendHome ==> PredictedDays(risk) <= 5
  {
  }

  /** Exactly one band applies, and each is a half-open interval of risk. */
  lemma CommentaryBands(risk: real)
    ensures Commentary(risk) == HighMortality <==> risk >= 70.0
    ensures Commentary(risk) == ModerateMortality <==> 30.0 <= risk < 70.0
    ensures Commentary(risk) == HighRecovery <==> risk < 30.0
  {
  }

  /** The commentary bands are not the decision: a high-mortality comment always comes
      with admission and a high-recovery one with discharge, but the moderate band
      (30 to 70) straddles the cutoff at 50. */
  lemma CommentaryVersusDecision(risk: real)
    ensures Commentary(risk) == HighMortality ==> Decide(risk) == Admit
    ensures Commentary(risk) == HighRecovery ==> Decide(risk) == MedicateAndSendHome
    ensures Commentary(40.0) == Commentary(60.0) == ModerateMortality
    ensures Decide(40.0) != Decide(60.0)
  {
  }
}
