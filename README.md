# Veterinary triage app: a Dafny model of its decision logic

`app.py` is a one-page triage tool for a veterinary clinic. A user pastes an
anamnesis (free-text clinical history). The app:

- strips and lowercases the text;
- finds every phrase of a symptom dictionary that occurs in it;
- takes the highest risk among the matched phrases (0 if nothing matched);
- applies two fixed threshold tables. One gives the decision ("Internar", admit, from 50 up) and the predicted stay in days. The other gives a mortality commentary (30/70).

Each accepted case is appended to a case log. The log is then read back, and rows with a missing or blank text or decision are dropped. When at least three rows remain, a TF-IDF vectoriser and a logistic regression are fitted on them and the classifier is saved. The fit raises instead, and nothing is saved, when the texts hold no token or all rows carry the same decision.

The model has six modules, one per concern of the source:

- `Wrappers`: `Option`, used for missing cells and absent keys.
- `Text`: Python's `str.strip()` (with the `str.isspace` set), `str.lower()` on ASCII and Latin-1 capitals, and the `in` substring test.
- `Symptoms`: the dictionary built at app.py:32, as an insertion-ordered sequence with distinct keys. Also the scorer of app.py:74-78.
- `Policy`: `calcular_decisao_e_dias` (app.py:35-47) and the commentary bands (app.py:85-90).
- `Retraining`: `treinar_modelo` (app.py:14-28). It covers the row filter, the three-row gate and the two conditions under which the fit raises. A saved classifier is represented by the examples it was fitted on.
- `Triage`: the session as a class `Session`. It holds:
  - the four `st.session_state` fields;
  - the case log, as the field `log: seq<Record>`;
  - the examples of the last saved classifier, as the field `artifact`.

  Its methods are `Submit` (the "Analisar" handler, app.py:70-107) and `Reset` (the "Nova Análise" handler, app.py:122-126). The constructor is the initial state of app.py:50-54.

Risks are percentages modelled as `real`. The `resultado` markdown (app.py:81-92) is modelled by the `Analysis` value, which holds the decision, days, risk and comment band it is written from. The same value also holds the matched pairs, which the handler stores in `riscos_identificados` (app.py:97).

## Model

| member | source | states |
|---|---|---|
| Text.LeadingSpaces | app.py:74 | the count of leading whitespace: every character before it is whitespace, and the one at it is not |
| Text.TrailingSpaces | app.py:74 | the same for trailing whitespace |
| Text.Strip | app.py:71-74 | the result is empty exactly when the input is all whitespace; otherwise it neither starts nor ends with whitespace |
| Text.StripIsStripOf | app.py:74 | `Strip(s)` is a slice of `s` with only whitespace cut off each end, and has no whitespace at its ends (Python's documented `strip()`) |
| Text.IsBlank | app.py:71 | stated by `Text.BlankIsAllSpace`: `not s.strip()` holds exactly when every character is whitespace |
| Text.BlankIsAllSpace | app.py:71 | a text is blank iff all of its characters are whitespace, the empty text included |
| Text.NotBlank | app.py:71 | a text whose first character is not whitespace passes the blank-input guard |
| Text.StripIdempotent | app.py:74 | stripping the already stripped logged text changes nothing |
| Text.Lower | app.py:75 | stated by `Text.LowerSpec` |
| Text.LowerSpec | app.py:75 | `s.lower()` has the length of `s`, holds no capital, and keeps every character of `s` that is not a capital |
| Text.LowerIdempotent | app.py:75 | lowering twice is lowering once |
| Text.StripLowerCommute | app.py:74-75 | `s.strip().lower() == s.lower().strip()` |
| Text.IsSubstring | app.py:76 | stated by `Text.SubstringIsSlice` |
| Text.SubstringIsSlice | app.py:76 | `needle in hay` iff some slice `hay[i:j]` equals `needle` |
| Symptoms.Lookup | app.py:32 | `d.get(k)` is present exactly when `k` is a key, and then is that key's entry |
| Symptoms.Insert | app.py:32 | stated by `Symptoms.InsertShape`, `InsertKeys`, `InsertLookup` and `InsertDistinct` |
| Symptoms.InsertShape | app.py:32 | `d[k] = v` keeps every key in place when `k` is present, and appends `(k, v)` when it is new |
| Symptoms.InsertKeys | app.py:32 | `d[k] = v` adds `k` to the key set and nothing else |
| Symptoms.InsertLookup | app.py:32 | after `d[k] = v`, `d[k]` is `v` and every other key reads as before |
| Symptoms.InsertDistinct | app.py:32 | insertion keeps keys distinct |
| Symptoms.LastRisk | app.py:32 | absent exactly when no row's phrase lowers to the key |
| Symptoms.BuildTable | app.py:31-32 | the dictionary has distinct, lowercase keys, and each key holds the risk of the last row whose phrase lowers to it (`LastRisk`) |
| Symptoms.FirstRow | app.py:32 | the index of the first row whose phrase lowers to the key: no earlier row does, and that row does when the index is in range |
| Symptoms.FirstRowAppend | app.py:32 | appending a row leaves an existing first occurrence in place, and makes the new row the first occurrence of a key not seen before |
| Symptoms.BuildTableOrder | app.py:32 | every key occurs among the rows, and the keys stand in the order of their first occurrence (Python's dict insertion order) |
| Symptoms.MatchesIn | app.py:76 | an entry is matched iff it is in the dictionary and its key occurs in the text; nothing matched iff no key occurs; distinct keys are kept |
| Symptoms.MatchesInAppend | app.py:76 | the matched list keeps dictionary order: matching a concatenation of dictionaries gives the concatenation of the matches |
| Symptoms.Score | app.py:74-76 | an entry is matched iff its key is a substring of the stripped, lowered input |
| Symptoms.HighestRisk | app.py:78 | 0 for no matches; otherwise one of the matched risks, and no matched risk exceeds it |
| Symptoms.CaseInsensitive | app.py:75-76 | two inputs that lower to the same text are matched identically |
| Symptoms.MatchedInAnyCase | app.py:75-76 | a dictionary phrase written in the stripped input in any letter case is matched |
| Symptoms.NoMatchNoRisk | app.py:76-78 | when no key occurs, nothing is matched and the highest risk is 0 |
| Policy.Label | app.py:46 | stated by `Policy.LabelNotBlank` and `Triage.LabelReadsBack` |
| Policy.LabelNotBlank | app.py:46 | neither decision label is blank |
| Policy.PredictedDays | app.py:36-45 | the days are always one of 1, 3, 5, 7, 10 |
| Policy.DaysTiers | app.py:36-45 | 10 iff risk ≥ 80, 7 iff 60 ≤ risk < 80, 5 iff 40 ≤ risk < 60, 3 iff 20 ≤ risk < 40, 1 iff risk < 20; boundaries go to the higher tier |
| Policy.DaysMonotone | app.py:36-45 | a higher risk never predicts fewer days |
| Policy.Decide | app.py:46 | stated by `Policy.DecisionCutoff` |
| Policy.DecisionCutoff | app.py:46 | admit iff risk ≥ 50; medicate and send home iff risk < 50 |
| Policy.DecisionSplitsFiveDayTier | app.py:40-46 | risks 45 and 55 both predict 5 days but are decided differently, so the cutoff is independent of the day tiers |
| Policy.DecisionAgreesWithDays | app.py:36-46 | admitted cases are predicted at least 5 days; cases sent home at most 5 |
| Policy.Commentary | app.py:85-90 | stated by `Policy.CommentaryBands` |
| Policy.CommentaryBands | app.py:85-90 | high mortality iff risk ≥ 70, moderate iff 30 ≤ risk < 70, recovery iff risk < 30 |
| Policy.CommentaryVersusDecision | app.py:85-90 | a high-mortality comment implies admission and a recovery comment implies discharge; the moderate band straddles the cutoff (40 vs 60) |
| Retraining.ValidRow | app.py:19-20 | stated by `Retraining.CleanedMembers` |
| Retraining.Cleaned | app.py:19-20 | at most one example per row read; `CleanedMembers` says which |
| Retraining.CleanedMembers | app.py:19-20 | an example survives iff its row has both cells present and neither blank after strip: no row is dropped wrongly and none is invented |
| Retraining.CleanedAppend | app.py:19-20 | appending a row adds it to the cleaned examples exactly when it is valid |
| Retraining.IsWordChar | app.py:23 | stated by `Retraining.HasTokenAt`: a character `\w` matches, on ASCII and Latin-1 |
| Retraining.HasToken | app.py:23 | stated by `Retraining.HasTokenAt` |
| Retraining.HasTokenAt | app.py:23 | the default token pattern `\b\w\w+\b` finds a token iff two word characters stand side by side |
| Retraining.HasVocabularyIn | app.py:23 | the vocabulary is non-empty iff some example's text holds a token |
| Retraining.HasVocabulary | app.py:23 | stated by `Retraining.HasVocabularyIn` |
| Retraining.AllLabelledIn | app.py:24 | every example carries decision `d` iff each member does |
| Retraining.TwoClassesIn | app.py:24-27 | the labels hold two classes iff two examples carry different decisions |
| Retraining.TwoClasses | app.py:27 | stated by `Retraining.TwoClassesIn` |
| Retraining.Fittable | app.py:23-27 | stated by `Retraining.Retrain`, `SingleDecisionRaises`, `NoTokenRaises` and `TwoDecisionsAndATokenSave` |
| Retraining.Retrain | app.py:14-28 | skipped iff fewer than 3 clean rows remain; saved iff at least 3 remain and the fit can run (a token and two decisions), and then fitted on exactly the clean rows; it raises otherwise |
| Retraining.RetrainOnValidRows | app.py:19-28 | a saved classifier is fitted on exactly the examples of the valid rows of the log, both directions |
| Retraining.ThirdValidRowTriggers | app.py:22 | with 2 clean rows retraining is skipped; one more valid row makes it reach the fit |
| Retraining.InvalidRowIsIgnored | app.py:19-22 | an invalid row never changes the outcome of retraining |
| Retraining.SingleDecisionRaises | app.py:24-27 | when every valid row has the same decision, the fit raises however many rows there are |
| Retraining.NoTokenRaises | app.py:23 | when no valid row holds a token, the vocabulary is empty and the fit raises |
| Retraining.TwoDecisionsAndATokenSave | app.py:22-28 | with at least 3 clean rows, a token in one and two different decisions, the classifier is saved, fitted on all clean rows |
| Retraining.ThreeValidRows | app.py:19-28 | from an empty log, one or two valid rows skip; the third reaches the fit on exactly those three examples |
| Triage.Analyze | app.py:74-90 | stated by `Triage.RecordOfFields`, `FeverAndVomiting`, `NoSymptomSendsHome` and `Session.Submit` |
| Triage.RecordOf | app.py:74-101 | stated by `Triage.RecordOfFields` |
| Triage.RecordOfFields | app.py:74-101 | the logged record holds the stripped text and the highest matched risk; its decision and days are the policy's for that risk: one of the two labels ("Internar" iff the risk is ≥ 50) and one of the five day counts |
| Triage.IsNaCell | app.py:16 | stated by `Triage.RecordIsValid`, `LabelReadsBack` and `NaNoteIsIgnored`: the 19 cells pandas reads as `NaN` by default |
| Triage.Cell | app.py:16 | stated by `Triage.RecordIsValid` and `LabelReadsBack` |
| Triage.ReadBack | app.py:16 | stated by `Triage.ReadLogAt` and `RecordIsValid`: one appended line read back, under the assumptions listed in Left out |
| Triage.ReadLog | app.py:16 | reading the log back gives one row per record |
| Triage.ReadLogAt | app.py:16 | row `i` is record `i` as read back: its text and decision, with the cells pandas reads as `NaN` missing |
| Triage.ReadLogAppend | app.py:103-104 | appending a record appends its row to what is read back |
| Triage.ReadLogThree | app.py:16 | logs of one, two and three records read back as their rows |
| Triage.LabelReadsBack | app.py:46 | neither label is one of the cells pandas reads as `NaN` |
| Triage.RecordIsValid | app.py:19-20 | a record survives the row filter iff its input passed the blank guard and its stripped text is not one of pandas' `NaN` cells |
| Triage.LoggedCaseCleaned | app.py:101-104 | logging a case adds its example to what retraining sees iff the record survives the filter, and nothing otherwise |
| Triage.NaNoteIsIgnored | app.py:71-107 | the note "NA" passes the blank guard, yet its record reads back as missing and never changes the outcome of retraining |
| Triage.FeverAndVomiting | app.py:74-79 | a note naming "febre" (risk 60) and "vômito" (risk 85) matches both, has risk 85, is admitted, and is predicted 10 days |
| Triage.NoSymptomSendsHome | app.py:76-79 | a note naming no dictionary phrase matches nothing, has risk 0, is sent home, and is predicted 1 day |
| Triage.ExampleOfValid | app.py:19-24 | a record whose row survives the filter becomes the example of its own text and decision |
| Triage.ThreeLoggedRecords | app.py:14-28 | from an empty log, the first two valid records skip retraining and the third reaches the fit on exactly the three |
| Triage.ThreeLoggedCases | app.py:70-107 | three notes that do not read back as `NaN` pass the blank guard; from an empty log the first two skip and the third reaches the fit on their three examples |
| Triage.UnmatchedNotesCannotFit | app.py:76-79 | three notes naming no dictionary phrase are all sent home, so their examples cannot be fitted |
| Triage.Session.constructor | app.py:50-54 | a new session is in the initial state, with the dictionary built from the symptom rows |
| Triage.Session.Submit | app.py:70-107 | accepted iff the input is not blank; a blank input changes nothing; an accepted one stores its analysis and appends its record; the outcome is retraining on the new log, and the artifact changes only when it saves (details below) |
| Triage.Session.Reset | app.py:122-126 | the four session fields return to their initial values; the log and the artifact stay |
| Triage.AnalyseThenReset | app.py:70-126 | "Analisar" then "Nova Análise": back on the form, one record longer, with the outcome of retraining on the new log |
| Triage.ThirdCaseReachesTheFit | app.py:70-107 | on a fresh session with an empty log, three cases entered with "Nova Análise" between them: the first two skip retraining, and the third saves exactly when its three examples can be fitted, raising otherwise |

What `Triage.Session.Submit` states:
- It is accepted iff the input is not blank.
- A blank input changes nothing and does not retrain.
- An accepted input:
  - sets `analise_feita`;
  - stores the analysis of that same input and its matches;
  - stores the raw input;
  - appends exactly one record, computed from that input, to the end of the log. Earlier records are unchanged.
- Its outcome is `Retrain` of the new log: skipped with fewer than 3 clean rows, otherwise saved or raised.
- The artifact changes only when the outcome is saved, and then holds the examples fitted. When the fit raises, the session fields and the log record written before it stay, and the error propagates to the handler.
- The session stays consistent.

## Left out

- Streamlit layout, forms, the logo, `st.rerun` and the markdown rendering (app.py:8, 57-69, 109-121). These are user interface.
- `Submit` and `Reset` do not require which screen is shown. Only the UI hides the form once `analise_feita` is set. The handlers themselves never test it.
- The file system (`os.path.exists`, `os.makedirs`, `open`, `pd.read_csv`). The log is an in-memory sequence of records. The symptom table and any earlier log and artifact are constructor parameters.
- `ReadLog`: the read-back assumes a text holds no comma, double quote or line break. The comma join of app.py:104 does no escaping. A comma shifts cells or makes `read_csv` raise on too many fields. A line break splits the record. An unbalanced `"` makes the parser swallow the lines after it. These cases are not modelled, and no round-trip property is claimed for them. The cells pandas reads as `NaN` by default are modelled (`Triage.IsNaCell`).
- `ReadLog`: `read_csv` infers column types. When every note in the log is numeric, a note such as `007` reads back as a number and comes back from `astype(str)` as `7`. Texts are modelled as read back verbatim.
- `TfidfVectorizer`, `LogisticRegression.fit` and `joblib.dump` (app.py:11, 23-28) are foreign library calls. Only their two failure conditions are modelled: an empty vocabulary and a single class. What the fitted classifier predicts, the solver's convergence and the pickle file are not.
- `Retraining.IsWordChar`: `\w` is modelled on ASCII and Latin-1 only. Word characters beyond U+00FF are not recognised, so a text written only in such scripts is taken to hold no token.
- The float formatting `{maior_risco:.1f}` and the text of `resultado` (app.py:81-83, 92). The band of the comment is modelled; its wording is not.
- Floating point: risks are exact reals, so NaN risks and rounding are not modelled.
- `Text.LowerChar` lowers only ASCII and Latin-1 capitals. Python's full Unicode case mapping (e.g. Greek, Cyrillic, or the one-to-many `'İ'`) is not modelled.
- `Session.constructor`: requires that no symptom phrase is a cell pandas reads as `NaN`. In the source such a key is a float, and the `in` test of app.py:76 raises `TypeError` on every submission; that failing app is not modelled. A `NaN` risk is not modelled either.
- Concurrent sessions writing the same log are not modelled. The app assumes a single user.
