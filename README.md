# Fallakte session logic, modelled in Dafny

The case-file app ("Fallakte: Der umstrittene Schulbeschluss") is a Streamlit
page. Student groups read a legal case, answer four multiple-choice
checkpoints, vote on whether a town council's decision is lawful, and write a
reasoning. They save that submission, which unlocks the model solution for
their own session. Apart from rendering and static text, `app.py` holds a
small amount of logic over one per-client session dictionary
(`st.session_state`). This project models that logic and proves what it
promises.

- `text.dfy` (module `Text`): Python's `str.strip()`, `str.lower()` and the
  `in` operator between strings. Each is given a full characterisation and
  lemmas: idempotence, and agreement with the index-based definition of a
  substring.
- `structure_feedback.dfy` (module `StructureFeedback`): the advisory
  keyword feedback on the decision screen. It is a pure function from the
  reasoning text to the found and missing building blocks. The lemmas prove
  that the two lists partition the five blocks and keep the table order.
- `checkpoints.dfy` (module `Checkpoints`): the checkpoint scoring loop as a
  method proved against a counting function. The lemmas cover the score's
  bounds, its meaning as a count, and the "on course" threshold.
- `session.dfy` (module `Session`): the session dictionary as the class
  `Session`, with a field `state: map<string, Value>`. Absent keys are absent
  map keys. The module covers `init_state`, the prefill from the `group` link
  parameter, the sidebar selections, answers, the vote and the reasoning,
  the save handler, the solution gate and `reset_session`. The invariant
  `Valid()` says that:
  - every default key is present;
  - each key holds a value of its kind;
  - the step is one of the four screens and the role one of the four
    perspectives;
  - the solution is unlocked only together with a saved payload. That
    payload has a non-empty group name, one of the three votes, and the
    stored timestamp.
- `wrappers.dfy` (module `Wrappers`): an `Option` type.

All of this logic is deterministic. Widget results, the `group`
link parameter and the save timestamp are inputs: they are method parameters,
or a constant of the session.

Saving unlocks the solution only for the saving session, through the
per-session flag `show_solution`. There is no shared store of submissions,
no moderator view and no vote tally.

## Model

| member | source | states |
|---|---|---|
| Text.StripLeft | app.py:401 | the result is `s` minus its longest whitespace prefix: a suffix of `s`, everything removed is whitespace, and a non-empty result starts with a non-space |
| Text.StripRight | app.py:401 | the result is `s` minus its longest whitespace suffix: a prefix of `s`, everything removed is whitespace, and a non-empty result ends with a non-space |
| Text.Strip | app.py:401 | `strip()` is the slice of the text left after removing the whitespace before and after it; it is empty exactly when the text is all whitespace, and otherwise starts and ends with a non-space |
| Text.StripTrimmed | app.py:431 | a string without surrounding whitespace is its own strip |
| Text.StripIdempotent | app.py:431 | stripping twice equals stripping once |
| Text.Lower | app.py:402 | `lower()` keeps the length and maps every character through the explicit lower-case table |
| Text.LowerIdempotent | app.py:402 | lower-casing twice equals lower-casing once |
| Text.ContainsIffOccurs | app.py:410 | the recursive `key in text` holds exactly when `key` occurs in `text` at some index |
| StructureFeedback.Labels | app.py:411 | `hits.values()` lists the label of each table entry, in table order |
| StructureFeedback.Feedback | app.py:401-411 | feedback is produced exactly when the reasoning is not all whitespace |
| StructureFeedback.Found | app.py:410 | `found` lists only table labels, at most one per entry, and every label when every keyword occurs |
| StructureFeedback.Missing | app.py:411 | `missing` holds exactly the labels not in `found`, at most as many as there are labels |
| StructureFeedback.Unmatched | app.py:411 | the reference list of missing blocks holds only table labels, at most one per entry, and every label when no keyword occurs |
| StructureFeedback.FoundMembership | app.py:410 | a label is in `found` iff some table entry with that label has its keyword in the text |
| StructureFeedback.UnmatchedMembership | app.py:411 | a label is unmatched iff some entry with that label has its keyword absent from the text |
| StructureFeedback.PartitionShape | app.py:410-411 | found and unmatched labels are both subsequences of the labels in table order, and their lengths add up to the table size |
| StructureFeedback.MissingCongruent | app.py:411 | `missing` depends on `found` only through membership |
| StructureFeedback.MissingIsUnmatched | app.py:411 | with distinct labels, the complement `[label for label in labels if label not in found]` equals the labels whose keyword is absent, in order |
| StructureFeedback.UnmatchedEmptyIff | app.py:414-417 | nothing is missing exactly when every keyword occurs |
| StructureFeedback.Partition | app.py:410-417 | for any table with distinct labels: found and missing are disjoint and contain only table labels; each label is in exactly one of them, depending on whether its keyword occurs; together they count every entry once, keep table order, and missing is empty iff every keyword occurs |
| StructureFeedback.HitsDistinct | app.py:403-409 | the five labels of the keyword table are distinct |
| StructureFeedback.FeedbackPartition | app.py:401-417 | for non-blank reasoning, the five building blocks are split between found (keyword in the lower-cased text) and missing (keyword absent), disjointly, completely and in table order; the "all present" message is shown iff every keyword occurs |
| StructureFeedback.FirstAndFourthOnly | app.py:410-411 | in a five-entry table, a text containing exactly the first and fourth keyword finds those two labels and misses the other three, in table order |
| StructureFeedback.CompetenceAndProportionality | app.py:401-411 | a reasoning containing "zuständ" and "verhältnis" (after lower-casing) but none of the other three keywords yields found = [Zuständigkeit, Verhältnismäßigkeit] and missing = [Grundrechte, Neutralitätsgebot, Bildungsauftrag/Demokratie] |
| Checkpoints.LineFor | app.py:350-354 | a question's line carries its prompt; it is the "passt" line exactly when the stored answer (default 0) is the correct option, and otherwise carries the question's hint |
| Checkpoints.Render | app.py:352-354 | the "passt" line is exactly a check mark (U+2705), a space, the prompt and " – passt."; the hint line is exactly a warning sign (U+26A0), U+FE0F, a space, the prompt, " – Hinweis: " and the hint; so the two kinds differ in their first character |
| Checkpoints.CorrectCount | app.py:347-351 | the number of fitting answers never exceeds the number of questions |
| Checkpoints.Evaluate | app.py:347-355 | the loop's score equals the number of questions whose stored answer (default 0) is the correct option; it emits exactly one feedback line per question, in question order, "passt" when the answer fits and the hint otherwise |
| Checkpoints.CorrectCountIsCardinality | app.py:347-356 | the score is the size of the set of question indices whose answer fits, and score plus missed questions equals the number of questions |
| Checkpoints.CorrectCountBounds | app.py:356 | 0 <= score <= number of questions; full marks iff every answer fits; zero iff none fits |
| Checkpoints.OnCourseIffAtMostOneMissed | app.py:359-362 | on the four questions of the screen, the "on course" message (score >= 3) is shown iff at most one question is missed |
| Checkpoints.NoAnswersScoreZero | app.py:350 | with no stored answers every question reads as option 0, so the score is 0 and the warning is shown |
| Session.ResolveGroup | app.py:431 | the payload's group name is never empty; when it comes from the typed name it has no surrounding whitespace |
| Session.ToMapKeys | app.py:39-41 | the keys of a dictionary built from key/value pairs are exactly the pairs' keys |
| Session.ToMapLookup | app.py:39-41 | with distinct keys, each key maps to its own pair's value |
| Session.DefaultsDistinct | app.py:27-38 | the ten default keys are distinct |
| Session.NotAmongEarlierDefaults | app.py:39-41 | while the defaults loop runs, the current key was not added by an earlier iteration |
| Session.DefaultValues | app.py:27-38 | the defaults dictionary has all ten keys, with step "Fallakte", empty name, role "Schulaufsicht", checks not done, no answers, no vote, empty reasoning, no timestamp, no payload and the solution locked |
| Session.MergeDefaults | app.py:39-41 | filling in defaults keeps the value of every present key, gives every absent default key its default, and turns a well-formed dictionary into a complete well-formed one |
| Session.MergeDefaultsIdempotent | app.py:26-41 | filling in the defaults twice equals doing it once |
| Session.ResetThenInitGivesDefaults | app.py:26-41 | after the dictionary is wiped, filling in the defaults gives exactly the defaults: every key holds its default value and the session is valid |
| Session.SavedSubmission | app.py:493 | the solution screen has a submission to show exactly when a payload is stored, and it is that payload |
| Session.SaveKeepsWellFormed | app.py:427-438 | when a vote is stored, storing a payload with that vote, the current role and its timestamp and unlocking the solution keeps a complete session well-formed |
| Session.Session.constructor | app.py:20-21 | a new connection has an empty session dictionary and keeps the link's group id |
| Session.Session.InitState | app.py:26-41 | the new dictionary is the defaults overridden by the old dictionary: present keys are unchanged, absent default keys get their defaults, and a well-formed dictionary becomes a valid session |
| Session.Session.PrefillGroup | app.py:46-47 | the group name becomes "Gruppe <id>" exactly when the link carries a group id and the name is empty; otherwise nothing changes |
| Session.Session.EnterGroupName | app.py:131-137 | the name field changes the name only when the link carries no group id |
| Session.Session.SelectRole | app.py:139-144 | only one of the four perspectives can be selected; only the role changes |
| Session.Session.Navigate | app.py:148-152 | only one of the four screens can be selected; only the step changes |
| Session.Session.RecordAnswer | app.py:333-340 | a checkpoint radio stores an option index of that question under the question's id; nothing else changes |
| Session.Session.MarkChecksDone | app.py:343-344 | the evaluate button sets `checks_done`; nothing else changes |
| Session.Session.ReportCheckpoints | app.py:346-362 | results are shown iff checks were evaluated; then the score is the number of fitting stored answers, one line per question in order, and "on course" iff score >= 3 |
| Session.Session.DefaultVote | app.py:373 | the preselected vote is always one of "Ja", "Nein", "Teilweise": the stored vote when one is set, else "Nein" |
| Session.Session.ChooseVote | app.py:374-378 | only one of the three votes can be chosen; only the vote changes |
| Session.Session.EditReasoning | app.py:380-393 | only the reasoning changes |
| Session.Session.Save | app.py:425-438 | on the decision screen, with a vote stored: timestamp and payload timestamp are the same given time; the payload carries the case id, the resolved non-empty group name, and the current role, vote and reasoning; the solution flag becomes true; nothing else changes, and the session stays valid |
| Session.Session.DecisionScreen | app.py:373-438 | one run of the decision screen stores the chosen vote and the reasoning, computes the keyword feedback of that reasoning, and, when the button was pressed, saves a payload carrying that vote and reasoning and unlocks the solution; nothing else changes |
| Session.Session.SolutionScreen | app.py:451-499 | the solution screen is locked exactly when `show_solution` is not true; when revealed, a saved payload exists whose group name is non-empty, whose vote is one of the three answers and whose timestamp is the stored one |
| Session.Session.ResetSession | app.py:108-111 | every key of the session dictionary is deleted |

Every state-changing method except `ResetSession` keeps `Valid()`; the
constructor and `ResetSession` leave an empty dictionary, and `InitState`
turns that (or any well-formed dictionary) into a valid one. The last clause
of `Valid()` is: if `show_solution` is true, a payload is saved and its
timestamp is the stored one. Only `Save` (also as the last step of
`DecisionScreen`) sets that flag to true. Every other method states its whole
new state, and that new state leaves the flag as it was, or removes it
together with every other key (`ResetSession`); the rerun's `InitState` then
sets it to false. So a session that never saves never reaches the
solution. `GroupLinkScenario`, `SaveScenario` and `ResetLocksScenario` walk
through this. With the link `?group=7`, the prefilled name is "Gruppe 7" and
the solution is still locked. A decision-screen run that votes "Teilweise" and
presses the button stores "Gruppe 7" as the group and "Teilweise" as the vote,
and unlocks the solution. After a reset and the rerun's defaults, the
solution is locked again.

## Left out

- Streamlit rendering: page config, titles, badges, markdown, columns, tabs,
  expanders, the "Gruppe:" header badge (163-165) and `render_role_task`.
  These are display only; widget results are method parameters instead.
- `st.rerun` and `st.stop`: framework re-execution. The rerun after a reset
  is modelled as the caller running `InitState` and `PrefillGroup` again,
  as a script run does. `st.stop` is modelled by `SolutionScreen` returning
  `Locked`.
- `datetime.now().strftime(...)`: clock input, taken as the `timestamp`
  parameter of `Save`, with no check of its format.
- `json.dumps` of the payload (446): display-only serialisation.
- Text.IsSpace / Text.Strip: only the whitespace listed in `IsSpace` is
  stripped (ASCII whitespace, U+001C..U+001F, U+0085, U+00A0). Other
  Unicode space separators that Python also strips are not modelled.
- Text.LowerChar / Text.Lower: only A-Z and the Latin-1 capitals
  U+00C0..U+00DE (except U+00D7) are lower-cased. Python's full Unicode case
  mapping is not modelled.
- Session.Session.ResetSession: keys are deleted in an arbitrary order. The
  order of `list(st.session_state.keys())` does not affect the result.
- Keys that Streamlit itself keeps for keyed widgets (`mc_q1` to `mc_q4`)
  are allowed in the map but never written by the model.
- Static content (the case narrative, the document tabs, the `ROLE_TASKS`
  texts, the option texts of the checkpoints, the model solution) carries
  no behaviour. Only the role names, the option counts, the correct indices,
  the prompts and the hints enter the model.
- The feedback lines of the checkpoints are the datatype
  `Checkpoints.Line`. `Checkpoints.Render` gives their displayed text; the
  joining of the lines into one markdown block (357) is display only.
