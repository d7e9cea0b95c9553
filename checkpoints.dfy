/** The multiple-choice self-check on the "Checkpoints" screen: each
    question's stored answer (option 0 when none is stored) is compared with
    its correct option; the score counts the matches, one feedback line per
    question is produced in question order, and a score of at least three
    earns the "on course" message. */
module Checkpoints {

  /** One self-check question: its id (the key under which the answer is
      stored), its prompt, how many options the radio offers, the index of
      the correct option and the hint shown when it is missed. */
  datatype Question = Question(id: string, prompt: string, optionCount: nat, correct: nat, explain: string)

  /** One line of the checkpoint feedback. */
  datatype Line = Passed(prompt: string) | Hint(prompt: string, explain: string)

  /** The four questions of the screen; the correct option is the second one
      (index 1) of three in each. */
  const Questions: seq<Question> := [
    Question("q1", "1) Zuständigkeit: Darf der Stadtrat Vorgaben zu Unterrichtsinhalten erlassen?", 3, 1,
      "Schulträger = äußere Schulangelegenheiten. Unterricht/Inhalte = staatliche Schulhoheit / Schule."),
    Question("q2", "2) Neutralität: Was bedeutet Neutralitätsgebot im Unterricht am ehesten?", 3, 1,
      "Neutralität schützt vor einseitiger Beeinflussung – nicht vor politischer Bildung."),
    Question("q3", "3) Grundrechte: Welche Aussage ist am treffendsten?", 3, 1,
      "Schule ist kein grundrechtsfreier Raum. Einschränkungen nur bei legitimen Zielen & Verhältnismäßigkeit."),
    Question("q4", "4) Verhältnismäßigkeit: Ein pauschales Verbot aktueller politischer Konflikte im Unterricht ist …", 3, 1,
      "Pauschalverbote sind regelmäßig zu weit. Mildere Mittel existieren (Leitlinien, Mehrperspektivität, Absprachen).")
  ]

  /** The score from which the "on course" message is shown. */
  const OnCourseThreshold: nat := 3

  /** `answers.get(id, 0)`. */
  function Answer(answers: map<string, int>, id: string): (a: int) {
    if id in answers then answers[id] else 0
  }

  /** The stored answer (or the default 0) is the correct option. */
  predicate Fits(q: Question, answers: map<string, int>) {
    Answer(answers, q.id) == q.correct
  }

  /** The feedback line for one question. */
  function LineFor(q: Question, answers: map<string, int>): (r: Line)
    ensures r.prompt == q.prompt
    ensures r.Passed? <==> Fits(q, answers)
    ensures r.Hint? ==> r.explain == q.explain
  {
    if Fits(q, answers) then Passed(q.prompt) else Hint(q.prompt, q.explain)
  }

  /** The text of a feedback line as displayed: a check mark and "passt", or a
      warning sign followed by the hint. */
  function Render(line: Line): (r: string)
    ensures line.Passed? ==> |r| == |line.prompt| + 11 && r[0] == '\U{2705}'
    ensures line.Passed? ==> r[1] == ' ' && r[2..2 + |line.prompt|] == line.prompt
    ensures line.Passed? ==> r[2 + |line.prompt|..] == " – passt."
    ensures line.Hint? ==> |r| == |line.prompt| + |line.explain| + 15 && r[0] == '\U{26A0}'
    ensures line.Hint? ==> r[1..3] == "\U{FE0F} " && r[3..3 + |line.prompt|] == line.prompt
    ensures line.Hint? ==> r[3 + |line.prompt|..|r| - |line.explain|] == " – Hinweis: "
    ensures line.Hint? ==> r[|r| - |line.explain|..] == line.explain
  {
    match line
    case Passed(p) => "\U{2705} " + p + " – passt."
    case Hint(p, e) => "\U{26A0}\U{FE0F} " + p + " – Hinweis: " + e
  }

  /** The number of questions answered correctly (specification of the
      scoring loop). */
  function CorrectCount(qs: seq<Question>, answers: map<string, int>): (c: nat)
    ensures c <= |qs|
  {
    if qs == [] then 0
    else CorrectCount(qs[..|qs| - 1], answers) + (if Fits(qs[|qs| - 1], answers) then 1 else 0)
  }

  /** The number of questions answered wrongly. */
  function MissedCount(qs: seq<Question>, answers: map<string, int>): (m: nat)
    ensures m <= |qs|
  {
    if qs == [] then 0
    else MissedCount(qs[..|qs| - 1], answers) + (if Fits(qs[|qs| - 1], answers) then 0 else 1)
  }

  /** The "on course" message is shown instead of the warning. */
  predicate OnCourse(score: int) {
    score >= OnCourseThreshold
  }

  /** The scoring loop: counts the correct answers and collects one feedback
      line per question, in question order. */
  method Evaluate(qs: seq<Question>, answers: map<string, int>) returns (score: nat, lines: seq<Line>)
    ensures score == CorrectCount(qs, answers)
    ensures |lines| == |qs|
    ensures forall i :: 0 <= i < |qs| ==> lines[i] == LineFor(qs[i], answers)
  {
    score := 0;
    lines := [];
    for i := 0 to |qs|
      invariant score == CorrectCount(qs[..i], answers)
      invariant |lines| == i
      invariant forall k :: 0 <= k < i ==> lines[k] == LineFor(qs[k], answers)
    {
      assert qs[..i + 1][..i] == qs[..i];
      if Answer(answers, qs[i].id) == qs[i].correct {
        score := score + 1;
        lines := lines + [Passed(qs[i].prompt)];
      } else {
        lines := lines + [Hint(qs[i].prompt, qs[i].explain)];
      }
    }
    assert qs[..|qs|] == qs;
  }

  /** The indices of the questions answered correctly among the first `n`. */
  ghost function FitIndices(qs: seq<Question>, answers: map<string, int>, n: nat): set<nat>
    requires n <= |qs|
  {
    set i: nat | i < n && Fits(qs[i], answers)
  }

  /** The score is the number of questions whose answer fits, and each
      question is counted as either correct or missed. */
  lemma {:induction false} CorrectCountIsCardinality(qs: seq<Question>, answers: map<string, int>)
    ensures CorrectCount(qs, answers) == |FitIndices(qs, answers, |qs|)|
    ensures CorrectCount(qs, answers) + MissedCount(qs, answers) == |qs|
  {
    if qs != [] {
      var n := |qs| - 1;
      var init := qs[..n];
      CorrectCountIsCardinality(init, answers);
      assert FitIndices(init, answers, n) == FitIndices(qs, answers, n);
      if Fits(qs[n], answers) {
        assert FitIndices(qs, answers, n + 1) == FitIndices(qs, answers, n) + {n};
      } else {
        assert FitIndices(qs, answers, n + 1) == FitIndices(qs, answers, n);
      }
    }
  }

  /** 0 <= score <= number of questions; full marks exactly when every
      answer fits, zero exactly when none does. */
  lemma {:induction false} CorrectCountBounds(qs: seq<Question>, answers: map<string, int>)
    ensures CorrectCount(qs, answers) <= |qs|
    ensures CorrectCount(qs, answers) == |qs| <==> forall i :: 0 <= i < |qs| ==> Fits(qs[i], answers)
    ensures CorrectCount(qs, answers) == 0 <==> forall i :: 0 <= i < |qs| ==> !Fits(qs[i], answers)
  {
    if qs != [] {
      var n := |qs| - 1;
      CorrectCountBounds(qs[..n], answers);
      assert forall i :: 0 <= i < n ==> qs[..n][i] == qs[i];
    }
  }

  /** On the screen's four questions, the "on course" message is shown
      exactly when at most one question is missed. */
  lemma OnCourseIffAtMostOneMissed(answers: map<string, int>)
    ensures OnCourse(CorrectCount(Questions, answers)) <==> MissedCount(Questions, answers) <= 1
  {
    CorrectCountIsCardinality(Questions, answers);
  }

  /** With no answer stored every question reads as option 0, which is never
      the correct option here: the score is 0 and the message is the warning. */
  lemma NoAnswersScoreZero()
    ensures CorrectCount(Questions, map[]) == 0
    ensures !OnCourse(CorrectCount(Questions, map[]))
  {
    CorrectCountBounds(Questions, map[]);
  }
}
