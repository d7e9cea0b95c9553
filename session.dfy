/** The per-client session record of the case-file app and the operations
    that change it: filling in defaults, prefilling the group name from the
    link, the sidebar selections, the answers and votes entered on the
    screens, saving a submission (which unlocks the solution for this
    session) and wiping the session.

    The record is Streamlit's `st.session_state`, a dictionary whose keys may
    be absent; it is modelled as a map from key names to dynamically typed
    values. Widget results are parameters of the methods; the timestamp of a
    save is a parameter too, since it comes from the clock. */
module Session {
  import opened Wrappers
  import opened Text
  import Checkpoints
  import StructureFeedback

  /** The case id written into every payload. */
  const CaseId: string := "Rosenfeld-23/26"

  /** The four screens of the sidebar navigation, in their order. */
  const Steps: seq<string> := ["Fallakte", "Checkpoints", "Entscheidung", "Auflösung"]

  /** The four institutional perspectives of the sidebar selector. */
  const Roles: seq<string> := ["Schulaufsicht", "Verwaltungsgericht", "Fachkommission Politische Bildung", "Schulleitung"]

  /** The three answers to "is the decision lawful?". */
  const Votes: seq<string> := ["Ja", "Nein", "Teilweise"]

  /** A value stored in the session dictionary: a string, a boolean, the
      dictionary of checkpoint answers, Python's None, or a saved payload. */
  datatype Value = Str(s: string) | Flag(b: bool) | Answers(m: map<string, int>) | Nil | Record(p: Payload)

  /** The submission built by the save button. */
  datatype Payload = Payload(caseId: string, group: string, role: string, vote: Value, reasoning: string, timestamp: string)

  /** What the solution screen shows: the lock notice, or the model solution
      followed by the session's own saved submission when there is one. */
  datatype SolutionView = Locked | Revealed(submission: Option<Payload>)

  /** Python's truth value of a stored value. */
  predicate Truthy(v: Value) {
    match v
    case Str(s) => s != []
    case Flag(b) => b
    case Answers(m) => m != map[]
    case Nil => false
    case Record(_) => true
  }

  /** The defaults of `init_state`, in the dictionary's order. */
  const Defaults: seq<(string, Value)> := [
    ("step", Str("Fallakte")),
    ("group_name", Str("")),
    ("role", Str("Schulaufsicht")),
    ("checks_done", Flag(false)),
    ("mc_answers", Answers(map[])),
    ("vote", Nil),
    ("reasoning", Str("")),
    ("timestamp", Nil),
    ("saved_payload", Nil),
    ("show_solution", Flag(false))
  ]

  /** The dictionary a sequence of key/value pairs denotes (a later pair
      overrides an earlier one with the same key). */
  function ToMap(ds: seq<(string, Value)>): (m: map<string, Value>) {
    if ds == [] then map[]
    else ToMap(ds[..|ds| - 1])[ds[|ds| - 1].0 := ds[|ds| - 1].1]
  }

  /** The defaults as a dictionary. */
  function DefaultMap(): (m: map<string, Value>) {
    ToMap(Defaults)
  }

  ghost predicate DistinctKeys(ds: seq<(string, Value)>) {
    forall i, j :: 0 <= i < j < |ds| ==> ds[i].0 != ds[j].0
  }

  // ---------------------------------------------------------------------
  // The session invariant

  /** A payload as the save button builds it: the case id, a non-empty
      group name, one of the roles and one of the three answers as the vote
      (the vote radio has stored one before the button is handled). */
  predicate ValidPayload(p: Payload) {
    && p.caseId == CaseId
    && p.group != []
    && p.role in Roles
    && p.vote.Str? && p.vote.s in Votes
  }

  /** Every key of the defaults is present. */
  predicate Complete(s: map<string, Value>) {
    && "step" in s && "group_name" in s && "role" in s && "checks_done" in s && "mc_answers" in s
    && "vote" in s && "reasoning" in s && "timestamp" in s && "saved_payload" in s && "show_solution" in s
  }

  /** Each default key that is present holds a value of its kind: the step
      is one of the four screens and the role one of the four perspectives
      (otherwise the sidebar's `list.index` lookups fail), and the solution
      is unlocked only together with a saved payload whose timestamp is the
      stored one. */
  predicate WellFormed(s: map<string, Value>) {
    && ("step" in s ==> s["step"].Str? && s["step"].s in Steps)
    && ("group_name" in s ==> s["group_name"].Str?)
    && ("role" in s ==> s["role"].Str? && s["role"].s in Roles)
    && ("checks_done" in s ==> s["checks_done"].Flag?)
    && ("mc_answers" in s ==> s["mc_answers"].Answers?)
    && ("vote" in s ==> s["vote"].Nil? || (s["vote"].Str? && s["vote"].s in Votes))
    && ("reasoning" in s ==> s["reasoning"].Str?)
    && ("timestamp" in s ==> s["timestamp"].Nil? || s["timestamp"].Str?)
    && ("saved_payload" in s ==> s["saved_payload"].Nil? || (s["saved_payload"].Record? && ValidPayload(s["saved_payload"].p)))
    && ("show_solution" in s ==> s["show_solution"].Flag?)
    && ("show_solution" in s && s["show_solution"] == Flag(true) ==>
          && "saved_payload" in s && s["saved_payload"].Record?
          && "timestamp" in s && s["timestamp"] == Str(s["saved_payload"].p.timestamp))
  }

  /** The group name of the payload: the stripped name when that is not
      blank, else "Gruppe <group id>" when the link carries one, else
      "Unbenannt". */
  function ResolveGroup(name: string, groupId: string): (g: string)
    ensures g != []
    ensures Strip(name) != [] ==> !IsSpace(g[0]) && !IsSpace(g[|g| - 1])
  {
    if Strip(name) != [] then Strip(name)
    else if groupId != [] then "Gruppe " + groupId
    else "Unbenannt"
  }

  /** The submission shown under the solution: the stored payload, if the
      stored value is one (a saved payload is never falsy). */
  function SavedSubmission(v: Value): (r: Option<Payload>)
    ensures r.Some? <==> v.Record?
    ensures r.Some? ==> r.value == v.p
  {
    if Truthy(v) && v.Record? then Some(v.p) else None
  }

  // ---------------------------------------------------------------------
  // Lemmas about the defaults

  /** A key of ToMap(ds) is the key of some pair of ds. */
  lemma {:induction false} ToMapKeys(ds: seq<(string, Value)>, k: string)
    ensures k in ToMap(ds) <==> exists j :: 0 <= j < |ds| && ds[j].0 == k
  {
    if ds != [] {
      var n := |ds| - 1;
      ToMapKeys(ds[..n], k);
      if exists j :: 0 <= j < n && ds[..n][j].0 == k {
        var j :| 0 <= j < n && ds[..n][j].0 == k;
        assert ds[j] == ds[..n][j];
      }
      if exists j :: 0 <= j < |ds| && ds[j].0 == k {
        var j :| 0 <= j < |ds| && ds[j].0 == k;
        if j < n {
          assert ds[..n][j] == ds[j];
        }
      }
    }
  }

  /** With distinct keys, each pair's key maps to that pair's value. */
  lemma {:induction false} ToMapLookup(ds: seq<(string, Value)>, i: nat)
    requires DistinctKeys(ds) && i < |ds|
    ensures ds[i].0 in ToMap(ds) && ToMap(ds)[ds[i].0] == ds[i].1
  {
    var n := |ds| - 1;
    if i < n {
      assert DistinctKeys(ds[..n]) by {
        forall a, b | 0 <= a < b < n ensures ds[..n][a].0 != ds[..n][b].0 {
          assert ds[..n][a] == ds[a] && ds[..n][b] == ds[b];
        }
      }
      assert ds[..n][i] == ds[i];
      ToMapLookup(ds[..n], i);
    }
  }

  /** The ten default keys are distinct. */
  lemma DefaultsDistinct()
    ensures DistinctKeys(Defaults)
  {
  }

  /** The key of the i-th default is not yet among the first i defaults. */
  lemma NotAmongEarlierDefaults(i: nat)
    requires i < |Defaults|
    ensures Defaults[i].0 !in ToMap(Defaults[..i])
  {
    DefaultsDistinct();
    ToMapKeys(Defaults[..i], Defaults[i].0);
  }

  /** The defaults dictionary has exactly the ten keys, with the values of
      `init_state`. */
  lemma DefaultValues()
    ensures var d := DefaultMap();
      && Complete(d)
      && d["step"] == Str("Fallakte") && d["group_name"] == Str("") && d["role"] == Str("Schulaufsicht")
      && d["checks_done"] == Flag(false) && d["mc_answers"] == Answers(map[]) && d["vote"] == Nil
      && d["reasoning"] == Str("") && d["timestamp"] == Nil && d["saved_payload"] == Nil
      && d["show_solution"] == Flag(false)
  {
    DefaultsDistinct();
    ToMapLookup(Defaults, 0);
    ToMapLookup(Defaults, 1);
    ToMapLookup(Defaults, 2);
    ToMapLookup(Defaults, 3);
    ToMapLookup(Defaults, 4);
    ToMapLookup(Defaults, 5);
    ToMapLookup(Defaults, 6);
    ToMapLookup(Defaults, 7);
    ToMapLookup(Defaults, 8);
    ToMapLookup(Defaults, 9);
  }

  /** Filling in the defaults keeps the value of every key already present,
      gives every absent default key its default value, and turns a
      well-formed dictionary into a complete well-formed one. */
  lemma MergeDefaults(s: map<string, Value>)
    ensures forall k :: k in s ==> k in DefaultMap() + s && (DefaultMap() + s)[k] == s[k]
    ensures forall k :: k in DefaultMap() && k !in s ==> (DefaultMap() + s)[k] == DefaultMap()[k]
    ensures WellFormed(s) ==> Complete(DefaultMap() + s) && WellFormed(DefaultMap() + s)
  {
    DefaultValues();
  }

  /** Filling in the defaults twice is filling them in once. */
  lemma MergeDefaultsIdempotent(s: map<string, Value>)
    ensures DefaultMap() + (DefaultMap() + s) == DefaultMap() + s
  {
  }

  /** After the session is wiped, filling in the defaults gives every key
      exactly its default value: the first screen, an empty group name, the
      first perspective, no answers, no vote, no reasoning, nothing saved and
      the solution locked. */
  lemma ResetThenInitGivesDefaults()
    ensures var s := DefaultMap() + map[];
      && s == DefaultMap()
      && Complete(s) && WellFormed(s)
      && s["step"] == Str("Fallakte") && s["group_name"] == Str("") && s["role"] == Str("Schulaufsicht")
      && s["checks_done"] == Flag(false) && s["mc_answers"] == Answers(map[]) && s["vote"] == Nil
      && s["reasoning"] == Str("") && s["timestamp"] == Nil && s["saved_payload"] == Nil
      && s["show_solution"] == Flag(false)
  {
    DefaultValues();
    MergeDefaults(map[]);
    assert DefaultMap() + map[] == DefaultMap();
  }

  /** Storing a valid payload together with its timestamp and unlocking
      the solution keeps a complete session well-formed. */
  lemma SaveKeepsWellFormed(s: map<string, Value>, timestamp: string, p: Payload)
    requires Complete(s) && WellFormed(s)
    requires p.caseId == CaseId && p.group != [] && p.role == s["role"].s
    requires s["vote"].Str? && p.vote == s["vote"] && p.timestamp == timestamp
    ensures var s' := s["timestamp" := Str(timestamp)]["saved_payload" := Record(p)]["show_solution" := Flag(true)];
      Complete(s') && WellFormed(s')
  {
    assert ValidPayload(p);
  }

  // ---------------------------------------------------------------------
  // The session

  class Session {
    /** The `group` parameter of the link this client opened ("" when the
        link has none); it is read on every run and never changes. */
    const groupId: string

    /** `st.session_state`. */
    var state: map<string, Value>

    /** The invariant between two runs of the script: every default key is
        present and well-formed. */
    ghost predicate Valid()
      reads this
    {
      Complete(state) && WellFormed(state)
    }

    /** A new connection: the session dictionary is empty. */
    constructor(groupId: string)
      ensures this.groupId == groupId && state == map[]
      ensures WellFormed(state)
    {
      this.groupId := groupId;
      state := map[];
    }

    /** `init_state`: adds each default whose key is absent, leaving present
        keys untouched. */
    method InitState()
      modifies this
      ensures state == DefaultMap() + old(state)
      ensures WellFormed(old(state)) ==> Valid()
    {
      for i := 0 to |Defaults|
        invariant state == ToMap(Defaults[..i]) + old(state)
      {
        var k, v := Defaults[i].0, Defaults[i].1;
        assert Defaults[..i + 1][..i] == Defaults[..i];
        NotAmongEarlierDefaults(i);
        if k !in state {
          state := state[k := v];
        }
      }
      assert Defaults[..|Defaults|] == Defaults;
      MergeDefaults(old(state));
    }

    /** The prefill after `init_state`: a link with a group id names a
        session whose group name is still empty "Gruppe <id>". */
    method PrefillGroup()
      requires Valid()
      modifies this
      ensures Valid()
      ensures old(state)["group_name"].s == [] && groupId != [] ==>
        state == old(state)["group_name" := Str("Gruppe " + groupId)]
      ensures old(state)["group_name"].s != [] || groupId == [] ==> state == old(state)
    {
      if groupId != [] && !Truthy(state["group_name"]) {
        state := state["group_name" := Str("Gruppe " + groupId)];
      }
    }

    /** The sidebar's name field: it is disabled when the link carries a
        group id, so then the name stays as it is. */
    method EnterGroupName(input: string)
      requires Valid()
      modifies this
      ensures Valid()
      ensures state == if groupId == [] then old(state)["group_name" := Str(input)] else old(state)
    {
      if groupId == [] {
        state := state["group_name" := Str(input)];
      }
    }

    /** The sidebar's perspective selector, which only offers the four roles. */
    method SelectRole(role: string)
      requires Valid() && role in Roles
      modifies this
      ensures Valid()
      ensures state == old(state)["role" := Str(role)]
    {
      state := state["role" := Str(role)];
    }

    /** The sidebar's navigation, which only offers the four screens. */
    method Navigate(step: string)
      requires Valid() && step in Steps
      modifies this
      ensures Valid()
      ensures state == old(state)["step" := Str(step)]
    {
      state := state["step" := Str(step)];
    }

    /** A checkpoint radio: stores the chosen option under the question's id. */
    method RecordAnswer(q: Checkpoints.Question, choice: nat)
      requires Valid() && q in Checkpoints.Questions && choice < q.optionCount
      modifies this
      ensures Valid()
      ensures state == old(state)["mc_answers" := Answers(old(state)["mc_answers"].m[q.id := choice])]
    {
      state := state["mc_answers" := Answers(state["mc_answers"].m[q.id := choice])];
    }

    /** The "evaluate" button of the checkpoints. */
    method MarkChecksDone()
      requires Valid()
      modifies this
      ensures Valid()
      ensures state == old(state)["checks_done" := Flag(true)]
    {
      state := state["checks_done" := Flag(true)];
    }

    /** The checkpoint result, shown only once the checks were evaluated:
        the number of fitting answers among the four questions, one feedback
        line per question in order, and whether the "on course" message
        (score at least three) is shown. */
    method ReportCheckpoints() returns (shown: bool, score: nat, lines: seq<Checkpoints.Line>, onCourse: bool)
      requires Valid()
      ensures shown <==> state["checks_done"] == Flag(true)
      ensures shown ==> score == Checkpoints.CorrectCount(Checkpoints.Questions, state["mc_answers"].m)
      ensures shown ==> |lines| == |Checkpoints.Questions|
      ensures shown ==> forall i :: 0 <= i < |lines| ==>
        lines[i] == Checkpoints.LineFor(Checkpoints.Questions[i], state["mc_answers"].m)
      ensures shown ==> (onCourse <==> score >= 3)
      ensures !shown ==> score == 0 && lines == [] && !onCourse
    {
      shown := state["checks_done"].b;
      score, lines, onCourse := 0, [], false;
      if shown {
        score, lines := Checkpoints.Evaluate(Checkpoints.Questions, state["mc_answers"].m);
        onCourse := Checkpoints.OnCourse(score);
      }
    }

    /** The preselected vote of the decision screen: the stored vote when
        one is set, else "Nein"; always one of the three answers. */
    function DefaultVote(): (v: string)
      reads this
      requires Valid()
      ensures v in Votes
      ensures Truthy(state["vote"]) ==> v == state["vote"].s
      ensures !Truthy(state["vote"]) ==> v == "Nein"
    {
      if Truthy(state["vote"]) then state["vote"].s else "Nein"
    }

    /** The vote radio of the decision screen. */
    method ChooseVote(choice: string)
      requires Valid() && choice in Votes
      modifies this
      ensures Valid()
      ensures state == old(state)["vote" := Str(choice)]
    {
      state := state["vote" := Str(choice)];
    }

    /** The reasoning text area of the decision screen. */
    method EditReasoning(text: string)
      requires Valid()
      modifies this
      ensures Valid()
      ensures state == old(state)["reasoning" := Str(text)]
    {
      state := state["reasoning" := Str(text)];
    }

    /** The save button: stamps the time, stores the payload (case id,
        resolved group name, current role, vote and reasoning, the same
        time) and unlocks the solution for this session. The button is on
        the decision screen only, below the vote radio, which has stored
        one of the three answers by the time the button is handled. */
    method Save(timestamp: string)
      requires Valid() && state["step"] == Str("Entscheidung") && state["vote"].Str?
      modifies this
      ensures Valid()
      ensures var p := Payload(CaseId, ResolveGroup(old(state)["group_name"].s, groupId),
                               old(state)["role"].s, old(state)["vote"],
                               old(state)["reasoning"].s, timestamp);
        state == old(state)["timestamp" := Str(timestamp)]["saved_payload" := Record(p)]["show_solution" := Flag(true)]
    {
      state := state["timestamp" := Str(timestamp)];
      var payload := Payload(CaseId, ResolveGroup(state["group_name"].s, groupId),
                             state["role"].s, state["vote"], state["reasoning"].s, timestamp);
      SaveKeepsWellFormed(old(state), timestamp, payload);
      state := state["saved_payload" := Record(payload)];
      state := state["show_solution" := Flag(true)];
    }

    /** One run of the decision screen: the vote radio stores the chosen
        answer, the text area the reasoning, the keyword feedback is
        computed from that reasoning, and when the save button was pressed
        the submission is saved with the given time. */
    method DecisionScreen(choice: string, text: string, pressed: bool, timestamp: string)
      returns (feedback: Option<StructureFeedback.Report>)
      requires Valid() && state["step"] == Str("Entscheidung") && choice in Votes
      modifies this
      ensures Valid()
      ensures feedback == StructureFeedback.Feedback(text)
      ensures !pressed ==> state == old(state)["vote" := Str(choice)]["reasoning" := Str(text)]
      ensures pressed ==>
        var p := Payload(CaseId, ResolveGroup(old(state)["group_name"].s, groupId),
                         old(state)["role"].s, Str(choice), text, timestamp);
        state == old(state)["vote" := Str(choice)]["reasoning" := Str(text)]
                           ["timestamp" := Str(timestamp)]["saved_payload" := Record(p)]["show_solution" := Flag(true)]
    {
      ChooseVote(choice);
      EditReasoning(text);
      feedback := StructureFeedback.Feedback(text);
      if pressed {
        Save(timestamp);
      }
    }

    /** The solution screen: locked until this session has saved; once
        unlocked it shows the model solution and the saved submission, whose
        timestamp is the stored one and whose group name is never empty. */
    function SolutionScreen(): (view: SolutionView)
      reads this
      requires Valid()
      ensures view.Revealed? <==> state["show_solution"] == Flag(true)
      ensures view.Revealed? ==> view.submission.Some?
      ensures view.Revealed? ==> view.submission.value.group != []
      ensures view.Revealed? ==> view.submission.value.vote.Str? && view.submission.value.vote.s in Votes
      ensures view.Revealed? ==> Str(view.submission.value.timestamp) == state["timestamp"]
    {
      if !Truthy(state["show_solution"]) then Locked
      else Revealed(SavedSubmission(state["saved_payload"]))
    }

    /** `reset_session`: deletes every key of the session dictionary. */
    method ResetSession()
      modifies this
      ensures state == map[]
      ensures WellFormed(state)
    {
      while state != map[]
        decreases |state.Keys|
      {
        var k :| k in state;
        state := state - {k};
      }
    }
  }

  /** A session opened through the link of group 7: after the first run's
      defaults and prefill, the group name is "Gruppe 7" and the solution is
      still locked. */
  method GroupLinkScenario()
  {
    var s := new Session("7");
    s.InitState();
    DefaultValues();
    assert s.state == DefaultMap();
    assert s.SolutionScreen() == Locked;
    s.PrefillGroup();
    assert s.state["group_name"] == Str("Gruppe 7");
  }

  /** Saving in a session named "Gruppe 7" stores that name as the group of
      the payload and unlocks the solution. */
  method SaveScenario(s: Session)
    requires s.Valid() && s.state["group_name"] == Str("Gruppe 7") && s.state["step"] == Str("Entscheidung")
    modifies s
  {
    StripTrimmed("Gruppe 7");
    var _ := s.DecisionScreen("Teilweise", "", true, "2026-01-01 10:00:00");
    assert s.state["saved_payload"].p.group == "Gruppe 7";
    assert s.state["saved_payload"].p.vote == Str("Teilweise");
    assert s.SolutionScreen().Revealed?;
  }

  /** Resetting an unlocked session and rerunning the script (which fills in
      the defaults again) locks the solution. */
  method ResetLocksScenario(s: Session)
    requires s.Valid() && s.state["show_solution"] == Flag(true)
    modifies s
  {
    s.ResetSession();
    s.InitState();
    DefaultValues();
    assert s.state == DefaultMap();
    assert s.SolutionScreen() == Locked;
  }
}
