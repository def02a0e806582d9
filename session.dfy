/**
 * The web back end's session: one in-memory record of the collected answers
 * and the current step, read by `get_questions` and advanced by
 * `submit_answers`.
 */
module WebSession {
  import opened Wrappers
  import opened JsonValue
  import opened Workflow

  /** The reply of `get_questions`. */
  datatype Questions = Questions(questions: seq<string>, variables: seq<string>, next: Option<string>)

  /** The reply of `submit_answers`: the workflow has no valid candidate, or it moved on. */
  datatype Submitted = Completed | Saved(next: Option<string>)

  /** The session record, with the state table and the prompt services it works against. */
  class Session {
    const states: map<string, seq<State>>
    const env: Oracles
    var userData: map<string, Json>
    var current: Option<string>

    /** The server starts with no answers at step `q1`. */
    constructor(states: map<string, seq<State>>, env: Oracles)
      ensures this.states == states && this.env == env
      ensures userData == map[] && current == Some("q1")
    {
      this.states := states;
      this.env := env;
      userData := map[];
      current := Some("q1");
    }

    /**
     * The questions, variables and next step of the first valid candidate of
     * the current step; empty lists and no next step when none is valid.
     * The session is only read.
     */
    method GetQuestions() returns (r: Result<Questions>)
      ensures match Select(Candidates(states, current), userData)
        case Raised(e) => r == Raised(e)
        case Ok(None) => r == Ok(Questions([], [], None))
        case Ok(Some(s)) => r == Ok(Questions(s.questions, s.variables, s.nextState))
    {
      var selected := Select(Candidates(states, current), userData);
      match selected
      case Raised(e) => r := Raised(e);
      case Ok(None) => r := Ok(Questions([], [], None));
      case Ok(Some(s)) => r := Ok(Questions(s.questions, s.variables, s.nextState));
    }

    /**
     * Merge the submitted answers into the session, submitted keys winning,
     * then select a candidate on the merged answers. With none valid the step
     * is left as it is and the workflow reports completion; otherwise the
     * candidate's prompt actions run and the session moves to its next step.
     * Variable actions are not applied on this path.
     */
    method SubmitAnswers(answers: map<string, Json>) returns (r: Result<Submitted>)
      modifies this
      ensures var merged := old(userData) + answers;
        match Select(Candidates(states, old(current)), merged)
        case Raised(e) => r == Raised(e) && userData == merged && current == old(current)
        case Ok(None) => r == Ok(Completed) && userData == merged && current == old(current)
        case Ok(Some(s)) =>
          r == Ok(Saved(s.nextState)) && current == s.nextState
          && userData == PromptsFrom(merged, s, 0, env, true)
    {
      userData := userData + answers;
      var selected := Select(Candidates(states, current), userData);
      match selected
      case Raised(e) =>
        r := Raised(e);
      case Ok(None) =>
        r := Ok(Completed);
      case Ok(Some(s)) =>
        userData := RunPromptActions(userData, s, env, true);
        current := s.nextState;
        r := Ok(Saved(current));
    }

    /**
     * `restart` as written: it rebinds module-level names that the session
     * does not use, so the session record is left as it is.
     */
    method Restart() returns (message: string)
      ensures message == "Form restarted"
    {
      message := "Form restarted";
    }

    /** What `restart` is meant to do: clear the answers and go back to `q1`. */
    method Reset() returns (message: string)
      modifies this
      ensures message == "Form restarted"
      ensures userData == map[] && current == Some("q1")
    {
      userData := map[];
      current := Some("q1");
      message := "Form restarted";
    }
  }

  /**
   * After a restart a session that had progressed still has its answers
   * and its step: the form is not restarted.
   */
  method RestartKeepsSession(session: Session) returns (keptAnswers: map<string, Json>, keptStep: Option<string>)
    requires session.userData != map[] || session.current != Some("q1")
    ensures keptAnswers == session.userData && keptStep == session.current
    ensures keptAnswers != map[] || keptStep != Some("q1")
  {
    var _ := session.Restart();
    keptAnswers := session.userData;
    keptStep := session.current;
  }

  /**
   * Apart from the submitted keys and the prompt fields of the selected
   * candidate, a submission leaves the answers as they were.
   */
  lemma SubmitFrame(data: map<string, Json>, answers: map<string, Json>, s: State, env: Oracles, key: string)
    requires key !in answers && key !in s.promptFields
    ensures var after := PromptsFrom(data + answers, s, 0, env, true);
      (key in after <==> key in data) && (key in data ==> after[key] == data[key])
  {
    PromptsFrame(data + answers, s, 0, env, true, key);
  }

  /**
   * Answers are merged before the guards are read: a submitted affirmative
   * answer turns a guard that was false on the stored answers into a true one.
   */
  lemma SubmittedAnswerDecides(data: map<string, Json>, answers: map<string, Json>, x: string)
    requires x != [] && x[0] != '!' && x !in data
    requires x in answers && answers[x].JStr? && Affirmative(Normalized(answers[x].str))
    ensures EvaluateCondition(Some(x), data) == Ok(false)
    ensures EvaluateCondition(Some(x), data + answers) == Ok(true)
  {
    ConditionAbsentKey(x, data);
    ConditionReadings(x, data + answers);
  }
}
