/** The tracker component's state and its event handlers. Each state slice the component
    keeps with a state hook is a field; each handler replaces the slices it sets with the
    value its reducer computes, and touches no other field. */
module Tracker {
  import opened Bands
  import opened Progress

  /** The seconds the speaking Part 2 preparation timer starts from. */
  const Part2Seconds := 60

  /** The seconds the mock test timer shows initially and after a reset. */
  const MockTestSeconds := 120

  /** The target bands offered by the selector, 6 to 9 in halves, in quarters. */
  const TargetChoices: set<int> := {24, 26, 28, 30, 32, 34, 36}

  class AppState {
    var name: string
    var targetBand: int
    var tasks: seq<Task>
    var assessment: Assessment
    var history: seq<Snapshot>
    var favs: seq<int>
    var writingTasks: seq<WritingTask>
    var secondsLeft: int
    var timerRunning: bool

    /** The target band is never the falsy 0, and a running timer has time left. */
    ghost predicate Valid()
      reads this
    {
      targetBand != 0 && (timerRunning ==> secondsLeft > 0)
    }

    /** The six slices that are persisted, exported and imported. */
    function Persisted(): Payload
      reads this
    {
      Payload(name, targetBand, tasks, assessment, history, favs)
    }

    /** Starts from the stored slices: each one that is missing, unreadable or falsy
        falls back to its default, exactly as an import into the default state. */
    constructor (stored: Document)
      ensures Valid()
      ensures Persisted() == Merge(DefaultPayload(), Some(stored))
      ensures writingTasks == [] && secondsLeft == MockTestSeconds && !timerRunning
    {
      var p := Merge(DefaultPayload(), Some(stored));
      name, targetBand, tasks, assessment, history, favs := p.name, p.targetBand, p.tasks, p.assessment, p.history, p.favTips;
      writingTasks := [];
      secondsLeft := MockTestSeconds;
      timerRunning := false;
    }

    method AddTask(input: string, id: int, createdAt: string)
      modifies this`tasks
      ensures tasks == AddedTask(old(tasks), input, id, createdAt)
    {
      var text := Trim(input);
      if text == [] {
        return;
      }
      tasks := [Task(id, text, false, createdAt)] + tasks;
    }

    method ToggleTask(id: int)
      modifies this`tasks
      ensures tasks == Toggled(old(tasks), id)
    {
      tasks := Toggled(tasks, id);
    }

    method RemoveTask(id: int)
      modifies this`tasks
      ensures tasks == Removed(old(tasks), id)
    {
      tasks := Removed(tasks, id);
    }

    /** A rating slider of one skill moved to q quarters: sliders exist for the skill's
        criteria and for any other key an imported entry holds, and range over [0, 9]. */
    method UpdateRating(s: Skill, c: string, q: int)
      requires (c in Weights(s) || (s in assessment && c in assessment[s])) && 0 <= q <= MaxQuarters
      modifies this`assessment
      ensures assessment == WithRating(old(assessment), s, c, q)
      ensures WellFormed(old(assessment)) ==> WellFormed(assessment)
    {
      if WellFormed(assessment) {
        RatingPreservesWellFormed(assessment, s, c, q);
      }
      assessment := WithRating(assessment, s, c, q);
    }

    /** The bands shown on every render: the four skill estimates and their capped mean. */
    method CurrentBands() returns (speaking: int, listening: int, reading: int, writing: int, overall: int)
      requires AllKeysKnown(assessment)
      ensures speaking == SkillBand(Speaking, assessment) && listening == SkillBand(Listening, assessment)
      ensures reading == SkillBand(Reading, assessment) && writing == SkillBand(Writing, assessment)
      ensures overall == Overall(assessment)
    {
      speaking := EstimateOverallBand(Speaking, assessment);
      listening := EstimateOverallBand(Listening, assessment);
      reading := EstimateOverallBand(Reading, assessment);
      writing := EstimateOverallBand(Writing, assessment);
      overall := OverallBand(speaking, listening, reading, writing);
    }

    /** Freezes the current bands under the given calendar date in front of the history. */
    method SaveAssessmentSnapshot(date: string)
      requires AllKeysKnown(assessment)
      modifies this`history
      ensures history == SavedHistory(old(history), TakeSnapshot(assessment, date))
    {
      var speaking, listening, reading, writing, overall := CurrentBands();
      var snap := Snapshot(date, speaking, listening, reading, writing, overall);
      history := SavedHistory(history, snap);
    }

    method MarkTipFav(id: int)
      modifies this`favs
      ensures favs == FavToggled(old(favs), id)
    {
      favs := FavToggled(favs, id);
    }

    method AddWritingTask(input: string, id: int, createdAt: string)
      modifies this`writingTasks
      ensures writingTasks == AddedWritingTask(old(writingTasks), input, id, createdAt)
    {
      writingTasks := AddedWritingTask(writingTasks, input, id, createdAt);
    }

    method UpdateWritingResponse(id: int, response: string)
      modifies this`writingTasks
      ensures writingTasks == UpdatedResponse(old(writingTasks), id, response)
    {
      writingTasks := UpdatedResponse(writingTasks, id, response);
    }

    method SetName(n: string)
      modifies this`name
      ensures name == n
    {
      name := n;
    }

    method SetTargetBand(b: int)
      requires Valid() && b in TargetChoices
      modifies this`targetBand
      ensures Valid() && targetBand == b
    {
      targetBand := b;
    }

    /** Applies an already-parsed document; None stands for text that does not parse or
        that parses to null, reported as a failure with nothing changed. */
    method ImportProgress(doc: Option<Document>) returns (ok: bool)
      requires Valid()
      modifies this`name, this`targetBand, this`tasks, this`assessment, this`history, this`favs
      ensures Valid()
      ensures ok <==> doc.Some?
      ensures Persisted() == Merge(old(Persisted()), doc)
    {
      if doc.None? {
        return false;
      }
      var d := doc.value;
      if NameTruthy(d) { name := d.name.value; }
      if TargetTruthy(d) { targetBand := d.targetBand.value; }
      if d.tasks.Some? { tasks := d.tasks.value; }
      if d.assessment.Some? { assessment := d.assessment.value; }
      if d.history.Some? { history := d.history.value; }
      if d.favTips.Some? { favs := d.favTips.value; }
      ok := true;
    }

    /** Resets the persisted slices to their defaults once the user confirms; the writing
        tasks and the timer are kept. */
    method ClearAll(confirmed: bool)
      requires Valid()
      modifies this`name, this`targetBand, this`tasks, this`assessment, this`history, this`favs
      ensures Valid()
      ensures Persisted() == if confirmed then DefaultPayload() else old(Persisted())
    {
      if !confirmed {
        return;
      }
      name := "";
      targetBand := 34;
      tasks := [];
      assessment := DefaultAssessment();
      history := [];
      favs := [];
    }

    method StartPart2()
      requires Valid()
      modifies this`secondsLeft, this`timerRunning
      ensures Valid()
      ensures secondsLeft == Part2Seconds && timerRunning
    {
      secondsLeft := Part2Seconds;
      timerRunning := true;
    }

    method StopTimer()
      requires Valid()
      modifies this`timerRunning
      ensures Valid() && !timerRunning
    {
      timerRunning := false;
    }

    method ResetTimer()
      requires Valid()
      modifies this`secondsLeft
      ensures Valid() && secondsLeft == MockTestSeconds
    {
      secondsLeft := MockTestSeconds;
    }

    /** One second of a running timer; a stopped timer has no interval and nothing
        happens. */
    method TimerTick()
      requires Valid()
      modifies this`secondsLeft, this`timerRunning
      ensures Valid()
      ensures (secondsLeft, timerRunning) == if old(timerRunning) then Tick(old(secondsLeft)) else (old(secondsLeft), false)
    {
      if timerRunning {
        var next := Tick(secondsLeft);
        secondsLeft, timerRunning := next.0, next.1;
      }
    }
  }
}
