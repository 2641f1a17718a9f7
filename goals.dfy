/** The goals card, components/GoalsWidget.js: a list of goals edited with
    new arrays on every change. The clock that names a new goal is a parameter. */
module Goals {
  import opened Wrappers
  import opened Text
  import Seqs

  datatype Goal = Goal(id: int, text: string, completed: bool)

  /** The card's list and the text of the goal being typed. */
  datatype GoalsState = GoalsState(goals: seq<Goal>, newGoal: string)

  const DefaultGoals := [
    Goal(1, "Complete project documentation", false),
    Goal(2, "Schedule team meeting", true),
    Goal(3, "Prepare quarterly report", false)
  ]

  /** The list on opening: the saved one, or the three examples. */
  function InitialGoals(saved: Option<seq<Goal>>): (goals: seq<Goal>)
    ensures saved.Some? ==> goals == saved.value
    ensures saved.None? ==> |goals| == 3 && forall i :: 0 <= i < 3 ==> goals[i].id == i + 1
  {
    if saved.Some? then saved.value else DefaultGoals
  }

  predicate IsCompleted(g: Goal) { g.completed }

  /** `completedCount`. */
  function CompletedCount(goals: seq<Goal>): (n: nat)
    ensures n <= |goals|
  {
    Seqs.Count(goals, IsCompleted)
  }

  /** Exactly one of the examples is done. */
  lemma DefaultGoalsOneCompleted()
    ensures CompletedCount(InitialGoals(None)) == 1
  {
    var d := DefaultGoals;
    assert d[1..][1..][1..] == [];
    assert Seqs.Filter(d[1..][1..], IsCompleted) == [];
    assert Seqs.Filter(d[1..], IsCompleted) == [d[1]];
  }

  /** `addGoal`: a blank entry changes nothing; otherwise the entry, as
      typed, becomes a new open goal at the end and the entry is cleared. */
  function AddGoal(s: GoalsState, now: int): (r: GoalsState)
    ensures IsBlank(s.newGoal) ==> r == s
    ensures !IsBlank(s.newGoal) ==>
      && r.newGoal == ""
      && |r.goals| == |s.goals| + 1 && r.goals[..|s.goals|] == s.goals
      && r.goals[|s.goals|] == Goal(now, s.newGoal, false)
  {
    TrimEmptyIffBlank(s.newGoal);
    if Trim(s.newGoal) == "" then s
    else GoalsState(s.goals + [Goal(now, s.newGoal, false)], "")
  }

  /** `toggleGoal`: flips `completed` on the goals with that id. */
  function ToggleGoal(goals: seq<Goal>, id: int): (r: seq<Goal>)
    ensures |r| == |goals|
    ensures forall i :: 0 <= i < |r| ==>
      && r[i].id == goals[i].id && r[i].text == goals[i].text
      && (r[i].completed <==> (goals[i].completed != (goals[i].id == id)))
  {
    seq(|goals|, i requires 0 <= i < |goals| =>
      if goals[i].id == id then goals[i].(completed := !goals[i].completed) else goals[i])
  }

  /** Toggling twice restores the list. */
  lemma ToggleTwice(goals: seq<Goal>, id: int)
    ensures ToggleGoal(ToggleGoal(goals, id), id) == goals
  {
    var r := ToggleGoal(ToggleGoal(goals, id), id);
    assert forall i :: 0 <= i < |goals| ==> r[i] == goals[i];
  }

  predicate KeepsOther(id: int, g: Goal) { g.id != id }

  /** `deleteGoal`: every goal with that id goes, the others stay in order. */
  function DeleteGoal(goals: seq<Goal>, id: int): (r: seq<Goal>)
    ensures Seqs.IsSubseq(r, goals)
    ensures forall g :: g in r <==> g in goals && g.id != id
    ensures forall g :: multiset(r)[g] == if g.id != id then multiset(goals)[g] else 0
  {
    Seqs.FilterMultiplicity(goals, (g: Goal) => KeepsOther(id, g));
    Seqs.Filter(goals, (g: Goal) => KeepsOther(id, g))
  }

  /** Deleting a goal just added under a fresh id gives back the earlier list. */
  lemma DeleteUndoesAdd(s: GoalsState, now: int)
    requires !IsBlank(s.newGoal)
    requires forall g :: g in s.goals ==> g.id != now
    ensures DeleteGoal(AddGoal(s, now).goals, now) == s.goals
  {
    var added := Goal(now, s.newGoal, false);
    assert AddGoal(s, now).goals == s.goals + [added];
    var p := (g: Goal) => KeepsOther(now, g);
    Seqs.FilterAppend(s.goals, [added], p);
    Seqs.FilterAll(s.goals, p);
    assert Seqs.Filter([added], p) == [];
  }
}
