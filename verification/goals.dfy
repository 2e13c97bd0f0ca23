/** Wellness goals: adding, toggling, deleting, and the active/completed
    split shown on the goals page and the dashboard. */
module Goals {
  import opened Outcomes
  import opened Records
  import Seqs

  /** A goal record; `created` is an uninterpreted timestamp and `category`
      is absent on goals the user adds. */
  datatype Goal = Goal(id: RecordId, text: string, completed: bool, created: int, category: Option<string>)

  /** `add_goal`: append an open goal whose id is the current list length. */
  function AddGoal(goals: seq<Goal>, text: string, now: int): (r: seq<Goal>)
    ensures |r| == |goals| + 1 && r[..|goals|] == goals
    ensures r[|goals|].id == Index(|goals|) && r[|goals|].text == text && !r[|goals|].completed
  {
    goals + [Goal(Index(|goals|), text, false, now, None)]
  }

  /** The goal with its completion flag negated. */
  function Flip(g: Goal): Goal {
    g.(completed := !g.completed)
  }

  /** `toggle_goal`: negate the completion flag of every goal whose id is
      `id`; ids need not be unique, so several goals may flip. */
  function ToggleGoal(goals: seq<Goal>, id: RecordId): (r: seq<Goal>)
    ensures |r| == |goals|
    ensures forall i :: 0 <= i < |goals| && goals[i].id == id ==>
      r[i].completed == !goals[i].completed && r[i] == Flip(goals[i])
    ensures forall i :: 0 <= i < |goals| && goals[i].id != id ==> r[i] == goals[i]
    ensures forall i :: 0 <= i < |goals| ==> r[i].id == goals[i].id && r[i].text == goals[i].text
  {
    if |goals| == 0 then []
    else [if goals[0].id == id then Flip(goals[0]) else goals[0]] + ToggleGoal(goals[1..], id)
  }

  /** Toggling twice restores the list. */
  lemma ToggleGoalTwice(goals: seq<Goal>, id: RecordId)
    ensures ToggleGoal(ToggleGoal(goals, id), id) == goals
  {
    var r := ToggleGoal(ToggleGoal(goals, id), id);
    assert forall i :: 0 <= i < |goals| ==> r[i] == goals[i];
  }

  /** Toggling an id no goal carries changes nothing. */
  lemma ToggleAbsentGoal(goals: seq<Goal>, id: RecordId)
    requires forall i :: 0 <= i < |goals| ==> goals[i].id != id
    ensures ToggleGoal(goals, id) == goals
  {
  }

  /** `delete_goal`: keep the goals whose id is not `id`, in order. */
  function DeleteGoal(goals: seq<Goal>, id: RecordId): (r: seq<Goal>)
    ensures forall g :: g in r <==> g in goals && g.id != id
    ensures |r| == |goals| - Seqs.Count(goals, (g: Goal) => g.id == id)
  {
    Seqs.FilterPartition(goals, (g: Goal) => g.id != id, (g: Goal) => g.id == id);
    Seqs.Filter(goals, (g: Goal) => g.id != id)
  }

  /** Deleting twice is deleting once. */
  lemma DeleteGoalIdempotent(goals: seq<Goal>, id: RecordId)
    ensures DeleteGoal(DeleteGoal(goals, id), id) == DeleteGoal(goals, id)
  {
    Seqs.FilterIdempotent(goals, (g: Goal) => g.id != id);
  }

  /** Deletion keeps the surviving goals in their original relative order:
      it acts on each part of a split list separately. */
  lemma DeleteGoalKeepsOrder(front: seq<Goal>, back: seq<Goal>, id: RecordId)
    ensures DeleteGoal(front + back, id) == DeleteGoal(front, id) + DeleteGoal(back, id)
  {
    Seqs.FilterConcat(front, back, (g: Goal) => g.id != id);
  }

  /** Deleting an id no goal carries changes nothing. */
  lemma DeleteAbsentGoal(goals: seq<Goal>, id: RecordId)
    requires forall i :: 0 <= i < |goals| ==> goals[i].id != id
    ensures DeleteGoal(goals, id) == goals
  {
    Seqs.FilterKeepsAll(goals, (g: Goal) => g.id != id);
  }

  /** The goals still open, in list order (the "Active Goals" section). */
  function ActiveGoals(goals: seq<Goal>): (r: seq<Goal>)
    ensures forall g :: g in r <==> g in goals && !g.completed
  {
    Seqs.Filter(goals, (g: Goal) => !g.completed)
  }

  /** The goals marked done, in list order (the "Completed Goals" section). */
  function CompletedGoals(goals: seq<Goal>): (r: seq<Goal>)
    ensures forall g :: g in r <==> g in goals && g.completed
  {
    Seqs.Filter(goals, (g: Goal) => g.completed)
  }

  /** The three figures of the progress summary. */
  datatype Summary = Summary(total: nat, completed: nat, active: nat)

  /** The progress summary: total, completed and active counts. The
      completed and active sections split the goal list between them. */
  function ProgressSummary(goals: seq<Goal>): (r: Summary)
    ensures r.total == |goals|
    ensures r.completed == |CompletedGoals(goals)| && r.active == |ActiveGoals(goals)|
    ensures r.completed + r.active == r.total
    ensures multiset(ActiveGoals(goals)) + multiset(CompletedGoals(goals)) == multiset(goals)
  {
    Seqs.FilterPartition(goals, (g: Goal) => !g.completed, (g: Goal) => g.completed);
    Summary(|goals|, |CompletedGoals(goals)|, |ActiveGoals(goals)|)
  }

  /** Adding a goal adds one to the total and one to the active count and
      leaves the completed count alone. */
  lemma AddGoalOpensOne(goals: seq<Goal>, text: string, now: int)
    ensures ProgressSummary(AddGoal(goals, text, now)) ==
      Summary(|goals| + 1, ProgressSummary(goals).completed, ProgressSummary(goals).active + 1)
  {
    var g := AddGoal(goals, text, now)[|goals|];
    assert AddGoal(goals, text, now) == goals + [g];
    Seqs.FilterConcat(goals, [g], (g: Goal) => !g.completed);
    Seqs.FilterConcat(goals, [g], (g: Goal) => g.completed);
  }

  /** The goals that carry `id`. */
  function WithId(goals: seq<Goal>, id: RecordId): seq<Goal> {
    Seqs.Filter(goals, (g: Goal) => g.id == id)
  }

  /** Toggling moves every goal carrying `id` to the other section: the
      completed count loses the matching completed goals and gains the
      matching open ones. */
  lemma {:induction false} ToggleShiftsCompleted(goals: seq<Goal>, id: RecordId)
    ensures |CompletedGoals(ToggleGoal(goals, id))| + |CompletedGoals(WithId(goals, id))|
         == |CompletedGoals(goals)| + |ActiveGoals(WithId(goals, id))|
  {
    if |goals| > 0 {
      var t := ToggleGoal(goals, id);
      assert t[1..] == ToggleGoal(goals[1..], id);
      ToggleShiftsCompleted(goals[1..], id);
      var w := WithId(goals, id);
      if goals[0].id == id {
        assert w[1..] == WithId(goals[1..], id);
      } else {
        assert w == WithId(goals[1..], id);
      }
    }
  }

  /** When only position `k` carries `id`, that goal is the only match. */
  lemma WithUniqueId(goals: seq<Goal>, id: RecordId, k: nat)
    requires k < |goals| && goals[k].id == id
    requires forall i :: 0 <= i < |goals| && i != k ==> goals[i].id != id
    ensures WithId(goals, id) == [goals[k]]
  {
    var keep := (g: Goal) => g.id == id;
    assert goals == goals[..k] + ([goals[k]] + goals[k + 1..]);
    Seqs.FilterConcat(goals[..k], [goals[k]] + goals[k + 1..], keep);
    Seqs.FilterConcat([goals[k]], goals[k + 1..], keep);
    Seqs.FilterDropsAll(goals[..k], keep);
    Seqs.FilterDropsAll(goals[k + 1..], keep);
  }

  /** With a unique id, toggling changes the completed count by exactly one. */
  lemma ToggleUniqueGoal(goals: seq<Goal>, id: RecordId, k: nat)
    requires k < |goals| && goals[k].id == id
    requires forall i :: 0 <= i < |goals| && i != k ==> goals[i].id != id
    ensures goals[k].completed ==> |CompletedGoals(ToggleGoal(goals, id))| + 1 == |CompletedGoals(goals)|
    ensures !goals[k].completed ==> |CompletedGoals(ToggleGoal(goals, id))| == |CompletedGoals(goals)| + 1
  {
    ToggleShiftsCompleted(goals, id);
    WithUniqueId(goals, id, k);
  }

  /** Ids from `add_goal` are not unique: after a deletion the next goal
      reuses the id of a goal still in the list, and toggling that id then
      flips both goals. */
  lemma AddAfterDeleteReusesId()
    ensures var before := AddGoal(AddGoal([], "walk", 0), "read", 0);
            var after := AddGoal(DeleteGoal(before, Index(0)), "call", 0);
            |after| == 2 && after[0].id == Index(1) && after[1].id == Index(1)
            && ToggleGoal(after, Index(1)) == [Flip(after[0]), Flip(after[1])]
  {
    var before := AddGoal(AddGoal([], "walk", 0), "read", 0);
    assert DeleteGoal(before, Index(0)) == [before[1]];
  }
}
