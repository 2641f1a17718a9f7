/** The client-side store of working-hour records, context/workingHours.js.
    The state is the object `{ workingHours }`, whose list starts out `null`. */
module WorkingHoursReducer {
  import opened Wrappers
  import Seqs
  import Durations

  /** A working-hour (sleep) record as the client holds it: its `_id` and
      its `duration` in minutes. */
  datatype WorkingHour = WorkingHour(id: nat, duration: int)

  datatype State = State(workingHours: Option<seq<WorkingHour>>)

  /** `{ workingHours: null }`, the provider's initial state. */
  const Initial := State(None)

  datatype Action =
    | SetWorkingHours(list: Option<seq<WorkingHour>>)
    | CreateWorkingHour(record: WorkingHour)
    | UpdateWorkingHour(list: Option<seq<WorkingHour>>)
    | DeleteWorkingHour(record: WorkingHour)
    | Unknown(kind: string)

  /** The reducer either yields the next state or throws a `TypeError`
      (spreading or filtering a `null` list). */
  datatype Outcome = Next(state: State) | TypeError

  predicate KeepsOtherIds(id: nat, w: WorkingHour) {
    w.id != id
  }

  /** `workingHoursReducer`. */
  function Reduce(s: State, action: Action): (r: Outcome)
    ensures action.SetWorkingHours? ==> r == Next(State(action.list))
    ensures action.UpdateWorkingHour? ==> r == Next(State(action.list))
    ensures action.Unknown? ==> r == Next(s)
    ensures (action.CreateWorkingHour? || action.DeleteWorkingHour?) ==>
      (r.TypeError? <==> s.workingHours.None?)
    ensures action.CreateWorkingHour? && s.workingHours.Some? ==>
      r.Next? && r.state.workingHours.Some? &&
      var l := r.state.workingHours.value;
      |l| == |s.workingHours.value| + 1 && l[0] == action.record && l[1..] == s.workingHours.value
    ensures action.DeleteWorkingHour? && s.workingHours.Some? ==>
      r.Next? && r.state.workingHours.Some? &&
      var l := r.state.workingHours.value;
      && Seqs.IsSubseq(l, s.workingHours.value)
      && (forall w :: w in l <==> w in s.workingHours.value && w.id != action.record.id)
      && forall w :: multiset(l)[w] == if w.id != action.record.id then multiset(s.workingHours.value)[w] else 0
  {
    match action
    case SetWorkingHours(list) => Next(State(list))
    case CreateWorkingHour(record) =>
      if s.workingHours.None? then TypeError
      else Next(State(Some([record] + s.workingHours.value)))
    case UpdateWorkingHour(list) => Next(State(list))
    case DeleteWorkingHour(record) =>
      if s.workingHours.None? then TypeError
      else
        Seqs.FilterMultiplicity(s.workingHours.value, w => KeepsOtherIds(record.id, w));
        Next(State(Some(Seqs.Filter(s.workingHours.value, w => KeepsOtherIds(record.id, w)))))
    case Unknown(_) => Next(s)
  }

  /** Deleting the same record twice is deleting it once. */
  lemma DeleteIdempotent(s: State, record: WorkingHour)
    requires s.workingHours.Some?
    ensures Reduce(Reduce(s, DeleteWorkingHour(record)).state, DeleteWorkingHour(record))
         == Reduce(s, DeleteWorkingHour(record))
  {
    Seqs.FilterIdempotent(s.workingHours.value, w => KeepsOtherIds(record.id, w));
  }

  /** Creating a record whose id is new and then deleting it gives back the list. */
  lemma {:induction false} DeleteUndoesCreate(s: State, record: WorkingHour)
    requires s.workingHours.Some?
    requires forall w :: w in s.workingHours.value ==> w.id != record.id
    ensures Reduce(Reduce(s, CreateWorkingHour(record)).state, DeleteWorkingHour(record)) == Next(s)
  {
    var l := s.workingHours.value;
    var p := (w: WorkingHour) => KeepsOtherIds(record.id, w);
    Seqs.FilterAppend([record], l, p);
    assert Seqs.Filter([record], p) == [] by {
      assert [record][1..] == [];
    }
    Seqs.FilterAll(l, p);
  }

  function DurationsOf(l: seq<WorkingHour>): (d: seq<int>)
    ensures |d| == |l| && forall i :: 0 <= i < |l| ==> d[i] == l[i].duration
  {
    seq(|l|, i requires 0 <= i < |l| => l[i].duration)
  }

  /** The statistics of the screens over the list held in the store. */
  function StatsOf(s: State): Durations.Stats {
    Durations.CalculateStats(if s.workingHours.None? then None else Some(DurationsOf(s.workingHours.value)))
  }

  /** After CREATE_WORKING_HOUR the statistics count one record more and
      their total grows by its duration. */
  lemma StatsAfterCreate(s: State, record: WorkingHour)
    requires s.workingHours.Some?
    ensures var after := Reduce(s, CreateWorkingHour(record)).state;
      && StatsOf(after).count == |s.workingHours.value| + 1
      && StatsOf(after).total == StatsOf(s).total + record.duration
  {
    var l := s.workingHours.value;
    assert DurationsOf([record] + l) == [record.duration] + DurationsOf(l);
    Seqs.SumPrepend(record.duration, DurationsOf(l));
  }
}
