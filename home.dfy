/** The home screen, pages/Home.js: the task counts by status and the
    date line. The clock enters as the fields `Date` would report. */
module Home {
  import opened Wrappers
  import opened Text
  import opened Pages
  import Seqs
  import TaskPage

  type TaskView = TaskPage.TaskView

  datatype TaskStats = TaskStats(pending: nat, inProgress: nat, completed: nat) {
    function Total(): nat { pending + inProgress + completed }
  }

  /** The counts before any fetch. */
  const Zero := TaskStats(0, 0, 0)

  predicate KnownStatus(status: string) {
    status == "pending" || status == "in-progress" || status == "completed"
  }

  /** `data.filter(task => task.status === status).length`. */
  function CountStatus(tasks: seq<TaskView>, status: string): (n: nat)
    ensures n <= |tasks|
  {
    Seqs.Count(tasks, (t: TaskView) => t.status == status)
  }

  /** The three counts of the home screen. */
  function ComputeStats(tasks: seq<TaskView>): (st: TaskStats)
    ensures st.pending <= |tasks| && st.inProgress <= |tasks| && st.completed <= |tasks|
  {
    TaskStats(CountStatus(tasks, "pending"), CountStatus(tasks, "in-progress"), CountStatus(tasks, "completed"))
  }

  lemma CountStatusCons(t: TaskView, rest: seq<TaskView>, status: string)
    ensures CountStatus([t] + rest, status) == (if t.status == status then 1 else 0) + CountStatus(rest, status)
  {
    assert ([t] + rest)[1..] == rest;
  }

  /** Each task is counted at most once, so the counts add up to at most the
      number of tasks, and to exactly that number when every status is one
      of the three. */
  lemma {:induction false} StatsTotal(tasks: seq<TaskView>)
    ensures ComputeStats(tasks).Total() <= |tasks|
    ensures ComputeStats(tasks).Total() == |tasks| <==> forall t :: t in tasks ==> KnownStatus(t.status)
  {
    if tasks != [] {
      var t, rest := tasks[0], tasks[1..];
      assert tasks == [t] + rest;
      StatsTotal(rest);
      CountStatusCons(t, rest, "pending");
      CountStatusCons(t, rest, "in-progress");
      CountStatusCons(t, rest, "completed");
      assert "pending"[0] != "in-progress"[0] && "pending"[0] != "completed"[0] && "in-progress"[0] != "completed"[0];
      if forall u :: u in tasks ==> KnownStatus(u.status) {
        assert ComputeStats(tasks).Total() == |tasks|;
      } else if !KnownStatus(t.status) {
        assert ComputeStats(tasks).Total() < |tasks|;
      } else {
        assert !(forall u :: u in rest ==> KnownStatus(u.status));
        assert ComputeStats(tasks).Total() < |tasks|;
      }
    }
  }

  /** What `response.data` turned out to be. */
  datatype TasksData = TaskArray(tasks: seq<TaskView>) | NotAnArray

  /** The counts after a fetch: recomputed only from an array; any other
      data, or a failed request, leaves the counts as they were. */
  function NextStats(current: TaskStats, answer: Answer<TasksData>): (st: TaskStats)
    ensures answer.Answered? && answer.data.TaskArray? ==> st == ComputeStats(answer.data.tasks)
    ensures !(answer.Answered? && answer.data.TaskArray?) ==> st == current
  {
    if answer.Answered? && answer.data.TaskArray? then ComputeStats(answer.data.tasks) else current
  }

  const Days := ["Sunday", "Monday", "Tuesday", "Wednesday", "Thursday", "Friday", "Saturday"]
  const Months := ["January", "February", "March", "April", "May", "June", "July",
                   "August", "September", "October", "November", "December"]

  /** `formatDate`: "<Day>, <Month> <d>, <yyyy>" from the weekday (0 is
      Sunday), the month (0 is January), the day of the month and the year. */
  function FormatDate(weekday: nat, month: nat, day: nat, year: int): (s: string)
    requires weekday < 7 && month < 12
    ensures Days[weekday] <= s
  {
    Days[weekday] + ", " + Months[month] + " " + NatToString(day) + ", " + IntToString(year)
  }

  /** Reads a date line back; `None` for anything else. */
  function ParseDate(s: string): Option<(nat, nat, nat, int)> {
    ParseDateWords(Split(s, ' '))
  }

  /** The date line's four words: "<Day>," "<Month>" "<d>," "<yyyy>". */
  function ParseDateWords(words: seq<string>): Option<(nat, nat, nat, int)> {
    if |words| != 4 then None
    else match (StripComma(words[0]), StripComma(words[2]))
      case (Some(dayName), Some(dayText)) =>
        (match (NameIndex(Days, dayName), NameIndex(Months, words[1]), ParseNat(dayText), ParseInt(words[3]))
         case (Some(w), Some(m), Some(d), Some(y)) => Some((w, m, d, y))
         case _ => None)
      case _ => None
  }

  /** A word with its trailing comma removed; `None` when it has none. */
  function StripComma(w: string): Option<string> {
    if |w| > 0 && w[|w| - 1] == ',' then Some(w[..|w| - 1]) else None
  }

  /** The position of a name in a list of names; `None` when it is not one. */
  function NameIndex(names: seq<string>, w: string): Option<nat> {
    if w in names then Some(Seqs.FirstIndex(names, w)) else None
  }

  lemma StripCommaAppended(w: string)
    ensures StripComma(w + [',']) == Some(w)
  {
    assert (w + [','])[..|w|] == w;
  }

  lemma DaysDistinct()
    ensures Seqs.NoDuplicates(Days)
    ensures forall i :: 0 <= i < |Days| ==> ' ' !in Days[i]
  {
  }

  lemma MonthsDistinct()
    ensures Seqs.NoDuplicates(Months)
    ensures forall i :: 0 <= i < |Months| ==> ' ' !in Months[i]
  {
  }

  lemma NameIndexOf(names: seq<string>, i: nat)
    requires Seqs.NoDuplicates(names) && i < |names|
    ensures NameIndex(names, names[i]) == Some(i)
  {
  }

  lemma {:induction false} DateWords(a: string, b: string, c: string, d: string)
    requires ' ' !in a && ' ' !in b && ' ' !in c && ' ' !in d
    ensures Split(a + [' '] + b + [' '] + c + [' '] + d, ' ') == [a, b, c, d]
  {
    var third := c + [' '] + d;
    var second := b + [' '] + third;
    assert a + [' '] + b + [' '] + c + [' '] + d == a + [' '] + second;
    SplitWithoutSeparator(d, ' ');
    SplitAt(c, ' ', d);
    SplitAt(b, ' ', third);
    SplitAt(a, ' ', second);
  }

  lemma FormatDateWords(weekday: nat, month: nat, day: nat, year: int)
    requires weekday < 7 && month < 12
    ensures Split(FormatDate(weekday, month, day, year), ' ')
         == [Days[weekday] + [','], Months[month], NatToString(day) + [','], IntToString(year)]
  {
    DaysDistinct();
    MonthsDistinct();
    var a := Days[weekday] + [','];
    var b := Months[month];
    var c := NatToString(day) + [','];
    var d := IntToString(year);
    DigitsHaveNoSpace(NatToString(day));
    IntToStringHasNoSeparator(year, ' ');
    assert FormatDate(weekday, month, day, year) == a + [' '] + b + [' '] + c + [' '] + d;
    DateWords(a, b, c, d);
  }

  /** The four words of a date line read back as the fields they were made from. */
  lemma DateWordsRoundTrip(weekday: nat, month: nat, day: nat, year: int)
    requires weekday < 7 && month < 12
    ensures ParseDateWords([Days[weekday] + [','], Months[month], NatToString(day) + [','], IntToString(year)])
         == Some((weekday, month, day, year))
  {
    DaysDistinct();
    MonthsDistinct();
    StripCommaAppended(Days[weekday]);
    StripCommaAppended(NatToString(day));
    NameIndexOf(Days, weekday);
    NameIndexOf(Months, month);
    ParseNatToString(day);
    IntToStringRoundTrip(year);
  }

  /** The date line names the weekday, month, day and year it was made from. */
  lemma {:induction false} FormatDateRoundTrip(weekday: nat, month: nat, day: nat, year: int)
    requires weekday < 7 && month < 12
    ensures ParseDate(FormatDate(weekday, month, day, year)) == Some((weekday, month, day, year))
  {
    FormatDateWords(weekday, month, day, year);
    DateWordsRoundTrip(weekday, month, day, year);
  }
}
