/** The edit dialog of a working-hours record, components/sleeps/Edit.js.
    The two datetime inputs enter as whole-minute timestamps, `None` for an
    empty field; the duration preview and the update request are modelled. */
module SleepEdit {
  import opened Wrappers
  import opened Text
  import opened Durations
  import opened Session
  import opened Pages
  import WorkingHoursReducer

  type WorkingHour = WorkingHoursReducer.WorkingHour

  const WakeBeforeSleep := "Please ensure wake time is after sleep time"

  /** `calculateDuration`: the whole minutes from sleep to wake as
      "<h> hours and <m> minutes", or a warning when wake comes first. */
  function CalculateDuration(sleep: int, wake: int): (r: string)
    ensures wake < sleep <==> r == WakeBeforeSleep
  {
    if wake < sleep then WakeBeforeSleep
    else
      var hm := SplitDuration(wake - sleep);
      var text := NatToString(hm.hours) + " hours and " + NatToString(hm.minutes) + " minutes";
      assert text[0] == NatToString(hm.hours)[0] && IsDigit(text[0]);
      text
  }

  /** Reads "<h> hours and <m> minutes" back as 60 * h + m minutes. */
  function ParseSpelledDuration(s: string): Option<nat> {
    var words := Split(s, ' ');
    if |words| == 5 && words[1] == "hours" && words[2] == "and" && words[4] == "minutes" then
      match (ParseNat(words[0]), ParseNat(words[3]))
      case (Some(h), Some(m)) => Some(60 * h + m)
      case _ => None
    else None
  }

  /** The words of a spelled duration are the two numerals and the three fixed words. */
  lemma {:induction false} SpelledWords(h: string, m: string)
    requires ' ' !in h && ' ' !in m
    ensures Split(h + " hours and " + m + " minutes", ' ') == [h, "hours", "and", m, "minutes"]
  {
    var hours, and, minutes := "hours", "and", "minutes";
    assert ' ' !in hours && ' ' !in and && ' ' !in minutes;
    assert h + " hours and " + m + " minutes" == h + [' '] + hours + [' '] + and + [' '] + m + [' '] + minutes;
    FiveWords(h, hours, and, m, minutes);
  }

  /** Five words without spaces, joined by single spaces, split back into those words. */
  lemma {:induction false} FiveWords(a: string, b: string, c: string, d: string, e: string)
    requires ' ' !in a && ' ' !in b && ' ' !in c && ' ' !in d && ' ' !in e
    ensures Split(a + [' '] + b + [' '] + c + [' '] + d + [' '] + e, ' ') == [a, b, c, d, e]
  {
    var fourth := d + [' '] + e;
    var third := c + [' '] + fourth;
    var second := b + [' '] + third;
    assert a + [' '] + b + [' '] + c + [' '] + d + [' '] + e == a + [' '] + second;
    SplitWithoutSeparator(e, ' ');
    SplitAt(d, ' ', e);
    SplitAt(c, ' ', fourth);
    SplitAt(b, ' ', third);
    SplitAt(a, ' ', second);
  }

  /** When wake is not before sleep the preview names exactly the minutes in between. */
  lemma {:induction false} CalculateDurationRoundTrip(sleep: int, wake: int)
    requires sleep <= wake
    ensures ParseSpelledDuration(CalculateDuration(sleep, wake)) == Some(wake - sleep)
  {
    var hm := SplitDuration(wake - sleep);
    var h, m := NatToString(hm.hours), NatToString(hm.minutes);
    DigitsHaveNoSpace(h);
    DigitsHaveNoSpace(m);
    ParseNatToString(hm.hours);
    ParseNatToString(hm.minutes);
    SpelledWords(h, m);
  }

  /** The requests the dialog sends. */
  datatype EditRequest = PatchSleep(id: nat, sleep: int, wake: int) | RefetchSleeps

  /** The dialog of one record, with its state. */
  class EditDialog {
    const recordId: nat
    const recordSleep: int
    const recordWake: int
    var error: Option<string>
    var show: bool
    var isLoading: bool
    var previewDuration: string

    constructor (id: nat, sleep: int, wake: int)
      ensures recordId == id && recordSleep == sleep && recordWake == wake
      ensures error.None? && !show && !isLoading && previewDuration == ""
    {
      recordId, recordSleep, recordWake := id, sleep, wake;
      error, show, isLoading, previewDuration := None, false, false, "";
    }

    /** `handleShow`: opens the dialog with no error and the stored record's duration. */
    method HandleShow()
      modifies this
      ensures show && error.None? && isLoading == old(isLoading)
      ensures previewDuration == CalculateDuration(recordSleep, recordWake)
    {
      show := true;
      error := None;
      previewDuration := CalculateDuration(recordSleep, recordWake);
    }

    /** `updatePreview`: recomputed only when both fields are filled in. */
    method UpdatePreview(sleepIn: Option<int>, wakeIn: Option<int>)
      modifies this
      ensures sleepIn.Some? && wakeIn.Some? ==> previewDuration == CalculateDuration(sleepIn.value, wakeIn.value)
      ensures sleepIn.None? || wakeIn.None? ==> previewDuration == old(previewDuration)
      ensures error == old(error) && show == old(show) && isLoading == old(isLoading)
    {
      if sleepIn.Some? && wakeIn.Some? {
        previewDuration := CalculateDuration(sleepIn.value, wakeIn.value);
      }
    }

    /** `handleUpdate`: an empty field, or wake strictly before sleep, is
        refused without a request; otherwise the record is patched and the
        whole list fetched again to replace the store's list. Either failure
        shows the server's message or a default. */
    method HandleUpdate(session: ClientSession, sleepIn: Option<int>, wakeIn: Option<int>,
                        patchAnswer: Answer<()>, listAnswer: Answer<Option<seq<WorkingHour>>>)
      returns (sent: seq<EditRequest>)
      modifies this, session
      ensures session.auth == old(session.auth) && session.events == old(session.events)
      ensures isLoading == (if sent == [] then old(isLoading) else false)
      ensures sleepIn.None? || wakeIn.None? ==>
        && sent == [] && error == Some("Both sleep and wake times are required")
        && show == old(show) && session.workingHours == old(session.workingHours)
      ensures sleepIn.Some? && wakeIn.Some? && wakeIn.value < sleepIn.value ==>
        && sent == [] && error == Some("Wake time must be after sleep time")
        && show == old(show) && session.workingHours == old(session.workingHours)
      ensures sleepIn.Some? && wakeIn.Some? && sleepIn.value <= wakeIn.value ==>
        && |sent| >= 1 && sent[0] == PatchSleep(recordId, sleepIn.value, wakeIn.value)
        && (sent == [PatchSleep(recordId, sleepIn.value, wakeIn.value), RefetchSleeps] <==> patchAnswer.Answered?)
      ensures sent != [] && patchAnswer.Answered? && listAnswer.Answered? ==>
        && session.workingHours == WorkingHoursReducer.State(listAnswer.data)
        && error.None? && !show
      ensures sent != [] && patchAnswer.Failed? ==>
        && error == Some(OrElse(patchAnswer.error, "Failed to update sleep record"))
        && show == old(show) && session.workingHours == old(session.workingHours)
      ensures sent != [] && patchAnswer.Answered? && listAnswer.Failed? ==>
        && error == Some(OrElse(listAnswer.error, "Failed to update sleep record"))
        && show == old(show) && session.workingHours == old(session.workingHours)
    {
      if sleepIn.None? || wakeIn.None? {
        error := Some("Both sleep and wake times are required");
        return [];
      }
      if wakeIn.value < sleepIn.value {
        error := Some("Wake time must be after sleep time");
        return [];
      }
      isLoading := true;
      sent := [PatchSleep(recordId, sleepIn.value, wakeIn.value)];
      if patchAnswer.Failed? {
        error := Some(OrElse(patchAnswer.error, "Failed to update sleep record"));
      } else {
        sent := sent + [RefetchSleeps];
        match listAnswer {
          case Answered(list) =>
            var _ := session.DispatchWorkingHours(WorkingHoursReducer.UpdateWorkingHour(list));
            error := None;
            show := false;
          case Failed(message) =>
            error := Some(OrElse(message, "Failed to update sleep record"));
        }
      }
      isLoading := false;
    }
  }
}
