/** The data handling of the working-hours screens: pages/WorkingHours.js,
    its variant FixedWorkingHours.js, and pages/Sleep.js. Their shared
    helpers (durations, statistics, the calendar) live in Durations and
    Calendar; here are the request each screen sends and what the answers
    do to the page and to the working-hours store. Times are whole minutes. */
module WorkingHoursPage {
  import opened Wrappers
  import opened Session
  import opened Pages
  import WorkingHoursReducer

  type WorkingHour = WorkingHoursReducer.WorkingHour

  /** The requests these screens send to the working-hours API. */
  datatype SleepsRequest =
    | GetSleeps
    | PostSleepsAdmin(id: string)
    | PostSleep(sleep: int, wake: int)
    | PostWorkday(date: string, duration: int)

  /** The list request of WorkingHours.js and FixedWorkingHours.js: the
      admin endpoint only for an admin with an email looking at another user. */
  function HoursEndpoint(auth: AuthInfo, target: Option<TargetUser>): (r: SleepsRequest)
    ensures r.PostSleepsAdmin? <==> ViewsOther(auth, target) && Truthy(auth.info.email) && IsAdmin(Some(auth))
    ensures r.PostSleepsAdmin? ==> r.id == target.value.userId.value
    ensures !r.PostSleepsAdmin? ==> r == GetSleeps
  {
    if ViewsOther(auth, target) && Truthy(auth.info.email) && IsAdmin(Some(auth)) then
      PostSleepsAdmin(target.value.userId.value)
    else GetSleeps
  }

  /** The list request of Sleep.js: no test of the caller's own email, and
      the admin flag is computed without a guard (`None`: rendering throws). */
  function SleepEndpoint(auth: Option<AuthInfo>, target: Option<TargetUser>): (r: Option<SleepsRequest>)
    ensures r.None? <==> UnguardedAdmin(auth).None?
    ensures r.Some? ==> (r.value.PostSleepsAdmin? <==> ViewsOther(auth.value, target) && IsAdmin(auth))
    ensures r.Some? && r.value.PostSleepsAdmin? ==> r.value.id == target.value.userId.value
    ensures r.Some? && !r.value.PostSleepsAdmin? ==> r.value == GetSleeps
  {
    var admin := UnguardedAdmin(auth);
    if admin.None? then None
    else if ViewsOther(auth.value, target) && admin.value then Some(PostSleepsAdmin(target.value.userId.value))
    else Some(GetSleeps)
  }

  /** Where the caller has an email the two screens ask for the same list. */
  lemma EndpointsAgreeWithEmail(auth: AuthInfo, target: Option<TargetUser>)
    requires Truthy(auth.info.email) && auth.info.roles.Some?
    ensures SleepEndpoint(Some(auth), target) == Some(HoursEndpoint(auth, target))
  {
  }

  /** An admin whose token carries no email asks Sleep.js for the other
      user's records but WorkingHours.js for their own. */
  lemma EndpointsDisagreeWithoutEmail()
    ensures var auth := AuthInfo(UserInfo(None, None, Some([ADMIN])), "t");
      var target := Some(TargetUser(Some("u"), Some("u@example")));
      && HoursEndpoint(auth, target) == GetSleeps
      && SleepEndpoint(Some(auth), target) == Some(PostSleepsAdmin("u"))
  {
  }

  const LoadFailed := "Failed to load working hours data"
  const AddFailed := "Failed to add working hours"

  /** The page's own state. */
  class HoursPage {
    var error: Option<string>
    var showHoursModal: bool

    constructor ()
      ensures error.None? && !showHoursModal
    {
      error := None;
      showHoursModal := false;
    }

    /** `getWorkingHours` of WorkingHours.js and FixedWorkingHours.js: only
        with a logged-in user; the list replaces the store, and a failure
        empties it and shows the server's message or a default. */
    method LoadWorkingHours(session: ClientSession, answer: Answer<Option<seq<WorkingHour>>>)
      returns (sent: Option<SleepsRequest>)
      modifies this, session
      ensures session.auth == old(session.auth) && session.targetUser == old(session.targetUser)
      ensures session.persist == old(session.persist) && session.events == old(session.events)
      ensures showHoursModal == old(showHoursModal)
      ensures old(session.auth).None? ==>
        sent.None? && error == old(error) && session.workingHours == old(session.workingHours)
      ensures old(session.auth).Some? ==> sent == Some(HoursEndpoint(old(session.auth).value, old(session.targetUser)))
      ensures old(session.auth).Some? && answer.Answered? ==>
        session.workingHours == WorkingHoursReducer.State(answer.data) && error.None?
      ensures old(session.auth).Some? && answer.Failed? ==>
        session.workingHours == WorkingHoursReducer.State(Some([])) && error == Some(OrElse(answer.error, LoadFailed))
    {
      if session.auth.None? {
        return None;
      }
      sent := Some(HoursEndpoint(session.auth.value, session.targetUser));
      match answer {
        case Answered(list) =>
          var _ := session.DispatchWorkingHours(WorkingHoursReducer.SetWorkingHours(list));
          error := None;
        case Failed(message) =>
          var _ := session.DispatchWorkingHours(WorkingHoursReducer.SetWorkingHours(Some([])));
          error := Some(OrElse(message, LoadFailed));
      }
    }

    /** `getWorkingHours` of Sleep.js: rendering throws before anything is
        sent when the auth or its role list is missing; a failure empties
        the list and shows the server's message, which may be missing. */
    method LoadSleep(session: ClientSession, answer: Answer<Option<seq<WorkingHour>>>)
      returns (sent: Option<SleepsRequest>, crashed: bool)
      modifies this, session
      ensures session.auth == old(session.auth) && session.targetUser == old(session.targetUser)
      ensures session.persist == old(session.persist) && session.events == old(session.events)
      ensures showHoursModal == old(showHoursModal)
      ensures crashed <==> UnguardedAdmin(old(session.auth)).None?
      ensures crashed ==> sent.None? && error == old(error) && session.workingHours == old(session.workingHours)
      ensures !crashed ==> sent == SleepEndpoint(old(session.auth), old(session.targetUser))
      ensures !crashed && answer.Answered? ==>
        session.workingHours == WorkingHoursReducer.State(answer.data) && error.None?
      ensures !crashed && answer.Failed? ==>
        session.workingHours == WorkingHoursReducer.State(Some([])) && error == answer.error
    {
      var request := SleepEndpoint(session.auth, session.targetUser);
      if request.None? {
        return None, true;
      }
      sent, crashed := request, false;
      match answer {
        case Answered(list) =>
          var _ := session.DispatchWorkingHours(WorkingHoursReducer.SetWorkingHours(list));
          error := None;
        case Failed(message) =>
          var _ := session.DispatchWorkingHours(WorkingHoursReducer.SetWorkingHours(Some([])));
          error := message;
      }
    }

    /** `addDefaultWorkingHours`: today from 9:00 to 17:00. The new record
        goes in front of the list; a list that is still `null` makes the
        store's reducer throw while rendering. */
    method AddDefaultWorkingHours(session: ClientSession, midnight: int, answer: Answer<WorkingHour>)
      returns (sent: SleepsRequest, crashed: bool)
      modifies this, session
      ensures sent == PostSleep(midnight + 9 * 60, midnight + 17 * 60) && sent.wake - sent.sleep == 480
      ensures session.auth == old(session.auth) && session.events == old(session.events)
      ensures showHoursModal == old(showHoursModal)
      ensures answer.Failed? ==>
        !crashed && session.workingHours == old(session.workingHours) && error == Some(OrElse(answer.error, AddFailed))
      ensures answer.Answered? ==>
        && error.None?
        && (crashed <==> old(session.workingHours).workingHours.None?)
        && (!crashed ==> session.workingHours.workingHours == Some([answer.data] + old(session.workingHours).workingHours.value))
        && (crashed ==> session.workingHours == old(session.workingHours))
    {
      sent := PostSleep(midnight + 9 * 60, midnight + 17 * 60);
      crashed := false;
      match answer {
        case Answered(record) =>
          var ok := session.DispatchWorkingHours(WorkingHoursReducer.CreateWorkingHour(record));
          crashed := !ok;
          error := None;
        case Failed(message) =>
          error := Some(OrElse(message, AddFailed));
      }
    }

    /** `addCustomWorkingHours`: an end not after the start is refused
        before any request; otherwise as the default add, closing the modal. */
    method AddCustomWorkingHours(session: ClientSession, sleep: int, wake: int, answer: Answer<WorkingHour>)
      returns (sent: Option<SleepsRequest>, crashed: bool)
      modifies this, session
      ensures session.auth == old(session.auth) && session.events == old(session.events)
      ensures wake <= sleep ==>
        && sent.None? && !crashed
        && error == Some("End time must be after start time")
        && session.workingHours == old(session.workingHours) && showHoursModal == old(showHoursModal)
      ensures sleep < wake ==> sent == Some(PostSleep(sleep, wake))
      ensures sleep < wake && answer.Failed? ==>
        && !crashed && error == Some(OrElse(answer.error, AddFailed))
        && session.workingHours == old(session.workingHours) && showHoursModal == old(showHoursModal)
      ensures sleep < wake && answer.Answered? ==>
        && error.None? && !showHoursModal
        && (crashed <==> old(session.workingHours).workingHours.None?)
        && (!crashed ==> session.workingHours.workingHours == Some([answer.data] + old(session.workingHours).workingHours.value))
    {
      if wake <= sleep {
        error := Some("End time must be after start time");
        return None, false;
      }
      sent := Some(PostSleep(sleep, wake));
      crashed := false;
      match answer {
        case Answered(record) =>
          var ok := session.DispatchWorkingHours(WorkingHoursReducer.CreateWorkingHour(record));
          crashed := !ok;
          showHoursModal := false;
          error := None;
        case Failed(message) =>
          error := Some(OrElse(message, AddFailed));
      }
    }

    /** `addWorkingHours` of FixedWorkingHours.js: always today's date with
        480 minutes; success leaves the error as it was. */
    method AddFixedWorkingHours(session: ClientSession, today: string, answer: Answer<WorkingHour>)
      returns (sent: SleepsRequest, crashed: bool)
      modifies this, session
      ensures sent == PostWorkday(today, 480)
      ensures session.auth == old(session.auth) && session.events == old(session.events)
      ensures showHoursModal == old(showHoursModal)
      ensures answer.Failed? ==>
        !crashed && session.workingHours == old(session.workingHours) && error == Some(OrElse(answer.error, AddFailed))
      ensures answer.Answered? ==>
        && error == old(error)
        && (crashed <==> old(session.workingHours).workingHours.None?)
        && (!crashed ==> session.workingHours.workingHours == Some([answer.data] + old(session.workingHours).workingHours.value))
    {
      sent := PostWorkday(today, 480);
      crashed := false;
      match answer {
        case Answered(record) =>
          var ok := session.DispatchWorkingHours(WorkingHoursReducer.CreateWorkingHour(record));
          crashed := !ok;
        case Failed(message) =>
          error := Some(OrElse(message, AddFailed));
      }
    }
  }
}
