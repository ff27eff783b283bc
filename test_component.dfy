/** The calendar component's state: the calendar options object whose
    `events` list the success callbacks extend, and the callbacks themselves.
    The HTTP services deliver each fetch as either a batch or an error; here a
    callback is a method that receives one or the other. */
module TestComponent {
  import opened Wrappers
  import opened CalendarEvents

  /** The static part of the calendar options (view and interaction flags). */
  datatype Settings = Settings(initialView: string, editable: bool, selectable: bool)

  const InitialSettings := Settings("dayGridMonth", true, true)

  /** The options object handed to the calendar. Its `events` field is
      reassigned in place by the fetch callbacks. */
  class CalendarOptions {
    const settings: Settings
    var events: seq<CalendarEvent>

    constructor (settings: Settings, events: seq<CalendarEvent>)
      ensures this.settings == settings && this.events == events
    {
      this.settings := settings;
      this.events := events;
    }
  }

  /** What a fetch delivers to its subscriber. */
  datatype Fetch<T> = Loaded(batch: seq<T>) | Failed(error: string)

  /** The events a projects fetch contributes: none when it failed. */
  function ProjectBatch(fetch: Fetch<ProjectRecord>): seq<CalendarEvent>
  {
    if fetch.Loaded? then MapProjects(fetch.batch) else []
  }

  /** The events a meetings fetch contributes: none when it failed. */
  function MeetingBatch(fetch: Fetch<MeetingRecord>): seq<CalendarEvent>
  {
    if fetch.Loaded? then MapMeetings(fetch.batch) else []
  }

  class Component {
    var calendarOptions: CalendarOptions

    /** Every event on the calendar is consistent with its tag. */
    ghost predicate Valid()
      reads this, calendarOptions
    {
      AllWellFormed(calendarOptions.events)
    }

    /** The component starts with an empty event list. */
    constructor ()
      ensures Valid() && fresh(calendarOptions)
      ensures calendarOptions.settings == InitialSettings && calendarOptions.events == []
    {
      calendarOptions := new CalendarOptions(InitialSettings, []);
    }

    /** Success branch of `loadProjects`: the mapped batch is appended, in
        order and without de-duplication, to the list of the same options
        object. */
    method OnProjectsLoaded(projects: seq<ProjectRecord>)
      requires Valid()
      modifies calendarOptions
      ensures Valid() && calendarOptions == old(calendarOptions)
      ensures calendarOptions.events == old(calendarOptions.events) + MapProjects(projects)
    {
      var calendarEvents := MapProjects(projects);
      MappedEventsAreWellFormed(projects, []);
      AppendWellFormed(calendarOptions.events, calendarEvents);
      calendarOptions.events := calendarOptions.events + calendarEvents;
    }

    /** Error branch of `loadProjects`: only logged, the events are untouched. */
    method OnProjectsError(error: string)
      requires Valid()
      ensures Valid() && calendarOptions == old(calendarOptions)
      ensures calendarOptions.events == old(calendarOptions.events)
    {
    }

    /** Success branch of `loadMeetings`. */
    method OnMeetingsLoaded(meetings: seq<MeetingRecord>)
      requires Valid()
      modifies calendarOptions
      ensures Valid() && calendarOptions == old(calendarOptions)
      ensures calendarOptions.events == old(calendarOptions.events) + MapMeetings(meetings)
    {
      var calendarEvents := MapMeetings(meetings);
      MappedEventsAreWellFormed([], meetings);
      AppendWellFormed(calendarOptions.events, calendarEvents);
      calendarOptions.events := calendarOptions.events + calendarEvents;
    }

    /** Error branch of `loadMeetings`: only logged, the events are untouched. */
    method OnMeetingsError(error: string)
      requires Valid()
      ensures Valid() && calendarOptions == old(calendarOptions)
      ensures calendarOptions.events == old(calendarOptions.events)
    {
    }

    /** `loadProjects` once its fetch has completed: the subscriber's success
        or error branch. */
    method CompleteProjects(fetch: Fetch<ProjectRecord>)
      requires Valid()
      modifies calendarOptions
      ensures Valid() && calendarOptions == old(calendarOptions)
      ensures calendarOptions.events == old(calendarOptions.events) + ProjectBatch(fetch)
    {
      match fetch
      case Loaded(projects) => OnProjectsLoaded(projects);
      case Failed(error) => OnProjectsError(error);
    }

    /** `loadMeetings` once its fetch has completed. */
    method CompleteMeetings(fetch: Fetch<MeetingRecord>)
      requires Valid()
      modifies calendarOptions
      ensures Valid() && calendarOptions == old(calendarOptions)
      ensures calendarOptions.events == old(calendarOptions.events) + MeetingBatch(fetch)
    {
      match fetch
      case Loaded(meetings) => OnMeetingsLoaded(meetings);
      case Failed(error) => OnMeetingsError(error);
    }

    /** `addEventToCalendar`: a new options object is built with the same
        settings and the old events followed by the meeting's event; the
        previous options object is left as it was. */
    method AddEventToCalendar(meeting: MeetingRecord)
      requires Valid()
      modifies this
      ensures Valid() && fresh(calendarOptions)
      ensures calendarOptions.settings == old(calendarOptions.settings)
      ensures calendarOptions.events == old(calendarOptions.events) + [MeetingEvent(meeting)]
      ensures old(calendarOptions).events == old(calendarOptions.events)
    {
      var newEvent := MeetingEvent(meeting);
      MappedEventsAreWellFormed([], [meeting]);
      AppendWellFormed(calendarOptions.events, [newEvent]);
      calendarOptions := new CalendarOptions(calendarOptions.settings, calendarOptions.events + [newEvent]);
    }

    /** The meeting dialog's `afterClosed` subscriber: a meeting is added only
        when the dialog returned one. */
    method HandleDialogClosed(result: Option<MeetingRecord>)
      requires Valid()
      modifies this
      ensures Valid()
      ensures result.None? ==> calendarOptions == old(calendarOptions)
      ensures calendarOptions.settings == old(calendarOptions.settings)
      ensures result.Some? ==> fresh(calendarOptions) && old(calendarOptions).events == old(calendarOptions.events)
      ensures calendarOptions.events ==
        old(calendarOptions.events) + (if result.Some? then [MeetingEvent(result.value)] else [])
    {
      if result.Some? {
        AddEventToCalendar(result.value);
      }
    }
  }

  /** `ngOnInit`: both fetches are started on a fresh component and complete
      in either order. The final list is the completed batches in completion
      order, and the same events whichever order it was; a failed fetch
      contributes nothing and does not block the other (`CompletionOrder`). */
  method LoadAll(projects: Fetch<ProjectRecord>, meetings: Fetch<MeetingRecord>, projectsFirst: bool)
    returns (events: seq<CalendarEvent>)
    ensures events == if projectsFirst then ProjectBatch(projects) + MeetingBatch(meetings)
                      else MeetingBatch(meetings) + ProjectBatch(projects)
    ensures multiset(events) == multiset(ProjectBatch(projects)) + multiset(MeetingBatch(meetings))
    ensures projects.Failed? ==> events == MeetingBatch(meetings)
  {
    ghost var p, m := ProjectBatch(projects), MeetingBatch(meetings);
    var component := new Component();
    if projectsFirst {
      component.CompleteProjects(projects);
      assert component.calendarOptions.events == p;
      component.CompleteMeetings(meetings);
    } else {
      component.CompleteMeetings(meetings);
      assert component.calendarOptions.events == m;
      component.CompleteProjects(projects);
    }
    events := component.calendarOptions.events;
    CompletionOrder(projects, meetings);
  }

  /** Whichever fetch completes first, the two orders give the same events,
      and a failed projects fetch leaves exactly the meeting events. */
  lemma CompletionOrder(projects: Fetch<ProjectRecord>, meetings: Fetch<MeetingRecord>)
    ensures var p, m := ProjectBatch(projects), MeetingBatch(meetings);
      multiset(p + m) == multiset(m + p) == multiset(p) + multiset(m) &&
      (projects.Failed? ==> p + m == m + p == m)
  {
    var p, m := ProjectBatch(projects), MeetingBatch(meetings);
    if projects.Failed? {
      assert p == [];
      assert p + m == m && m + p == m;
    }
  }

  /** True when no two entries have the same tag and id. */
  predicate DistinctKeys(events: seq<CalendarEvent>)
  {
    forall i, j :: 0 <= i < j < |events| ==>
      (events[i].extendedProps.EventType(), events[i].id) != (events[j].extendedProps.EventType(), events[j].id)
  }

  /** The append does not de-duplicate: loading the same non-empty batch of
      projects twice leaves the list with two entries of the same tag and id,
      whatever the list held before. */
  lemma ReloadDuplicates(existing: seq<CalendarEvent>, projects: seq<ProjectRecord>)
    requires |projects| > 0
    ensures var events := existing + MapProjects(projects) + MapProjects(projects);
      |events| == |existing| + 2 * |projects| && !DistinctKeys(events)
  {
    var events := existing + MapProjects(projects) + MapProjects(projects);
    var i, j := |existing|, |existing| + |projects|;
    assert events[i] == ProjectEvent(projects[0]) == events[j];
  }
}
