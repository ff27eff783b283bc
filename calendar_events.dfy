/** The backend records, the calendar event the component builds from each,
    and the mapping of a fetched batch into events. */
module CalendarEvents {
  import opened Wrappers
  import opened Timestamp

  /** A project as the admin service returns it. */
  datatype ProjectRecord = ProjectRecord(id: int, title: string, dueDate: string, priority: string, employeeName: string)

  /** A meeting as the admin service returns it, or as the meeting dialog
      hands it back. */
  datatype MeetingRecord = MeetingRecord(id: int, description: string, date: string, time: string, employeeId: int)

  /** The `extendedProps` of an event. Which variant it is decides its
      `eventType`, so the tag cannot disagree with the attributes it carries. */
  datatype ExtendedProps =
    | ProjectProps(priority: string, employeeName: string)
    | MeetingProps(employeeId: int)
  {
    function EventType(): string
    {
      match this
      case ProjectProps(_, _) => "project"
      case MeetingProps(_) => "meeting"
    }
  }

  /** An event object handed to the calendar; `end` is absent on project events. */
  datatype CalendarEvent = CalendarEvent(id: int, title: string, start: string, end: Option<string>, extendedProps: ExtendedProps)

  /** The `projects.map` callback of `loadProjects`. Nothing of the record is
      lost: it reads back whole, and the event has no end. */
  function ProjectEvent(project: ProjectRecord): (e: CalendarEvent)
    ensures ProjectOf(e) == Some(project)
    ensures WellFormedEvent(e) && MeetingOf(e) == None
  {
    CalendarEvent(project.id, project.title, project.dueDate, None,
                  ProjectProps(project.priority, project.employeeName))
  }

  /** The `meetings.map` callback of `loadMeetings`, also the event built by
      `addEventToCalendar`: the meeting starts and ends at the same instant,
      and the event never reads back as a project. */
  function MeetingEvent(meeting: MeetingRecord): (e: CalendarEvent)
    ensures e.end == Some(e.start) && e.extendedProps.EventType() == "meeting"
    ensures WellFormedEvent(e) && ProjectOf(e) == None
  {
    var startDate := CombineDateAndTime(meeting.date, meeting.time);
    CalendarEvent(meeting.id, meeting.description, startDate, Some(startDate), MeetingProps(meeting.employeeId))
  }

  /** Reads a project record back out of an event, if it is a project event. */
  function ProjectOf(e: CalendarEvent): Option<ProjectRecord>
  {
    match e.extendedProps
    case ProjectProps(priority, employeeName) =>
      if e.end.None? then Some(ProjectRecord(e.id, e.title, e.start, priority, employeeName)) else None
    case MeetingProps(_) => None
  }

  /** Reads a meeting record back out of an event, if it is a meeting event
      whose start and end are the same well-formed timestamp. */
  function MeetingOf(e: CalendarEvent): Option<MeetingRecord>
  {
    match e.extendedProps
    case ProjectProps(_, _) => None
    case MeetingProps(employeeId) =>
      if e.end == Some(e.start) && SplitTimestamp(e.start).Some? then
        var (date, time) := SplitTimestamp(e.start).value;
        Some(MeetingRecord(e.id, e.title, date, time, employeeId))
      else None
  }

  /** A project event keeps every field of its record: its start is the due
      date as given, not normalised, it has no end, and it is tagged
      `project`. An event reads back as a given project exactly when it is
      that project's event. */
  lemma ProjectEventRoundTrip(e: CalendarEvent, project: ProjectRecord)
    ensures ProjectOf(e) == Some(project) <==> e == ProjectEvent(project)
    ensures ProjectEvent(project).start == project.dueDate && ProjectEvent(project).end.None?
    ensures ProjectEvent(project).extendedProps.EventType() == "project"
  {
    if ProjectOf(e) == Some(project) {
      assert e.extendedProps == ProjectProps(project.priority, project.employeeName);
    }
  }

  /** A meeting event starts and ends at the normalised date and time of its
      meeting, carries the description as its title, keeps the id and the
      employee, and is tagged `meeting`. */
  lemma MeetingEventFields(meeting: MeetingRecord)
    ensures var e := MeetingEvent(meeting);
      e.end == Some(e.start) && e.start == CombineDateAndTime(meeting.date, meeting.time) &&
      e.id == meeting.id && e.title == meeting.description &&
      e.extendedProps == MeetingProps(meeting.employeeId) && e.extendedProps.EventType() == "meeting"
  {
  }

  /** An event reads back as a given meeting exactly when it is that meeting's
      event and the meeting's date and time were already in `yyyy-mm-dd` and
      `HH:mm` form. */
  lemma MeetingEventRoundTrip(e: CalendarEvent, meeting: MeetingRecord)
    ensures MeetingOf(e) == Some(meeting) <==>
      e == MeetingEvent(meeting) && IsDateShape(meeting.date) && IsTimeShape(meeting.time)
  {
    if MeetingOf(e) == Some(meeting) {
      CombineSplit(e.start);
      assert SplitTimestamp(e.start) == Some((meeting.date, meeting.time));
      assert e.start == CombineDateAndTime(meeting.date, meeting.time);
    }
    if e == MeetingEvent(meeting) && IsDateShape(meeting.date) && IsTimeShape(meeting.time) {
      SplitCombine(meeting.date, meeting.time);
      assert SplitTimestamp(e.start) == Some((meeting.date, meeting.time));
    }
  }

  /** A meeting whose date and time normalise to a well-formed timestamp reads
      back from its event with the date cut to ten characters and the time
      padded to five: this is all the normaliser loses. */
  lemma MeetingEventKeeps(meeting: MeetingRecord)
    requires IsUtcTimestamp(CombineDateAndTime(meeting.date, meeting.time))
    ensures MeetingOf(MeetingEvent(meeting)) ==
      Some(meeting.(date := DatePart(meeting.date), time := TimePart(meeting.time)))
  {
    CombineIsUtcTimestampIff(meeting.date, meeting.time);
    var canonical := meeting.(date := DatePart(meeting.date), time := TimePart(meeting.time));
    CombineOfParts(meeting.date, meeting.time);
    assert MeetingEvent(canonical) == MeetingEvent(meeting);
    MeetingEventRoundTrip(MeetingEvent(meeting), canonical);
  }

  /** Project events and meeting events never read back as each other. */
  lemma SourcesAreDisjoint(project: ProjectRecord, meeting: MeetingRecord)
    ensures MeetingOf(ProjectEvent(project)) == None && ProjectOf(MeetingEvent(meeting)) == None
    ensures ProjectEvent(project) != MeetingEvent(meeting)
  {
  }

  /** `projects.map(...)`: one event per record, in the order of the batch. */
  function MapProjects(projects: seq<ProjectRecord>): (events: seq<CalendarEvent>)
    ensures |events| == |projects|
    ensures forall i :: 0 <= i < |projects| ==> events[i] == ProjectEvent(projects[i])
  {
    if projects == [] then [] else [ProjectEvent(projects[0])] + MapProjects(projects[1..])
  }

  /** `meetings.map(...)`: one event per record, in the order of the batch. */
  function MapMeetings(meetings: seq<MeetingRecord>): (events: seq<CalendarEvent>)
    ensures |events| == |meetings|
    ensures forall i :: 0 <= i < |meetings| ==> events[i] == MeetingEvent(meetings[i])
  {
    if meetings == [] then [] else [MeetingEvent(meetings[0])] + MapMeetings(meetings[1..])
  }

  /** An event is consistent with its tag: a project event has no end, a
      meeting event ends where it starts. */
  predicate WellFormedEvent(e: CalendarEvent)
  {
    match e.extendedProps
    case ProjectProps(_, _) => e.end.None?
    case MeetingProps(_) => e.end == Some(e.start)
  }

  predicate AllWellFormed(events: seq<CalendarEvent>)
  {
    forall i :: 0 <= i < |events| ==> WellFormedEvent(events[i])
  }

  /** Every event of a mapped batch is consistent with its tag. */
  lemma MappedEventsAreWellFormed(projects: seq<ProjectRecord>, meetings: seq<MeetingRecord>)
    ensures AllWellFormed(MapProjects(projects)) && AllWellFormed(MapMeetings(meetings))
  {
  }

  /** Appending keeps every event consistent with its tag. */
  lemma AppendWellFormed(existing: seq<CalendarEvent>, batch: seq<CalendarEvent>)
    requires AllWellFormed(existing) && AllWellFormed(batch)
    ensures AllWellFormed(existing + batch)
  {
  }

  /** A stand-up on 2024-05-01 at 09:00 for employee 42: start and end are the
      normalised timestamp. */
  lemma ExampleMeeting()
    ensures var e := MeetingEvent(MeetingRecord(1, "Standup", "2024-05-01", "09:00", 42));
      e.start == "2024-05-01T09:00:00.000+00:00" && e.end == Some(e.start) &&
      e.extendedProps == MeetingProps(42)
  {
  }
}
