/**
 * The Google Calendar event resource as the frontend and the backend read
 * it. `None` stands for a key that is absent from the JSON object.
 */
module GoogleEvents {
  import opened Wrappers

  /** `start` / `end`: `dateTime` for timed events, `date` for all-day events. */
  datatype EventTime = EventTime(dateTime: Option<string>, date: Option<string>)

  datatype Attendee = Attendee(email: Option<string>, displayName: Option<string>)

  datatype GoogleEvent = GoogleEvent(
    id: string,
    summary: Option<string>,
    start: Option<EventTime>,
    end: Option<EventTime>,
    colorId: Option<string>,
    description: Option<string>,
    attendees: Option<seq<Attendee>>)
}
