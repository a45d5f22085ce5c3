# Chronos core, modelled in Dafny

Chronos is a calendar assistant. A Next.js frontend shows a week of Google
Calendar events and has a chat box and a list of scheduling preferences. A
Python backend sorts a user's request into an intent, summarises their
availability for a language model, and indexes events for search. This
project models the parts of that system that compute something
deterministic:

- **Calendar layout** (`DayColumn`, `TimeGrid`, `WeeklyCalendar`). An event
  becomes a box whose top is its start minute of day and whose height is
  end minus start. Each column draws 24 hour guidelines, 60 px apart. The
  time grid labels its 24 rows on a twelve-hour clock. Events go into 7
  weekday buckets by `getDay()`.
- **Event transform** (`Page`). This is page.js's `transformGoogleEvents`
  and its colour table `getColorFromId`, with the JavaScript semantics of
  `||`. The colour lookup comes in two versions. `Page.ColorFromIdAsWritten`
  looks the key up on an object literal and so also finds the names it
  inherits. `Page.ColorFromId` is the corrected lookup, which the transform
  uses (see "## Findings").
- **Chat and preference state** (`ChatInterface`, `Preferences`). These are
  classes whose methods change the message list and the input box the way
  the React state updates do.
- **Search indexing** (`SearchEngine`). This is `stringify_event`, written
  as the source's sequence of `parts.append` steps, plus the loop that
  groups events into chunks of 10 and builds the document, metadata and id
  lists.
- **Availability and dispatch** (`Availability`, `Scheduling`).
  `get_two_week_availability` groups events by day, sorts the day keys and
  writes one sentence per day. `process_request` branches on the intent
  string.

The supporting modules are:

- `Wrappers`: `Option`.
- `Text`: joining, decimal rendering, JavaScript whitespace trimming and
  Python string order.
- `Sequences`: filter and map, with their order and count lemmas.
- `CalendarEvents`: the frontend event record and its `Moment` time value.
- `GoogleEvents`: the Google Calendar JSON record.

Several things the source delegates to libraries become parameters. These
are JavaScript `Date` construction, Python's `datetime.fromisoformat` and
`strftime`, the clock, and the outcome of an awaited request. Each
parameter returns `None` where the library call would raise. The
properties are then proved for every behaviour those parameters could
have.

Two behaviours are absent from the code:

- There is no polling loop that re-sends the request every second.
  `handleSendMessage` awaits one `onSubmit` call.
- There is no filter that restricts the week view to the current week.
  `WeeklyCalendar` buckets every event by weekday alone, so
  `WeeklyCalendar.SameWeekdayShareBucket` proves that events a week apart
  share a column.

## Model

| member | source | states |
|---|---|---|
| Text.Join | chronos-backend/search_engine.py:69 | joining no parts gives the empty string and joining one part gives that part, as Python's `str.join` does |
| Text.JoinStartsWithFirst | chronos-backend/search_engine.py:69 | a join of at least one part begins with the first part |
| Text.NatToString | chronos-backend/groq_engine.py:123 | the decimal rendering of a count is non-empty and all digits, with no leading zero except for 0 itself |
| Text.ParseNatToString | chronos-backend/groq_engine.py:123 | parsing the rendered count gives back the count |
| Text.NatToStringInjective | chronos-backend/search_engine.py:98 | different numbers render differently |
| Text.PrefixedNumbersDistinct | chronos-backend/search_engine.py:98 | a fixed prefix followed by different numbers gives different strings, so `chunk_{k}` ids never collide |
| Text.TrimStart | chronos-frontend/src/components/ChatInterface.jsx:16 | the leading-whitespace trim is a suffix of its input and does not start with whitespace |
| Text.TrimEnd | chronos-frontend/src/components/ChatInterface.jsx:16 | the trailing-whitespace trim is a prefix of its input and does not end with whitespace |
| Text.TrimStartEmpty | chronos-frontend/src/components/ChatInterface.jsx:16 | trimming leading whitespace gives "" exactly when the input is all whitespace |
| Text.TrimEmptyIffBlank | chronos-frontend/src/components/Preferences.jsx:10 | `trim()` gives the empty string exactly when every character is JavaScript whitespace |
| Text.TrimEndKeepsNonBlankHead | chronos-frontend/src/components/ChatInterface.jsx:16 | trimming the end never empties a string whose first character is not whitespace |
| Text.Trim | chronos-frontend/src/components/ChatInterface.jsx:16 | no contract; defines `String.prototype.trim` as the end trim of the start trim, which Text.TrimEmptyIffBlank characterises (also Preferences.jsx:10) |
| Text.LexLeqTotal | chronos-backend/groq_engine.py:113 | Python's code-point string order compares any two strings |
| Text.LexLeqAntisymmetric | chronos-backend/groq_engine.py:113 | two strings that are each at most the other are equal |
| Text.LexLeqTransitive | chronos-backend/groq_engine.py:113 | the string order is transitive |
| Text.DigitChar | chronos-backend/groq_engine.py:123 | the character for a digit 0..9 is a decimal digit |
| Text.DigitValue | chronos-backend/groq_engine.py:123 | a digit character's value is in 0..9 |
| Sequences.Filter | chronos-frontend/src/components/WeeklyCalendar.jsx:11 | every element kept satisfies the predicate and is taken from the input, and the result is no longer than the input |
| Sequences.Map | chronos-backend/groq_engine.py:118-121 | the result has the input's length and element i is f of input element i |
| Sequences.MapSnoc | chronos-backend/groq_engine.py:118-121 | mapping a sequence extended by one element appends that element's image |
| Sequences.FilterSnoc | chronos-frontend/src/components/WeeklyCalendar.jsx:11 | filtering a sequence extended by one element appends that element exactly when it satisfies the predicate |
| Sequences.KeptPositionsBounded | chronos-frontend/src/components/WeeklyCalendar.jsx:11 | the positions `filter` keeps are strictly increasing input indices whose elements satisfy the predicate |
| Sequences.KeptPositionsComplete | chronos-frontend/src/components/WeeklyCalendar.jsx:11 | every input index whose element satisfies the predicate is kept |
| Sequences.FilterAtKeptPositions | chronos-frontend/src/components/WeeklyCalendar.jsx:11 | element j of the filter result is the input element at the j-th kept position |
| Sequences.FilterIsOrderedSelection | chronos-frontend/src/components/WeeklyCalendar.jsx:11 | the filter result is the input elements at a strictly increasing list of positions, which holds exactly the matching indices |
| Sequences.FilterCount | chronos-frontend/src/components/WeeklyCalendar.jsx:11 | the filter result's multiset is the input's multiset of matching elements |
| CalendarEvents.Weekday | chronos-frontend/src/components/WeeklyCalendar.jsx:11 | `getDay()` is in 0..6 with Sunday as 0, and day 3 after the epoch (Sunday, 4 January 1970) is 0 |
| DayColumn.EventBox | chronos-frontend/src/components/DayColumn.jsx:18-24 | top is the start's minute of day (hours*60 + minutes) and height is the end's minute of day minus it, so the bottom is the end's minute of day; a valid start gives a top in [0, 1440); a valid end gives a bottom in [0, 1440); height is 0 exactly when start and end times are equal and negative exactly when the end's time of day is earlier |
| DayColumn.QuarterPastNineExample | chronos-frontend/src/components/DayColumn.jsx:18-24 | an event from 09:15 to 10:00 is drawn at 555 px with height 45 px |
| DayColumn.Guidelines | chronos-frontend/src/components/DayColumn.jsx:8-14 | there are 24 guidelines and guideline i is at i*60 px with height 60 px |
| DayColumn.GuidelinesTileColumn | chronos-frontend/src/components/DayColumn.jsx:8-14 | the guidelines sit edge to edge from 0 to the 1440 px column height without overlapping |
| DayColumn.EventStartsInItsHourRow | chronos-frontend/src/components/DayColumn.jsx:8-24 | an event's top lies inside the guideline of its start hour |
| DayColumn.ColumnLayout | chronos-frontend/src/components/DayColumn.jsx:17-34 | one box per event, in order, box i being event i's box |
| TimeGrid.HourLabel | chronos-frontend/src/components/TimeGrid.jsx:12 | no contract; defines the label by the same chain of conditionals as the source, which TimeGrid.HourLabelIsTwelveHourClock and TimeGrid.HourLabelRoundTrip characterise |
| TimeGrid.Rows | chronos-frontend/src/components/TimeGrid.jsx:6-14 | there are 24 rows and row i is at i*60 px, 60 px high, with hour i's label |
| TimeGrid.RowsAlignWithGuidelines | chronos-frontend/src/components/TimeGrid.jsx:6-10 | every time-grid row has the same box as the day column's guideline of the same hour |
| TimeGrid.HourLabelIsTwelveHourClock | chronos-frontend/src/components/TimeGrid.jsx:12 | each label is a number n in 1..12 with n = h mod 12, or 12 when that is 0, followed by " AM" exactly when h < 12 and " PM" otherwise |
| TimeGrid.ParseTwelveHourReading | chronos-frontend/src/components/TimeGrid.jsx:12 | a twelve-hour reading n with AM or PM parses back to the 24-hour value it names |
| TimeGrid.HourLabelRoundTrip | chronos-frontend/src/components/TimeGrid.jsx:12 | parsing hour h's label gives back h, for every h in 0..23 |
| TimeGrid.HourLabelsDistinct | chronos-frontend/src/components/TimeGrid.jsx:6-12 | the 24 row labels are pairwise different |
| WeeklyCalendar.EventsByDay | chronos-frontend/src/components/WeeklyCalendar.jsx:10-12 | there are 7 buckets and bucket d is the events whose start falls on weekday d, in input order |
| WeeklyCalendar.BucketsAreHomogeneous | chronos-frontend/src/components/WeeklyCalendar.jsx:10-12 | every event in bucket d starts on weekday d |
| WeeklyCalendar.EachEventInExactlyOneBucket | chronos-frontend/src/components/WeeklyCalendar.jsx:10-12 | each input event appears in its own weekday's bucket and in no other |
| WeeklyCalendar.BucketsPartitionEvents | chronos-frontend/src/components/WeeklyCalendar.jsx:10-12 | the seven buckets together hold exactly the input's multiset of events and their sizes add up to the input's length |
| WeeklyCalendar.BucketKeepsInputOrder | chronos-frontend/src/components/WeeklyCalendar.jsx:10-12 | bucket entries appear in the same relative order as in the input |
| WeeklyCalendar.WeekdayRepeatsWeekly | chronos-frontend/src/components/WeeklyCalendar.jsx:11 | a day and the same day any number of weeks later have the same weekday |
| WeeklyCalendar.SameWeekdayShareBucket | chronos-frontend/src/components/WeeklyCalendar.jsx:10-12 | with no week filter, an event and one starting whole weeks later fall into the same bucket |
| WeeklyCalendar.WeekView | chronos-frontend/src/components/WeeklyCalendar.jsx:31-37 | there are 7 columns and column d lays out bucket d |
| WeeklyCalendar.WeekViewPlacement | chronos-frontend/src/components/WeeklyCalendar.jsx:10-37 | every box drawn in column d belongs to an input event that starts on weekday d, and is that event's own box |
| Page.ColorFromId | chronos-frontend/src/app/page.js:29-44 | a palette id '1'..'10' gives that id's colour, any other id or no id gives the default blue, and every result is one of the table's colours |
| Page.PaletteColoursDistinct | chronos-frontend/src/app/page.js:30-42 | different palette ids give different colours, and no palette colour is the default |
| Page.LookupAsWritten | chronos-frontend/src/app/page.js:43 | no contract; defines the property read `colorMap[key]`: an own key gives its colour, one of the names in `Page.ObjectPrototypeMembers` gives that inherited member, and any other key gives undefined |
| Page.ColorFromIdAsWritten | chronos-frontend/src/app/page.js:43 | a palette id gives its colour; an inherited member name gives that member instead of a string; every other id gives some string |
| Page.InheritedIdYieldsNoColour | chronos-frontend/src/app/page.js:43 | as written, a colour id that names an inherited member such as 'toString' gives a non-colour value |
| Page.AsWrittenAgreesOffPrototype | chronos-frontend/src/app/page.js:29-44 | for every id that is not an inherited member name, the code as written and the corrected table agree |
| Page.DateArgument | chronos-frontend/src/app/page.js:21-22 | `dateTime \|\| date`: a non-empty dateTime wins, otherwise the date is used |
| Page.DescriptionText | chronos-frontend/src/app/page.js:24 | the description is "" exactly when it is absent or empty, and otherwise it is the event's description |
| Page.TransformEvent | chronos-frontend/src/app/page.js:18-25 | an event converts exactly when it has both `start` and `end`; otherwise reading `.dateTime` on them throws |
| Page.TransformGoogleEvents | chronos-frontend/src/app/page.js:17-26 | the whole list converts exactly when every event has a start and an end; it then keeps the length, and entry i carries event i's id, title, start, end, colour (from the corrected lookup) and description |
| ChatInterface.ReplyText | chronos-frontend/src/components/ChatInterface.jsx:42-59 | a successful submission gives the confirmation text and a failed one the error text; the text is the confirmation exactly when the submission succeeded |
| ChatInterface.SequentialIdsAreUnique | chronos-frontend/src/components/ChatInterface.jsx:19-36 | in a list whose ids are 1, 2, 3, ... no two messages share an id |
| ChatInterface.Chat.constructor | chronos-frontend/src/components/ChatInterface.jsx:5-13 | the chat starts with the single greeting, id 1, from the assistant, and an empty input |
| ChatInterface.Chat.SetInput | chronos-frontend/src/components/ChatInterface.jsx:13 | typing replaces the input and leaves the messages as they were |
| ChatInterface.Chat.BeginSend | chronos-frontend/src/components/ChatInterface.jsx:15-36 | a blank input changes nothing; otherwise the untrimmed text is appended as a user message with id length+1, the input is cleared, and the placeholder is appended with id length+2 |
| ChatInterface.Chat.FinishSend | chronos-frontend/src/components/ChatInterface.jsx:39-59 | the placeholder is replaced, in the same place and with the same id, by the confirmation or the error; everything before it is unchanged |
| ChatInterface.Chat.SendMessage | chronos-frontend/src/components/ChatInterface.jsx:15-62 | one send of a non-blank input adds exactly two messages (the user's text, then the reply for the outcome) and keeps ids sequential; a blank input changes nothing |
| Preferences.PreferenceList.constructor | chronos-frontend/src/components/Preferences.jsx:5-6 | the list starts empty, with an empty input |
| Preferences.PreferenceList.SetInput | chronos-frontend/src/components/Preferences.jsx:6 | typing replaces the input and leaves the list unchanged |
| Preferences.PreferenceList.Submit | chronos-frontend/src/components/Preferences.jsx:8-35 | a blank input changes nothing; otherwise the untrimmed entry is appended and the input cleared, whether or not the save succeeded |
| SearchEngine.PyGetTime | chronos-backend/search_engine.py:41 | `get('dateTime', get('date'))`: the dateTime when the key is present, even if empty, and otherwise the date |
| SearchEngine.AttendeeNames | chronos-backend/search_engine.py:62 | the names are produced exactly when every attendee has a display name or an email; name i is attendee i's display name if present, else their email |
| SearchEngine.TitlePart | chronos-backend/search_engine.py:35-38 | no contract; defines the first part: "Event '<summary>'" when the key is present, else "Untitled event" |
| SearchEngine.StartPiece | chronos-backend/search_engine.py:40-48 | no contract; defines the start block's outcome: left out when the value is missing or empty, "starts on <date>" (with the time when the value contains 'T'), or raised |
| SearchEngine.EndPiece | chronos-backend/search_engine.py:50-59 | no contract; defines the end block's outcome: left out, "ends at <time>", "ends on <date>", or raised; SearchEngine.EndPhraseByKind characterises it |
| SearchEngine.AttendeesPiece | chronos-backend/search_engine.py:61-64 | no contract; defines the attendee block's outcome: left out when the key is absent or the list is empty, "with attendees <names>" otherwise, raised when a name is missing |
| SearchEngine.DescriptionPiece | chronos-backend/search_engine.py:66-67 | no contract; defines the description block: "with description: <text>" when present and non-empty, left out otherwise |
| SearchEngine.EventText | chronos-backend/search_engine.py:33-69 | no contract; defines `stringify_event`: the parts joined by spaces followed by ". ", or raised; SearchEngine.StringifyEvent and SearchEngine.EventTextShape are proved against it |
| SearchEngine.EventParts | chronos-backend/search_engine.py:33-67 | the parts are missing exactly when one of the optional pieces raises; otherwise the first part is the title |
| SearchEngine.AfterPiece | chronos-backend/search_engine.py:40-67 | a piece that raises stops the event; otherwise the piece's text is appended after the parts so far, if it has any |
| SearchEngine.AppendStart | chronos-backend/search_engine.py:40-48 | the start branch appends "starts on ..." for a non-empty start and raises when the date cannot be parsed |
| SearchEngine.AppendEnd | chronos-backend/search_engine.py:50-59 | the end branch appends "ends at ..." or "ends on ..." depending on the separator 'T' and raises when the date cannot be parsed |
| SearchEngine.AppendAttendees | chronos-backend/search_engine.py:61-64 | the attendee branch appends the comma-joined names when there are any and raises on an attendee with neither name nor email |
| SearchEngine.StringifyEvent | chronos-backend/search_engine.py:33-69 | the step-by-step construction gives exactly the event's sentence, or raises exactly when a piece raises |
| SearchEngine.StartPrefersDateTime | chronos-backend/search_engine.py:41 | when a dateTime is present the start date field has no effect |
| SearchEngine.EmptyDateTimeOmitsStart | chronos-backend/search_engine.py:41-42 | an empty dateTime hides the date field and the start is left out altogether |
| SearchEngine.EndPhraseByKind | chronos-backend/search_engine.py:50-59 | a value with 'T' gives "ends at" plus the time; one without gives "ends on" plus the date; it raises exactly when the chosen parse fails |
| SearchEngine.EventTextShape | chronos-backend/search_engine.py:33-69 | an event sentence starts with its title part and ends with ". " |
| SearchEngine.NumChunks | chronos-backend/search_engine.py:85 | the number of chunks is the ceiling of the event count divided by 10 |
| SearchEngine.ChunkAt | chronos-backend/search_engine.py:86 | every chunk holds between 1 and 10 events, namely the smaller of 10 and the number left |
| SearchEngine.ChunkTexts | chronos-backend/search_engine.py:85-95 | one text per chunk, text k being chunk k's concatenated sentences |
| SearchEngine.ChunkSizes | chronos-backend/search_engine.py:85-86 | one size per chunk, size k being the length of chunk k |
| SearchEngine.Chunks | chronos-backend/search_engine.py:97-105 | no contract; defines the stored chunk documents, in chunk order, skipping chunks with empty text; SearchEngine.ChunkDocContents, SearchEngine.ChunkIdsDistinct and SearchEngine.ChunkStoredIff characterise it |
| SearchEngine.BuildChunkText | chronos-backend/search_engine.py:87-95 | the inner loop's text is each stringifiable event's sentence followed by a space, skipping those that raise |
| SearchEngine.BuildChunkAt | chronos-backend/search_engine.py:85-95 | the slice at offset 10k is chunk k, and its text is chunk k's text |
| SearchEngine.BuildChunks | chronos-backend/search_engine.py:80-105 | the three lists the loop builds are aligned, and entry j of each is the document, metadata and id of the j-th stored chunk |
| SearchEngine.ChunkTextOfEmptyIff | chronos-backend/search_engine.py:89-97 | a chunk's text is empty exactly when none of its events gives a sentence |
| SearchEngine.ChunkTextEmptyIff | chronos-backend/search_engine.py:89-97 | a chunk's text is empty exactly when every event in it raises |
| SearchEngine.ChunkCoversEvent | chronos-backend/search_engine.py:85-86 | event p is element p mod 10 of chunk p div 10, so the chunks cover every event exactly once |
| SearchEngine.DocsBeforeDescribe | chronos-backend/search_engine.py:97-105 | every document stored from the first k chunks has a non-empty text, the chunk's size, the shared timestamp and the id for its index |
| SearchEngine.DocsBeforeIncreasing | chronos-backend/search_engine.py:97-105 | the stored documents' indices strictly increase |
| SearchEngine.DocsBeforeStored | chronos-backend/search_engine.py:97-105 | chunk q is stored exactly when its text is non-empty |
| SearchEngine.DocsBeforeAllStored | chronos-backend/search_engine.py:97-105 | when no chunk text is empty, all k chunks are stored and document j has index j |
| SearchEngine.ChunkDocContents | chronos-backend/search_engine.py:97-105 | stored document j is the non-empty text of an actual chunk, with that chunk's size (at most 10), the timestamp and id `chunk_idx` |
| SearchEngine.ChunkIdsDistinct | chronos-backend/search_engine.py:98-105 | stored documents come in increasing index order and no two share an id |
| SearchEngine.ChunkStoredIff | chronos-backend/search_engine.py:89-105 | chunk k is stored exactly when at least one of its events stringifies |
| SearchEngine.AllChunksStored | chronos-backend/search_engine.py:85-105 | when every event stringifies, there is one document per chunk and document j is chunk j |
| SearchEngine.ColumnsSnoc | chronos-backend/search_engine.py:99-105 | appending one chunk's document, metadata and id keeps the three lists aligned with the chunk list |
| Availability.ReplaceZ | chronos-backend/groq_engine.py:98 | `replace('Z', '+00:00')` leaves no 'Z' and leaves a string without 'Z' unchanged |
| Availability.TimeText | chronos-backend/groq_engine.py:97 | no contract; defines `event['start'].get('dateTime', event['start'].get('date'))`, `None`, standing for the raised error, when the key or both values are missing |
| Availability.ToDayEvent | chronos-backend/groq_engine.py:97-109 | an event converts exactly when both times are present and parse; the summary defaults to "Untitled event" |
| Availability.DayEvents | chronos-backend/groq_engine.py:96-110 | the first loop completes exactly when every event converts, and then entry i is event i's converted form |
| Availability.FirstSeen | chronos-backend/groq_engine.py:101-102 | no contract; defines the dictionary's keys in insertion order; Availability.FirstSeenDistinct and Availability.FirstSeenComplete characterise it |
| Availability.OnDay | chronos-backend/groq_engine.py:101-110 | every entry listed under a day key starts on that day |
| Availability.OnDaySnoc | chronos-backend/groq_engine.py:101-110 | appending an event adds it to its own day's list and to no other |
| Availability.FirstSeenDistinct | chronos-backend/groq_engine.py:101-102 | the dictionary's keys are pairwise distinct |
| Availability.FirstSeenComplete | chronos-backend/groq_engine.py:101-102 | each event's day is a key, and every key is some event's day |
| Availability.EventUnderItsDay | chronos-backend/groq_engine.py:101-110 | every event is listed under its own day key, once for each time it occurs in the input |
| Availability.InsertPermutes | chronos-backend/groq_engine.py:113 | inserting into the sorted list adds exactly that key to the multiset |
| Availability.InsertElements | chronos-backend/groq_engine.py:113 | the elements after an insertion are the old ones plus the new key |
| Availability.InsertSorted | chronos-backend/groq_engine.py:113 | inserting into a sorted list keeps it sorted |
| Availability.InsertDistinct | chronos-backend/groq_engine.py:113 | inserting a new key into a list of distinct keys keeps them distinct |
| Availability.SortStrings | chronos-backend/groq_engine.py:113 | no contract; defines `sorted` as an insertion sort; Availability.SortStringsCorrect and Availability.SortStringsDistinct characterise it |
| Availability.SortStringsCorrect | chronos-backend/groq_engine.py:113 | `sorted` returns a permutation of its input in Python's string order |
| Availability.SortStringsDistinct | chronos-backend/groq_engine.py:113 | sorting distinct keys gives distinct keys |
| Availability.DayOrderAscending | chronos-backend/groq_engine.py:95-113 | the days are visited in strictly ascending key order, each event's day is among them, and each has at least one event |
| Availability.EntryText | chronos-backend/groq_engine.py:118-121 | no contract; defines one entry: "<summary> from <start> to <end>" |
| Availability.Header | chronos-backend/groq_engine.py:123 | no contract; defines the day header; Availability.HeaderCount characterises its count and noun |
| Availability.DaySummary | chronos-backend/groq_engine.py:123-124 | no contract; defines one day's sentence: the header followed by the entries joined by "; "; Availability.SingleEventSentence gives its one-event form |
| Availability.HeaderCount | chronos-backend/groq_engine.py:123 | the number in a day's header reads back as the count, and the noun is "events" exactly when the count is above 1 |
| Availability.DaySummaries | chronos-backend/groq_engine.py:112-125 | one sentence per day key |
| Availability.DaySummariesAt | chronos-backend/groq_engine.py:112-125 | sentence i uses day i's heading and lists that day's events in their original order |
| Availability.TwoWeekAvailability | chronos-backend/groq_engine.py:92-127 | no events gives the fixed no-events message, and the function raises exactly when some event has a missing or unparsable time |
| Availability.SummarySentences | chronos-backend/groq_engine.py:112-127 | a successful summary joins, with blank lines between them, one sentence per distinct day in ascending order, each about that day's events only |
| Availability.SingleEventSentence | chronos-backend/groq_engine.py:118-124 | a day with one event reads "On <day>, you have 1 event: <entry>", singular |
| Availability.SingleDaySummaries | chronos-backend/groq_engine.py:112-127 | a single event gives a summary that is exactly its day's sentence, with no separator |
| Availability.OneUntitledEvent | chronos-backend/groq_engine.py:92-127 | one event with no summary gives "On <day>, you have 1 event: Untitled event from <start> to <end>" |
| Availability.OnDayOnlyKeys | chronos-backend/groq_engine.py:101-110 | a day that is not a key has no events listed under it |
| Availability.GroupedSnoc | chronos-backend/groq_engine.py:100-110 | one more pass of the grouping loop keeps the key list and dictionary equal to the grouping of the events seen so far |
| Availability.ConvertedSnoc | chronos-backend/groq_engine.py:96-110 | one more converted event extends the converted prefix by that event |
| Availability.ConvertEvent | chronos-backend/groq_engine.py:97-109 | one pass of the first loop's body gives the event's converted form, or raises exactly when that conversion fails |
| Availability.GroupByDay | chronos-backend/groq_engine.py:95-110 | the first loop builds the key list in first-seen order and the dictionary of day lists, or raises exactly when an event fails to convert |
| Availability.DescribeDay | chronos-backend/groq_engine.py:114-125 | the inner loop builds the day's sentence, with header, count and events in order |
| Availability.DescribeDays | chronos-backend/groq_engine.py:112-125 | the second loop builds one sentence per sorted day key |
| Availability.GetTwoWeekAvailability | chronos-backend/groq_engine.py:92-127 | the method's result is the availability summary of the fetched events |
| Scheduling.ProcessRequest | chronos-backend/groq_engine.py:228-255 | CREATE and EDIT (and only they) go to the language model; DELETE returns the delete action with the query unchanged; any other string returns the unknown-intent error |
| Scheduling.IntentsExact | chronos-backend/groq_engine.py:29 | the intent list has four distinct names, and of them only UNKNOWN reaches the error branch |
| Scheduling.QueryOnlyOnDelete | chronos-backend/groq_engine.py:228-255 | only a DELETE reply carries the query, unchanged, and a dictionary reply holds either an action or an error, never both |

## Left out

- The language-model calls are left out: `IntentAgent.extract_intent`, `PreferencesAgent.get_rule_based_preferences` and the CREATE/EDIT chat completion. The completion is modelled only as the `AskModel` reply, and the classifier's answer is an arbitrary string input. They are network calls to Groq, and nothing about their answers is determined by the code.
- `IntentAgent.Intents.model_validator` is left out. It is never registered as a validator and refers to an undefined `self`, so it never runs. The intent can therefore be any string.
- The Google Calendar `events().list` call, the `datetime.now` window and OAuth setup are left out. The fetched event list is an input.
- The Chroma client calls are left out: `collection.get`, `delete`, `add` and `search_events`. The model ends with the three lists handed to `add`.
- The module-level demo code, logging and `console.error` are left out, because they only produce output.
- `datetime.fromisoformat`, `strftime` and `strptime` are parameters of the model (`Formats` and `Clock`), with `None` standing for a raised `ValueError`. Their actual formats are not modelled.
- JavaScript `new Date(...)` is the `toDate` parameter and is assumed to give a valid date; an Invalid Date and its `NaN` getters are not modelled. Local time-zone handling is folded into the `Moment` value, which already holds the local day, hour and minute.
- SearchEngine.BuildChunks takes one timestamp for all chunks. The source reads the clock once per chunk, so chunks built around midnight could carry different dates.
- The awaited `onSubmit` and `fetch` calls are modelled only by their outcome, passed to `FinishSend` and `Submit`. The interleaving of concurrent sends is not modelled: `SendMessage` runs one send to completion.
- Preferences never calls `onPreferencesChange`, so the list is not passed to `page.js`. The model keeps it local, as the code does.
- The rest of `page.js` is not modelled: the fetching, routing and component plumbing.
- `speech_to_text.py`, `app.py`, the routes and the presentational components are not part of this model: `Event.jsx`, `EventCard.jsx`, the `ui/` components and the duplicate pages under `lee/` and `neha/`.
- There is no polling loop or week-window filter to model: the code has neither.
- Page.TransformGoogleEvents: the colour field uses the corrected lookup `Page.ColorFromId`, not the one as written. For a `colorId` equal to one of the 12 names in `Page.ObjectPrototypeMembers` (`'toString'`, `'constructor'`, `'__proto__'`, ...), page.js stores the inherited `Object.prototype` member as the event's colour. The model stores the default blue `#3b82f6`. `Page.InheritedIdYieldsNoColour` states the as-written value, and `Page.AsWrittenAgreesOffPrototype` shows the two lookups agree on every other id, so the transform matches page.js everywhere else.
- Page.TransformGoogleEvents treats a missing `start` or `end` as the whole transform failing. In JavaScript that is a `TypeError` thrown from inside `map`, and its stack trace is not modelled.

## Findings

| source | as written | input that shows it | evidently intended | confidence | as-written member | corrected member |
|---|---|---|---|---|---|---|
| chronos-frontend/src/app/page.js:43 | `colorMap[colorId] \|\| colorMap.default` looks the id up on a plain object literal, so names the object inherits from `Object.prototype` are found too | `colorId = 'toString'` gives the `toString` function rather than a colour (likewise `'constructor'` and `'hasOwnProperty'`) | any id outside the palette gives the default blue | not executed | Page.ColorFromIdAsWritten, Page.InheritedIdYieldsNoColour | Page.ColorFromId, Page.AsWrittenAgreesOffPrototype |
