/**
 * page.js: the colour-id table (`getColorFromId`) and the conversion of raw
 * Google events into the calendar's display events
 * (`transformGoogleEvents`). Parsing a timestamp with `new Date(...)` is the
 * parameter `toDate`.
 */
module Page {
  import opened Wrappers
  import opened GoogleEvents
  import opened CalendarEvents

  const DefaultColor: string := "#3b82f6"

  /** `colorMap`: the ten Google palette ids, plus a `default` entry. */
  const ColorTable: map<string, string> := map[
    "1" := "#7986cb",
    "2" := "#33b679",
    "3" := "#8e24aa",
    "4" := "#e67c73",
    "5" := "#f6c026",
    "6" := "#f5511d",
    "7" := "#039be5",
    "8" := "#616161",
    "9" := "#3f51b5",
    "10" := "#0b8043",
    "default" := DefaultColor]

  const PaletteIds: set<string> := {"1", "2", "3", "4", "5", "6", "7", "8", "9", "10"}

  /** The property key a JavaScript lookup uses: `undefined` becomes the key "undefined". */
  function PropertyKey(colorId: Option<string>): string
  {
    match colorId
    case None => "undefined"
    case Some(k) => k
  }

  /**
   * `colorMap[colorId] || colorMap.default`, looking only at the table's own
   * entries: the palette ids get their colour and every other id, undefined
   * and 'default' included, gets the default blue.
   */
  function ColorFromId(colorId: Option<string>): (c: string)
    ensures PropertyKey(colorId) in PaletteIds ==> c == ColorTable[PropertyKey(colorId)]
    ensures PropertyKey(colorId) !in PaletteIds ==> c == DefaultColor
    ensures c in ColorTable.Values
  {
    var key := PropertyKey(colorId);
    if key in ColorTable && ColorTable[key] != "" then ColorTable[key] else ColorTable["default"]
  }

  /** The ten palette colours are pairwise distinct and none is the default. */
  lemma PaletteColoursDistinct(a: string, b: string)
    requires a in PaletteIds && b in PaletteIds && a != b
    ensures ColorFromId(Some(a)) != ColorFromId(Some(b))
    ensures ColorFromId(Some(a)) != DefaultColor
  {
  }

  // ---------------------------------------------------------------------
  // The colour lookup as written: a plain object literal also answers for the
  // names it inherits from Object.prototype.

  /** What a property read on the `colorMap` object can give back. */
  datatype JsValue = Undefined | Str(s: string) | Inherited(name: string)

  /** The properties every object literal inherits from Object.prototype. */
  const ObjectPrototypeMembers: set<string> := {
    "constructor", "toString", "toLocaleString", "valueOf", "hasOwnProperty",
    "isPrototypeOf", "propertyIsEnumerable", "__proto__", "__defineGetter__",
    "__defineSetter__", "__lookupGetter__", "__lookupSetter__"}

  function LookupAsWritten(key: string): JsValue
  {
    if key in ColorTable then Str(ColorTable[key])
    else if key in ObjectPrototypeMembers then Inherited(key)
    else Undefined
  }

  predicate Truthy(v: JsValue)
  {
    match v
    case Undefined => false
    case Str(s) => s != ""
    case Inherited(_) => true
  }

  /** `colorMap[colorId] || colorMap.default` with JavaScript's prototype lookup. */
  function ColorFromIdAsWritten(colorId: Option<string>): (v: JsValue)
    ensures PropertyKey(colorId) in PaletteIds ==> v == Str(ColorTable[PropertyKey(colorId)])
    ensures PropertyKey(colorId) in ObjectPrototypeMembers ==> v == Inherited(PropertyKey(colorId))
    ensures PropertyKey(colorId) !in ObjectPrototypeMembers ==> v.Str?
  {
    var v := LookupAsWritten(PropertyKey(colorId));
    if Truthy(v) then v else Str(DefaultColor)
  }

  /** An inherited name such as 'toString' yields the inherited member, not a colour. */
  lemma InheritedIdYieldsNoColour(k: string)
    requires k in ObjectPrototypeMembers
    ensures ColorFromIdAsWritten(Some(k)) == Inherited(k)
  {
  }

  /** Away from the inherited names, the code as written and `ColorFromId` agree. */
  lemma AsWrittenAgreesOffPrototype(colorId: Option<string>)
    requires PropertyKey(colorId) !in ObjectPrototypeMembers
    ensures ColorFromIdAsWritten(colorId) == Str(ColorFromId(colorId))
  {
  }

  // ---------------------------------------------------------------------
  // transformGoogleEvents

  /** `x || y` on possibly undefined strings: `x` unless it is undefined or empty. */
  function JsOr(x: Option<string>, y: Option<string>): Option<string>
  {
    if x.Some? && x.value != "" then x else y
  }

  /** The argument given to `new Date(...)`: `dateTime` when truthy, otherwise `date`. */
  function DateArgument(t: EventTime): (a: Option<string>)
    ensures t.dateTime.Some? && t.dateTime.value != "" ==> a == t.dateTime
    ensures (t.dateTime.None? || t.dateTime.value == "") ==> a == t.date
  {
    JsOr(t.dateTime, t.date)
  }

  /** `event.description || ''` */
  function DescriptionText(d: Option<string>): (s: string)
    ensures s == "" <==> d.None? || d.value == ""
    ensures d.Some? && d.value != "" ==> s == d.value
  {
    match d
    case None => ""
    case Some(text) => text
  }

  predicate HasTimes(e: GoogleEvent)
  {
    e.start.Some? && e.end.Some?
  }

  /** The display event, or `None` when reading `event.start.dateTime` or `event.end.dateTime` throws. */
  function TransformEvent(e: GoogleEvent, toDate: Option<string> -> Moment): (r: Option<CalendarEvent>)
    ensures r.Some? <==> HasTimes(e)
  {
    if !HasTimes(e) then None
    else Some(CalendarEvent(
      e.id,
      e.summary,
      toDate(DateArgument(e.start.value)),
      toDate(DateArgument(e.end.value)),
      ColorFromId(e.colorId),
      DescriptionText(e.description)))
  }

  /**
   * `googleEvents.map(...)`: one display event per raw event, in the same
   * order, with the id copied, the summary as title, start and end parsed from
   * `dateTime || date`, the colour looked up and the description defaulted to
   * ''. The `map` throws (`None`) exactly when some event lacks `start` or
   * `end`.
   */
  function TransformGoogleEvents(raw: seq<GoogleEvent>, toDate: Option<string> -> Moment): (r: Option<seq<CalendarEvent>>)
    ensures r.Some? <==> forall i :: 0 <= i < |raw| ==> HasTimes(raw[i])
    ensures r.Some? ==> |r.value| == |raw|
    ensures r.Some? ==> forall i :: 0 <= i < |raw| ==>
      && r.value[i].id == raw[i].id
      && r.value[i].title == raw[i].summary
      && r.value[i].start == toDate(DateArgument(raw[i].start.value))
      && r.value[i].end == toDate(DateArgument(raw[i].end.value))
      && r.value[i].color == ColorFromId(raw[i].colorId)
      && r.value[i].description == DescriptionText(raw[i].description)
  {
    if raw == [] then Some([])
    else
      match TransformEvent(raw[0], toDate)
      case None => None
      case Some(c) =>
        match TransformGoogleEvents(raw[1..], toDate)
        case None => None
        case Some(rest) => Some([c] + rest)
  }
}
