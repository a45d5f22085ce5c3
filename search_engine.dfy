/**
 * search_engine.py: turning Google events into the text documents that are
 * stored in the vector store. `stringify_event` writes one sentence per
 * event; the loop of `update_events_in_chroma` groups the events ten per
 * document. The datetime parsing and formatting is the parameter `fmt`; the
 * store itself is not part of this model.
 */
module SearchEngine {
  import opened Wrappers
  import opened Text
  import opened GoogleEvents

  /**
   * `datetime.fromisoformat(...).strftime(...)` for the three formats used;
   * `None` when `fromisoformat` raises.
   */
  datatype Formats = Formats(
    /** "%B %d, %Y at %I:%M %p" after replacing 'Z' by '+00:00' */
    dateAndTime: string -> Option<string>,
    /** "%B %d, %Y" */
    dateOnly: string -> Option<string>,
    /** "%I:%M %p" after replacing 'Z' by '+00:00' */
    timeOnly: string -> Option<string>)

  /** One optional part of the sentence: left out, present, or its computation raised. */
  datatype Piece = Omitted | Present(text: string) | Raised

  /** `time.get('dateTime', time.get('date'))`: `dateTime` whenever the key is there, even if empty. */
  function PyGetTime(t: EventTime): (r: Option<string>)
    ensures t.dateTime.Some? ==> r == t.dateTime
    ensures t.dateTime.None? ==> r == t.date
  {
    if t.dateTime.Some? then t.dateTime else t.date
  }

  function TitlePart(e: GoogleEvent): string
  {
    match e.summary
    case Some(s) => "Event '" + s + "'"
    case None => "Untitled event"
  }

  /** The value `start_time` / `end_time` that the `if` tests, when the key is there and the value non-empty. */
  function TimeValue(t: Option<EventTime>): Option<string>
  {
    if t.None? then None
    else
      var v := PyGetTime(t.value);
      if v.None? || v.value == "" then None else v
  }

  function StartPiece(e: GoogleEvent, fmt: Formats): Piece
  {
    match TimeValue(e.start)
    case None => Omitted
    case Some(s) =>
      match (if 'T' in s then fmt.dateAndTime(s) else fmt.dateOnly(s))
      case None => Raised
      case Some(text) => Present("starts on " + text)
  }

  function EndPiece(e: GoogleEvent, fmt: Formats): Piece
  {
    match TimeValue(e.end)
    case None => Omitted
    case Some(s) =>
      if 'T' in s then
        match fmt.timeOnly(s)
        case None => Raised
        case Some(text) => Present("ends at " + text)
      else
        match fmt.dateOnly(s)
        case None => Raised
        case Some(text) => Present("ends on " + text)
  }

  predicate Named(a: Attendee) { a.displayName.Some? || a.email.Some? }

  /**
   * `[a['displayName'] if 'displayName' in a else a['email'] for a in attendees]`;
   * `None` when some attendee has neither key (the KeyError).
   */
  function AttendeeNames(attendees: seq<Attendee>): (r: Option<seq<string>>)
    ensures r.Some? <==> forall i :: 0 <= i < |attendees| ==> Named(attendees[i])
    ensures r.Some? ==> |r.value| == |attendees|
    ensures r.Some? ==> forall i :: 0 <= i < |attendees| ==>
      r.value[i] == if attendees[i].displayName.Some? then attendees[i].displayName.value
                    else attendees[i].email.value
  {
    if attendees == [] then Some([])
    else
      var a := attendees[0];
      if !Named(a) then None
      else
        var name := if a.displayName.Some? then a.displayName.value else a.email.value;
        match AttendeeNames(attendees[1..])
        case None => None
        case Some(rest) => Some([name] + rest)
  }

  function AttendeesPiece(e: GoogleEvent): Piece
  {
    match e.attendees
    case None => Omitted
    case Some(attendees) =>
      match AttendeeNames(attendees)
      case None => Raised
      case Some(names) => if |names| > 0 then Present("with attendees " + Join(names, ", ")) else Omitted
  }

  function DescriptionPiece(e: GoogleEvent): Piece
  {
    if e.description.Some? && e.description.value != "" then Present("with description: " + e.description.value)
    else Omitted
  }

  function PieceParts(p: Piece): seq<string>
  {
    if p.Present? then [p.text] else []
  }

  /** The optional parts, in sentence order: start, end, attendees, description. */
  function OptionalPieces(e: GoogleEvent, fmt: Formats): seq<Piece>
  {
    [StartPiece(e, fmt), EndPiece(e, fmt), AttendeesPiece(e), DescriptionPiece(e)]
  }

  /** `parts` when `stringify_event` returns, or `None` when it raises. */
  function EventParts(e: GoogleEvent, fmt: Formats): (r: Option<seq<string>>)
    ensures r.None? <==> Raised in OptionalPieces(e, fmt)
    ensures r.Some? ==> |r.value| >= 1 && r.value[0] == TitlePart(e)
  {
    var p := OptionalPieces(e, fmt);
    if Raised in p then None
    else Some([TitlePart(e)] + PieceParts(p[0]) + PieceParts(p[1]) + PieceParts(p[2]) + PieceParts(p[3]))
  }

  /** The sentence `' '.join(parts) + ". "`, or `None` when `stringify_event` raises. */
  function EventText(e: GoogleEvent, fmt: Formats): Option<string>
  {
    match EventParts(e, fmt)
    case None => None
    case Some(parts) => Some(Join(parts, " ") + ". ")
  }

  /** The result of one `if` block of `stringify_event`: `parts` extended, or `None` when the block raised. */
  function AfterPiece(parts: seq<string>, p: Piece): (r: Option<seq<string>>)
    ensures r.Some? <==> p != Raised
    ensures r.Some? ==> r.value == parts + PieceParts(p)
  {
    match p
    case Raised => None
    case Omitted => Some(parts)
    case Present(text) => Some(parts + [text])
  }

  /** The `if 'start' in event:` block. */
  method AppendStart(parts: seq<string>, e: GoogleEvent, fmt: Formats) returns (r: Option<seq<string>>)
    ensures r == AfterPiece(parts, StartPiece(e, fmt))
  {
    r := Some(parts);
    if e.start.Some? {
      var startTime := PyGetTime(e.start.value);
      if startTime.Some? && startTime.value != "" {
        var s := startTime.value;
        assert TimeValue(e.start) == Some(s);
        var startStr := if 'T' in s then fmt.dateAndTime(s) else fmt.dateOnly(s);
        if startStr.None? {
          return None;
        }
        r := Some(parts + ["starts on " + startStr.value]);
      }
    }
  }

  /** The `if 'end' in event:` block. */
  method AppendEnd(parts: seq<string>, e: GoogleEvent, fmt: Formats) returns (r: Option<seq<string>>)
    ensures r == AfterPiece(parts, EndPiece(e, fmt))
  {
    r := Some(parts);
    if e.end.Some? {
      var endTime := PyGetTime(e.end.value);
      if endTime.Some? && endTime.value != "" {
        var s := endTime.value;
        assert TimeValue(e.end) == Some(s);
        if 'T' in s {
          var endStr := fmt.timeOnly(s);
          if endStr.None? {
            return None;
          }
          r := Some(parts + ["ends at " + endStr.value]);
        } else {
          var endStr := fmt.dateOnly(s);
          if endStr.None? {
            return None;
          }
          r := Some(parts + ["ends on " + endStr.value]);
        }
      }
    }
  }

  /** The `if 'attendees' in event:` block. */
  method AppendAttendees(parts: seq<string>, e: GoogleEvent) returns (r: Option<seq<string>>)
    ensures r == AfterPiece(parts, AttendeesPiece(e))
  {
    r := Some(parts);
    if e.attendees.Some? {
      var names := AttendeeNames(e.attendees.value);
      assert AttendeesPiece(e) == if names.None? then Raised
        else if |names.value| > 0 then Present("with attendees " + Join(names.value, ", ")) else Omitted;
      if names.None? {
        return None;
      }
      if |names.value| > 0 {
        r := Some(parts + ["with attendees " + Join(names.value, ", ")]);
      }
    }
  }

  /** `stringify_event`: the title, then each optional part in turn; `None` when a part raised. */
  method StringifyEvent(e: GoogleEvent, fmt: Formats) returns (r: Option<string>)
    ensures r == EventText(e, fmt)
  {
    ghost var pieces := OptionalPieces(e, fmt);
    var parts: seq<string> := [];
    if e.summary.Some? {
      parts := parts + ["Event '" + e.summary.value + "'"];
    } else {
      parts := parts + ["Untitled event"];
    }
    assert parts == [TitlePart(e)];

    var next := AppendStart(parts, e, fmt);
    if next.None? {
      assert pieces[0] == Raised;
      return None;
    }
    parts := next.value;

    next := AppendEnd(parts, e, fmt);
    if next.None? {
      assert pieces[1] == Raised;
      return None;
    }
    parts := next.value;

    next := AppendAttendees(parts, e);
    if next.None? {
      assert pieces[2] == Raised;
      return None;
    }
    parts := next.value;

    if e.description.Some? && e.description.value != "" {
      parts := parts + ["with description: " + e.description.value];
    }
    assert parts == [TitlePart(e)] + PieceParts(pieces[0]) + PieceParts(pieces[1])
      + PieceParts(pieces[2]) + PieceParts(pieces[3]);
    assert Raised !in pieces;
    r := Some(Join(parts, " ") + ". ");
  }

  /** Both dates of an event with a non-empty `dateTime` come from `dateTime`; `date` is not read. */
  lemma StartPrefersDateTime(e: GoogleEvent, fmt: Formats, otherDate: Option<string>)
    requires e.start.Some? && e.start.value.dateTime.Some?
    ensures StartPiece(e, fmt) == StartPiece(e.(start := Some(e.start.value.(date := otherDate))), fmt)
  {
  }

  /**
   * A `dateTime` key holding '' hides the `date` key: the start part is left
   * out, where the frontend's `dateTime || date` would fall back to `date`.
   */
  lemma EmptyDateTimeOmitsStart(e: GoogleEvent, fmt: Formats)
    requires e.start.Some? && e.start.value.dateTime == Some("")
    ensures StartPiece(e, fmt) == Omitted
  {
  }

  /** A timed end reads "ends at <time>", an all-day end "ends on <date>". */
  lemma EndPhraseByKind(e: GoogleEvent, fmt: Formats, v: string)
    requires TimeValue(e.end) == Some(v)
    ensures 'T' in v && fmt.timeOnly(v).Some? ==> EndPiece(e, fmt) == Present("ends at " + fmt.timeOnly(v).value)
    ensures 'T' !in v && fmt.dateOnly(v).Some? ==> EndPiece(e, fmt) == Present("ends on " + fmt.dateOnly(v).value)
    ensures EndPiece(e, fmt) == Raised <==>
      (if 'T' in v then fmt.timeOnly(v).None? else fmt.dateOnly(v).None?)
  {
  }

  /**
   * The sentence of an event starts with its title part ("Event '<summary>'"
   * or "Untitled event") and ends with ". ".
   */
  lemma EventTextShape(e: GoogleEvent, fmt: Formats)
    requires EventText(e, fmt).Some?
    ensures var s, t := EventText(e, fmt).value, TitlePart(e);
      && |s| >= |t| + 2
      && s[..|t|] == t
      && s[|s| - 2..] == ". "
  {
    var parts := EventParts(e, fmt).value;
    JoinStartsWithFirst(parts, " ");
    var j := Join(parts, " ");
    var s := j + ". ";
    assert s[..|parts[0]|] == j[..|parts[0]|];
  }

  // ---------------------------------------------------------------------
  // The chunk-building loop of update_events_in_chroma

  const ChunkSize: nat := 10

  /** `metadatas` entries; `ts` is the day stamp `datetime.now().strftime("%Y%m%d")`. */
  datatype Metadata = Metadata(idx: nat, size: nat, ts: string)

  /** One stored document with its metadata and id, as the three lists hold them. */
  datatype ChunkDoc = ChunkDoc(document: string, metadata: Metadata, id: string)

  /** The number of iterations of `range(0, n, CHUNK_SIZE)`: n / 10 rounded up. */
  function NumChunks(n: nat): (c: nat)
    ensures ChunkSize * c >= n
    ensures c > 0 ==> ChunkSize * (c - 1) < n
  {
    (n + ChunkSize - 1) / ChunkSize
  }

  function Min(a: int, b: int): int { if a <= b then a else b }

  /** `events[i:i + CHUNK_SIZE]` for `i == CHUNK_SIZE * k`. */
  function ChunkAt(events: seq<GoogleEvent>, k: nat): (c: seq<GoogleEvent>)
    requires k < NumChunks(|events|)
    ensures 1 <= |c| <= ChunkSize
    ensures |c| == Min(ChunkSize, |events| - ChunkSize * k)
  {
    events[ChunkSize * k .. Min(ChunkSize * k + ChunkSize, |events|)]
  }

  /** `chunk_text` for a given sentence writer: each sentence followed by a space; `None` adds nothing. */
  function ChunkTextOf(chunk: seq<GoogleEvent>, sentence: GoogleEvent -> Option<string>): string
  {
    if chunk == [] then ""
    else
      var last := sentence(chunk[|chunk| - 1]);
      ChunkTextOf(chunk[..|chunk| - 1], sentence) + (if last.Some? then last.value + " " else "")
  }

  /** `chunk_text`: each event's sentence followed by a space; events that raise add nothing. */
  function ChunkText(chunk: seq<GoogleEvent>, fmt: Formats): string
  {
    ChunkTextOf(chunk, e => EventText(e, fmt))
  }

  function ChunkId(k: nat): string
  {
    "chunk_" + NatToString(k)
  }

  /** The text of every chunk, by chunk number. */
  function ChunkTexts(events: seq<GoogleEvent>, fmt: Formats): (r: seq<string>)
    ensures |r| == NumChunks(|events|)
    ensures forall q :: 0 <= q < |r| ==> r[q] == ChunkText(ChunkAt(events, q), fmt)
  {
    seq(NumChunks(|events|), q requires 0 <= q < NumChunks(|events|) => ChunkText(ChunkAt(events, q), fmt))
  }

  /** The length of every chunk, by chunk number. */
  function ChunkSizes(events: seq<GoogleEvent>): (r: seq<nat>)
    ensures |r| == NumChunks(|events|)
    ensures forall q :: 0 <= q < |r| ==> r[q] == |ChunkAt(events, q)|
  {
    seq(NumChunks(|events|), q requires 0 <= q < NumChunks(|events|) => |ChunkAt(events, q)|)
  }

  /**
   * The documents written for the chunks numbered below `k`, given each
   * chunk's text and length; a chunk with empty text is skipped.
   */
  function DocsBefore(texts: seq<string>, sizes: seq<nat>, ts: string, k: nat): seq<ChunkDoc>
    requires |sizes| == |texts| && k <= |texts|
  {
    if k == 0 then []
    else
      DocsBefore(texts, sizes, ts, k - 1)
      + (if texts[k - 1] != "" then [ChunkDoc(texts[k - 1], Metadata(k - 1, sizes[k - 1], ts), ChunkId(k - 1))] else [])
  }

  /** Everything the loop hands to `collection.add`. */
  function Chunks(events: seq<GoogleEvent>, fmt: Formats, ts: string): seq<ChunkDoc>
  {
    DocsBefore(ChunkTexts(events, fmt), ChunkSizes(events), ts, NumChunks(|events|))
  }

  /** The inner loop: `chunk_text += event_text + " "` for every event that stringifies. */
  method BuildChunkText(chunk: seq<GoogleEvent>, fmt: Formats) returns (chunkText: string)
    ensures chunkText == ChunkText(chunk, fmt)
  {
    chunkText := "";
    for m := 0 to |chunk|
      invariant chunkText == ChunkText(chunk[..m], fmt)
    {
      var eventText := StringifyEvent(chunk[m], fmt);
      assert chunk[..m + 1][..m] == chunk[..m];
      if eventText.Some? {
        chunkText := chunkText + eventText.value + " ";
      }
    }
    assert chunk[..|chunk|] == chunk;
  }

  /** `chunk = events[i:i + CHUNK_SIZE]` and its text, for `i == CHUNK_SIZE * k`. */
  method BuildChunkAt(events: seq<GoogleEvent>, fmt: Formats, i: nat, ghost k: nat)
    returns (chunk: seq<GoogleEvent>, chunkText: string)
    requires i == ChunkSize * k && i < |events|
    ensures k < NumChunks(|events|)
    ensures chunkText == ChunkTexts(events, fmt)[k] && |chunk| == ChunkSizes(events)[k]
  {
    chunk := events[i .. Min(i + ChunkSize, |events|)];
    assert chunk == ChunkAt(events, k);
    chunkText := BuildChunkText(chunk, fmt);
  }

  /** The three lists are the aligned columns of `cs`. */
  predicate Columns(documents: seq<string>, metadatas: seq<Metadata>, ids: seq<string>, cs: seq<ChunkDoc>)
  {
    && |documents| == |metadatas| == |ids| == |cs|
    && forall j :: 0 <= j < |cs| ==> ChunkDoc(documents[j], metadatas[j], ids[j]) == cs[j]
  }

  lemma ColumnsSnoc(documents: seq<string>, metadatas: seq<Metadata>, ids: seq<string>, cs: seq<ChunkDoc>, c: ChunkDoc)
    requires Columns(documents, metadatas, ids, cs)
    ensures Columns(documents + [c.document], metadatas + [c.metadata], ids + [c.id], cs + [c])
  {
  }

  /**
   * The loop of `update_events_in_chroma`: `documents`, `metadatas` and
   * `ids` are built in step, as the aligned columns of `Chunks`.
   */
  method BuildChunks(events: seq<GoogleEvent>, fmt: Formats, ts: string)
    returns (documents: seq<string>, metadatas: seq<Metadata>, ids: seq<string>)
    ensures |documents| == |metadatas| == |ids| == |Chunks(events, fmt, ts)|
    ensures forall j :: 0 <= j < |documents| ==>
      ChunkDoc(documents[j], metadatas[j], ids[j]) == Chunks(events, fmt, ts)[j]
  {
    ghost var texts, sizes := ChunkTexts(events, fmt), ChunkSizes(events);
    documents, metadatas, ids := [], [], [];
    var i := 0;
    ghost var k := 0;
    while i < |events|
      invariant i == ChunkSize * k && k <= NumChunks(|events|)
      invariant Columns(documents, metadatas, ids, DocsBefore(texts, sizes, ts, k))
    {
      var chunk, chunkText := BuildChunkAt(events, fmt, i, k);
      assert i / ChunkSize == k;
      ghost var prev := DocsBefore(texts, sizes, ts, k);
      if chunkText != "" {
        var chunkId := "chunk_" + NatToString(i / ChunkSize);
        ghost var c := ChunkDoc(chunkText, Metadata(k, |chunk|, ts), chunkId);
        assert DocsBefore(texts, sizes, ts, k + 1) == prev + [c];
        ColumnsSnoc(documents, metadatas, ids, prev, c);
        documents := documents + [chunkText];
        metadatas := metadatas + [Metadata(i / ChunkSize, |chunk|, ts)];
        ids := ids + [chunkId];
      } else {
        assert DocsBefore(texts, sizes, ts, k + 1) == prev;
      }
      i := i + ChunkSize;
      k := k + 1;
    }
    assert k == NumChunks(|events|);
  }

  // ---------------------------------------------------------------------
  // Properties of the chunk documents

  lemma {:induction false} ChunkTextOfEmptyIff(chunk: seq<GoogleEvent>, sentence: GoogleEvent -> Option<string>)
    ensures ChunkTextOf(chunk, sentence) == "" <==> forall i :: 0 <= i < |chunk| ==> sentence(chunk[i]).None?
  {
    if chunk != [] {
      var n := |chunk| - 1;
      ChunkTextOfEmptyIff(chunk[..n], sentence);
      assert forall i :: 0 <= i < n ==> chunk[..n][i] == chunk[i];
    }
  }

  /** A chunk's text is empty exactly when every event in it raised. */
  lemma ChunkTextEmptyIff(chunk: seq<GoogleEvent>, fmt: Formats)
    ensures ChunkText(chunk, fmt) == "" <==> forall i :: 0 <= i < |chunk| ==> EventText(chunk[i], fmt).None?
  {
    ChunkTextOfEmptyIff(chunk, e => EventText(e, fmt));
  }

  /** Event `p` is element `p % 10` of chunk `p / 10`: chunk `k` covers `events[10k .. 10k + 10)`. */
  lemma ChunkCoversEvent(events: seq<GoogleEvent>, p: nat)
    requires p < |events|
    ensures p / ChunkSize < NumChunks(|events|)
    ensures p % ChunkSize < |ChunkAt(events, p / ChunkSize)|
    ensures ChunkAt(events, p / ChunkSize)[p % ChunkSize] == events[p]
  {
  }

  /** Document `c` is the one chunk `c.metadata.idx` (below `k`) produces. */
  predicate Describes(texts: seq<string>, sizes: seq<nat>, ts: string, k: nat, c: ChunkDoc)
    requires |sizes| == |texts|
  {
    var q := c.metadata.idx;
    && q < k
    && q < |texts|
    && c == ChunkDoc(texts[q], Metadata(q, sizes[q], ts), ChunkId(q))
    && texts[q] != ""
  }

  predicate AllDescribe(texts: seq<string>, sizes: seq<nat>, ts: string, k: nat, cs: seq<ChunkDoc>)
    requires |sizes| == |texts|
  {
    forall j :: 0 <= j < |cs| ==> Describes(texts, sizes, ts, k, cs[j])
  }

  lemma {:induction false} DocsBeforeDescribe(texts: seq<string>, sizes: seq<nat>, ts: string, k: nat)
    requires |sizes| == |texts| && k <= |texts|
    ensures AllDescribe(texts, sizes, ts, k, DocsBefore(texts, sizes, ts, k))
  {
    if k > 0 {
      DocsBeforeDescribe(texts, sizes, ts, k - 1);
      var prev := DocsBefore(texts, sizes, ts, k - 1);
      var cs := DocsBefore(texts, sizes, ts, k);
      forall j | 0 <= j < |cs| ensures Describes(texts, sizes, ts, k, cs[j]) {
        if j < |prev| {
          assert cs[j] == prev[j];
          assert Describes(texts, sizes, ts, k - 1, prev[j]);
        }
      }
    }
  }

  /** The chunk numbers of `cs` strictly increase. */
  predicate IncreasingIdx(cs: seq<ChunkDoc>)
  {
    forall j1, j2 :: 0 <= j1 < j2 < |cs| ==> cs[j1].metadata.idx < cs[j2].metadata.idx
  }

  lemma {:induction false} DocsBeforeIncreasing(texts: seq<string>, sizes: seq<nat>, ts: string, k: nat)
    requires |sizes| == |texts| && k <= |texts|
    ensures IncreasingIdx(DocsBefore(texts, sizes, ts, k))
  {
    if k > 0 {
      DocsBeforeIncreasing(texts, sizes, ts, k - 1);
      DocsBeforeDescribe(texts, sizes, ts, k - 1);
      var prev := DocsBefore(texts, sizes, ts, k - 1);
      var cs := DocsBefore(texts, sizes, ts, k);
      forall j1, j2 | 0 <= j1 < j2 < |cs| ensures cs[j1].metadata.idx < cs[j2].metadata.idx {
        assert cs[j1] == prev[j1];
        assert Describes(texts, sizes, ts, k - 1, prev[j1]);
        if j2 < |prev| {
          assert cs[j2] == prev[j2];
        }
      }
    }
  }

  /** Some document of `cs` carries chunk number `q`. */
  predicate StoresChunk(cs: seq<ChunkDoc>, q: nat)
  {
    exists j :: 0 <= j < |cs| && cs[j].metadata.idx == q
  }

  lemma {:induction false} DocsBeforeStored(texts: seq<string>, sizes: seq<nat>, ts: string, k: nat, q: nat)
    requires |sizes| == |texts| && q < k <= |texts|
    ensures texts[q] != "" <==> StoresChunk(DocsBefore(texts, sizes, ts, k), q)
  {
    var prev := DocsBefore(texts, sizes, ts, k - 1);
    var cs := DocsBefore(texts, sizes, ts, k);
    DocsBeforeDescribe(texts, sizes, ts, k - 1);
    if StoresChunk(cs, q) {
      var j :| 0 <= j < |cs| && cs[j].metadata.idx == q;
      if j < |prev| {
        assert cs[j] == prev[j];
        assert Describes(texts, sizes, ts, k - 1, prev[j]);
      }
    }
    if q < k - 1 {
      DocsBeforeStored(texts, sizes, ts, k - 1, q);
      if texts[q] != "" {
        var j :| 0 <= j < |prev| && prev[j].metadata.idx == q;
        assert cs[j] == prev[j];
      }
    } else if texts[q] != "" {
      assert cs[|prev|].metadata.idx == q;
    }
  }

  lemma {:induction false} DocsBeforeAllStored(texts: seq<string>, sizes: seq<nat>, ts: string, k: nat)
    requires |sizes| == |texts| && k <= |texts|
    requires forall q :: 0 <= q < k ==> texts[q] != ""
    ensures |DocsBefore(texts, sizes, ts, k)| == k
    ensures forall j :: 0 <= j < k ==> DocsBefore(texts, sizes, ts, k)[j].metadata.idx == j
  {
    if k > 0 {
      DocsBeforeAllStored(texts, sizes, ts, k - 1);
      var prev := DocsBefore(texts, sizes, ts, k - 1);
      var cs := DocsBefore(texts, sizes, ts, k);
      forall j | 0 <= j < k ensures cs[j].metadata.idx == j {
        if j < k - 1 { assert cs[j] == prev[j]; }
      }
    }
  }

  /**
   * Document `j` is the text of the chunk it names: its `idx` is a chunk
   * number, `size` that chunk's length (at most 10), `ts` the day stamp, the
   * text the non-empty concatenation of the chunk's sentences, and the id
   * "chunk_<idx>".
   */
  lemma ChunkDocContents(events: seq<GoogleEvent>, fmt: Formats, ts: string, j: nat)
    requires j < |Chunks(events, fmt, ts)|
    ensures var c := Chunks(events, fmt, ts)[j];
      var q := c.metadata.idx;
      && q < NumChunks(|events|)
      && c.document == ChunkText(ChunkAt(events, q), fmt)
      && c.document != ""
      && c.metadata.size == |ChunkAt(events, q)|
      && 1 <= c.metadata.size <= ChunkSize
      && c.metadata.ts == ts
      && c.id == ChunkId(q)
  {
    var texts, sizes := ChunkTexts(events, fmt), ChunkSizes(events);
    DocsBeforeDescribe(texts, sizes, ts, NumChunks(|events|));
    assert Describes(texts, sizes, ts, NumChunks(|events|), Chunks(events, fmt, ts)[j]);
  }

  /** Documents appear in increasing chunk order, so their ids are pairwise distinct. */
  lemma ChunkIdsDistinct(events: seq<GoogleEvent>, fmt: Formats, ts: string, j1: nat, j2: nat)
    requires j1 < j2 < |Chunks(events, fmt, ts)|
    ensures Chunks(events, fmt, ts)[j1].metadata.idx < Chunks(events, fmt, ts)[j2].metadata.idx
    ensures Chunks(events, fmt, ts)[j1].id != Chunks(events, fmt, ts)[j2].id
  {
    var texts, sizes := ChunkTexts(events, fmt), ChunkSizes(events);
    var cs := Chunks(events, fmt, ts);
    DocsBeforeIncreasing(texts, sizes, ts, NumChunks(|events|));
    DocsBeforeDescribe(texts, sizes, ts, NumChunks(|events|));
    assert Describes(texts, sizes, ts, NumChunks(|events|), cs[j1]);
    assert Describes(texts, sizes, ts, NumChunks(|events|), cs[j2]);
    PrefixedNumbersDistinct("chunk_", cs[j1].metadata.idx, cs[j2].metadata.idx);
  }

  /**
   * Chunk `k` gets a document exactly when at least one of its events
   * stringifies; a skipped chunk does not shift the numbers of later ones.
   */
  lemma ChunkStoredIff(events: seq<GoogleEvent>, fmt: Formats, ts: string, k: nat)
    requires k < NumChunks(|events|)
    ensures StoresChunk(Chunks(events, fmt, ts), k)
        <==> (exists i :: 0 <= i < |ChunkAt(events, k)| && EventText(ChunkAt(events, k)[i], fmt).Some?)
  {
    DocsBeforeStored(ChunkTexts(events, fmt), ChunkSizes(events), ts, NumChunks(|events|), k);
    ChunkTextEmptyIff(ChunkAt(events, k), fmt);
  }

  /** When every event stringifies, there are ceil(n / 10) documents and document `j` is chunk `j`. */
  lemma AllChunksStored(events: seq<GoogleEvent>, fmt: Formats, ts: string)
    requires forall i :: 0 <= i < |events| ==> EventText(events[i], fmt).Some?
    ensures |Chunks(events, fmt, ts)| == NumChunks(|events|)
    ensures forall j :: 0 <= j < |Chunks(events, fmt, ts)| ==> Chunks(events, fmt, ts)[j].metadata.idx == j
  {
    var texts := ChunkTexts(events, fmt);
    forall q | 0 <= q < NumChunks(|events|) ensures texts[q] != "" {
      var c := ChunkAt(events, q);
      ChunkTextEmptyIff(c, fmt);
      assert c[0] == events[ChunkSize * q];
    }
    DocsBeforeAllStored(texts, ChunkSizes(events), ts, NumChunks(|events|));
  }
}
