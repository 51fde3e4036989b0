/**
  The output formatter: a Whisper transcription result becomes the ordered
  list of {timestamp: {start, end}, sentence} records that is written as JSON.
 */
module Format {
  import opened Wrappers
  import opened PyStr

  /** One segment of a transcription: start and end in seconds, and its text. */
  datatype Segment = Segment(start: real, end: real, text: string)

  /** A transcription result mapping: its "segments" entry when it has one, and
      the names of its other keys (Whisper also returns "text" and "language"). */
  datatype Transcription = Transcription(segments: Option<seq<Segment>>, otherKeys: set<string>)

  /** A Python mapping holds each key once: "segments" is not also among the
      other keys. */
  predicate WellFormed(t: Transcription)
  {
    "segments" !in t.otherKeys
  }

  datatype Timestamp = Timestamp(start: real, end: real)

  /** One output record. */
  datatype Record = Record(timestamp: Timestamp, sentence: string)

  /** Python truthiness of the result: None and the empty mapping are false. */
  predicate Truthy(r: Option<Transcription>)
  {
    r.Some? && (r.value.segments.Some? || r.value.otherKeys != {})
  }

  /** The record for one segment. `round2` stands for round(x, 2) on the
      host's floats, which is left uninterpreted. */
  function FormatSegment(s: Segment, round2: real -> real): Record
  {
    Record(Timestamp(round2(s.start), round2(s.end)), Strip(s.text))
  }

  /** The records for a list of segments: one per segment, in the same order. */
  function FormatAll(segs: seq<Segment>, round2: real -> real): (rs: seq<Record>)
    ensures |rs| == |segs|
  {
    seq(|segs|, i requires 0 <= i < |segs| => FormatSegment(segs[i], round2))
  }

  /** What format_output returns: nothing for a falsy result or one without
      "segments", the records of its segments otherwise. */
  function Formatted(r: Option<Transcription>, round2: real -> real): seq<Record>
  {
    if !Truthy(r) || r.value.segments.None? then [] else FormatAll(r.value.segments.value, round2)
  }

  /** format_output: builds the record list with one append per segment. */
  method FormatOutput(r: Option<Transcription>, round2: real -> real) returns (out: seq<Record>)
    ensures r.None? || r.value.segments.None? ==> out == []
    ensures r.Some? && r.value.segments.Some? ==>
      |out| == |r.value.segments.value|
      && forall i :: 0 <= i < |out| ==> out[i] == FormatSegment(r.value.segments.value[i], round2)
    ensures out == Formatted(r, round2)
  {
    out := [];
    if !Truthy(r) || r.value.segments.None? {
      return;
    }
    var segs := r.value.segments.value;
    for i := 0 to |segs|
      invariant |out| == i
      invariant forall k :: 0 <= k < i ==> out[k] == FormatSegment(segs[k], round2)
    {
      out := out + [FormatSegment(segs[i], round2)];
    }
  }

  /** Formatting a concatenation formats each part in turn: records keep the
      order of their segments. */
  lemma FormatAllAppend(a: seq<Segment>, b: seq<Segment>, round2: real -> real)
    ensures FormatAll(a + b, round2) == FormatAll(a, round2) + FormatAll(b, round2)
  {
  }

  /** Record i is built from segment i alone: its start from that segment's
      start, its end from that segment's end, its sentence from its text with
      the surrounding whitespace removed; the sentence has no whitespace at
      either end and stripping it again changes nothing. */
  lemma RecordOfSegment(segs: seq<Segment>, round2: real -> real, i: int)
    requires 0 <= i < |segs|
    ensures FormatAll(segs, round2)[i].timestamp == Timestamp(round2(segs[i].start), round2(segs[i].end))
    ensures IsStripOf(FormatAll(segs, round2)[i].sentence, segs[i].text)
    ensures var s := FormatAll(segs, round2)[i].sentence;
      (s != [] ==> !IsSpace(s[0]) && !IsSpace(s[|s| - 1])) && Strip(s) == s
  {
    StripIsTrim(segs[i].text);
    StripIdempotent(segs[i].text);
  }

  /** Two segment lists that agree at i yield the same record at i: no other
      segment's values are used. */
  lemma RecordIsLocal(a: seq<Segment>, b: seq<Segment>, round2: real -> real, i: int)
    requires 0 <= i < |a| && 0 <= i < |b| && a[i] == b[i]
    ensures FormatAll(a, round2)[i] == FormatAll(b, round2)[i]
  {
  }

  /** The empty cases: no result, an empty result, or one without "segments"
      gives no records; a result with an empty segment list too. */
  lemma FormattedEmpty(r: Option<Transcription>, round2: real -> real)
    ensures !Truthy(r) || r.value.segments.None? || r.value.segments == Some([]) <==> Formatted(r, round2) == []
  {
  }
}
