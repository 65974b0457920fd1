/** The shape of the documents both toJson methods write. Each emitted field
    is a segment: a lead text naming the key, then the field's value copied
    verbatim (nothing is escaped). The document is the concatenation of the
    segments followed by the closing text `"}`. */
module Json {

  /** The two lead texts the serialisers use. Open is the document opening
      `{ "key" : "`; Continue is the separator `" , "key": "` that closes the
      previous value and opens the next. */
  datatype Lead = Open | Continue

  datatype Segment = Segment(lead: Lead, key: string, value: string)

  /** Why a serialiser refused: the message of the IOException it throws. */
  datatype JsonError = MissingRequiredFields(message: string)

  function LeadText(lead: Lead, key: string): string
  {
    match lead
    case Open => "{ \"" + key + "\" : \""
    case Continue => "\" , \"" + key + "\": \""
  }

  function SegmentText(seg: Segment): string {
    LeadText(seg.lead, seg.key) + seg.value
  }

  /** The text of a list of segments, in order. */
  function Concat(segs: seq<Segment>): string {
    if segs == [] then "" else SegmentText(segs[0]) + Concat(segs[1..])
  }

  /** The text that ends every document. */
  const Close: string := "\"}"

  function Render(segs: seq<Segment>): (s: string)
    ensures |s| >= |Close| && s[|s| - |Close|..] == Close
  {
    Concat(segs) + Close
  }

  function Keys(segs: seq<Segment>): (ks: seq<string>)
    ensures |ks| == |segs|
    ensures forall i :: 0 <= i < |segs| ==> ks[i] == segs[i].key
  {
    if segs == [] then [] else [segs[0].key] + Keys(segs[1..])
  }

  /** Concatenation distributes over splitting the segment list, so a
      document built by successive appends is the text of its segments. */
  lemma {:induction false} ConcatAppend(a: seq<Segment>, b: seq<Segment>)
    ensures Concat(a + b) == Concat(a) + Concat(b)
  {
    if a == [] {
      assert a + b == b;
    } else {
      calc {
        Concat(a + b);
        SegmentText(a[0]) + Concat((a + b)[1..]);
        { assert (a + b)[1..] == a[1..] + b; }
        SegmentText(a[0]) + Concat(a[1..] + b);
        { ConcatAppend(a[1..], b); }
        SegmentText(a[0]) + (Concat(a[1..]) + Concat(b));
      }
    }
  }

  /** Appending one segment appends its text. */
  lemma ConcatSnoc(a: seq<Segment>, seg: Segment)
    ensures Concat(a + [seg]) == Concat(a) + SegmentText(seg)
  {
    ConcatAppend(a, [seg]);
    assert Concat([seg]) == SegmentText(seg) + Concat([]);
  }

  /** Regrouping appended texts. */
  lemma AppendAssoc(a: string, b: string, c: string)
    ensures a + (b + c) == (a + b) + c
  {
  }

  /** The text of a one- or two-segment list. */
  lemma ConcatPair(a: Segment, b: Segment)
    ensures Concat([a]) == SegmentText(a)
    ensures Concat([a, b]) == SegmentText(a) + SegmentText(b)
  {
    assert [a][1..] == [] && [b][1..] == [];
    assert Concat([a]) == SegmentText(a) + "" == SegmentText(a);
    assert Concat([b]) == SegmentText(b);
    assert [a, b][1..] == [b];
    assert Concat([a, b]) == SegmentText(a) + Concat([b]);
  }

  /** Keys of a concatenation. */
  lemma KeysAppend(a: seq<Segment>, b: seq<Segment>)
    ensures Keys(a + b) == Keys(a) + Keys(b)
  {
  }
}
