/** The client-side Defect entity: eight nullable fields, chaining setters,
    a hand-written JSON serialiser and an equals that collects one result per
    compared field. */
module Defects {
  import opened Wrappers
  import opened Enums
  import opened Json
  import opened Equality

  /** A java.util.Date, identified (as its equals does) by its milliseconds
      since the epoch. */
  datatype Date = Date(millis: int)

  /** The state of a Defect object; None stands for a null field. */
  datatype DefectRecord = DefectRecord(
    url: Option<string>,
    created: Option<Date>,
    modified: Option<Date>,
    summary: Option<string>,
    status: Option<Status>,
    assignedToUrl: Option<string>,
    createdByUrl: Option<string>,
    severity: Option<Severity>)

  /** What toJson throws when a required field is null. */
  const MissingDefectFields: JsonError :=
    MissingRequiredFields("Missing required fields for JSON")

  // The shared date formatter (pattern "yyyy-MM-dd HH:mm:ss", in the
  // formatter's time zone) is the parameter `fmt` wherever a date is printed.

  /** The fields toJson requires: created, createdByUrl and status. */
  predicate HasRequired(d: DefectRecord) {
    d.created.Some? && d.createdByUrl.Some? && d.status.Some?
  }

  /** The fields toJson writes, in the order it writes them: the required
      created, status and createdBy, then each of severity, summary,
      modified and assignedToUrl that is set. The modified field opens with
      a brace instead of the separator. The url is never written. */
  function Segments(d: DefectRecord, fmt: Date -> string): seq<Segment>
    requires HasRequired(d)
  {
    [ Segment(Open, "created", fmt(d.created.value)),
      Segment(Continue, "status", d.status.value.Name()),
      Segment(Continue, "createdBy", d.createdByUrl.value) ]
    + (if d.severity.Some? then [Segment(Continue, "severity", d.severity.value.Name())] else [])
    + (if d.summary.Some? then [Segment(Continue, "summary", d.summary.value)] else [])
    + (if d.modified.Some? then [Segment(Open, "modified", fmt(d.modified.value))] else [])
    + (if d.assignedToUrl.Some? then [Segment(Continue, "assignedToUrl", d.assignedToUrl.value)] else [])
  }

  /** The document toJson returns for a defect, or the exception it throws. */
  function Serialized(d: DefectRecord, fmt: Date -> string): (r: Result<string, JsonError>)
    ensures r.Failure? <==> d.created.None? || d.createdByUrl.None? || d.status.None?
    ensures r.Failure? ==> r.error == MissingDefectFields
  {
    if HasRequired(d) then Success(Render(Segments(d, fmt))) else Failure(MissingDefectFields)
  }

  // The literal texts of the document, piece by piece.

  function Head(created: string, status: Status, createdBy: string): string {
    "{ \"created\" : \"" + created + "\" , \"status\": \"" + status.Name()
    + "\" , \"createdBy\": \"" + createdBy
  }

  function SeverityText(d: DefectRecord): string {
    match d.severity
    case None => ""
    case Some(s) => "\" , \"severity\": \"" + s.Name()
  }

  function SummaryText(d: DefectRecord): string {
    match d.summary
    case None => ""
    case Some(s) => "\" , \"summary\": \"" + s
  }

  function ModifiedText(d: DefectRecord, fmt: Date -> string): string {
    match d.modified
    case None => ""
    case Some(m) => "{ \"modified\" : \"" + fmt(m)
  }

  function AssignedText(d: DefectRecord): string {
    match d.assignedToUrl
    case None => ""
    case Some(a) => "\" , \"assignedToUrl\": \"" + a
  }

  /** The lead texts of the required fields, spelled out. */
  lemma RequiredLeads()
    ensures LeadText(Open, "created") == "{ \"created\" : \""
    ensures LeadText(Continue, "status") == "\" , \"status\": \""
    ensures LeadText(Continue, "createdBy") == "\" , \"createdBy\": \""
  {
  }

  /** The lead texts of the optional fields, spelled out. */
  lemma OptionalLeads()
    ensures LeadText(Continue, "severity") == "\" , \"severity\": \""
    ensures LeadText(Continue, "summary") == "\" , \"summary\": \""
    ensures LeadText(Open, "modified") == "{ \"modified\" : \""
    ensures LeadText(Continue, "assignedToUrl") == "\" , \"assignedToUrl\": \""
  {
  }

  /** A segment that is emitted only when present. */
  lemma ConcatOptional(present: bool, seg: Segment)
    ensures Concat(if present then [seg] else []) == if present then SegmentText(seg) else ""
  {
    if present {
      ConcatPair(seg, seg);
    }
  }

  /** The three required segments spell the head of the document. */
  lemma RequiredText(created: string, status: Status, createdBy: string)
    ensures Concat([
      Segment(Open, "created", created),
      Segment(Continue, "status", status.Name()),
      Segment(Continue, "createdBy", createdBy) ]) == Head(created, status, createdBy)
  {
    RequiredLeads();
    var c := Segment(Open, "created", created);
    var s := Segment(Continue, "status", status.Name());
    var b := Segment(Continue, "createdBy", createdBy);
    ConcatPair(c, s);
    ConcatSnoc([c, s], b);
    assert [c, s] + [b] == [c, s, b];
  }

  /** Each optional segment spells its literal text, or nothing. */
  lemma OptionalTexts(d: DefectRecord, fmt: Date -> string)
    ensures Concat(if d.severity.Some? then [Segment(Continue, "severity", d.severity.value.Name())] else [])
      == SeverityText(d)
    ensures Concat(if d.summary.Some? then [Segment(Continue, "summary", d.summary.value)] else [])
      == SummaryText(d)
    ensures Concat(if d.modified.Some? then [Segment(Open, "modified", fmt(d.modified.value))] else [])
      == ModifiedText(d, fmt)
    ensures Concat(if d.assignedToUrl.Some? then [Segment(Continue, "assignedToUrl", d.assignedToUrl.value)] else [])
      == AssignedText(d)
  {
    OptionalLeads();
    if d.severity.Some? {
      ConcatOptional(true, Segment(Continue, "severity", d.severity.value.Name()));
    }
    if d.summary.Some? {
      ConcatOptional(true, Segment(Continue, "summary", d.summary.value));
    }
    if d.modified.Some? {
      ConcatOptional(true, Segment(Open, "modified", fmt(d.modified.value)));
    }
    if d.assignedToUrl.Some? {
      ConcatOptional(true, Segment(Continue, "assignedToUrl", d.assignedToUrl.value));
    }
  }

  /** The exact text of a successful serialisation, character for character. */
  lemma SerializedText(d: DefectRecord, fmt: Date -> string)
    requires HasRequired(d)
    ensures Serialized(d, fmt) == Success(
      Head(fmt(d.created.value), d.status.value, d.createdByUrl.value)
      + SeverityText(d) + SummaryText(d) + ModifiedText(d, fmt) + AssignedText(d)
      + "\"}")
  {
    var required := [
      Segment(Open, "created", fmt(d.created.value)),
      Segment(Continue, "status", d.status.value.Name()),
      Segment(Continue, "createdBy", d.createdByUrl.value) ];
    var severity := if d.severity.Some? then [Segment(Continue, "severity", d.severity.value.Name())] else [];
    var summary := if d.summary.Some? then [Segment(Continue, "summary", d.summary.value)] else [];
    var modified := if d.modified.Some? then [Segment(Open, "modified", fmt(d.modified.value))] else [];
    var assignee := if d.assignedToUrl.Some? then [Segment(Continue, "assignedToUrl", d.assignedToUrl.value)] else [];
    assert Segments(d, fmt) == required + severity + summary + modified + assignee;
    RequiredText(fmt(d.created.value), d.status.value, d.createdByUrl.value);
    OptionalTexts(d, fmt);
    ConcatAppend(required, severity);
    ConcatAppend(required + severity, summary);
    ConcatAppend(required + severity + summary, modified);
    ConcatAppend(required + severity + summary + modified, assignee);
  }

  /** A serialised defect starts with its created date, status and creator
      and ends with `"}`. */
  lemma SerializedBounds(d: DefectRecord, fmt: Date -> string)
    requires Serialized(d, fmt).Success?
    ensures var s, h := Serialized(d, fmt).value, Head(fmt(d.created.value), d.status.value, d.createdByUrl.value);
      |h| + 2 <= |s| && s[..|h|] == h && s[|s| - 2..] == "\"}"
  {
    SerializedText(d, fmt);
  }

  /** Keys of a segment that is emitted only when present. */
  lemma KeysOptional(present: bool, seg: Segment)
    ensures Keys(if present then [seg] else []) == if present then [seg.key] else []
  {
  }

  /** Exactly the set optional fields are written, each once, in the order
      severity, summary, modified, assignedToUrl, after the required ones. */
  lemma SerializedKeys(d: DefectRecord, fmt: Date -> string)
    requires HasRequired(d)
    ensures Keys(Segments(d, fmt)) == ["created", "status", "createdBy"]
      + (if d.severity.Some? then ["severity"] else [])
      + (if d.summary.Some? then ["summary"] else [])
      + (if d.modified.Some? then ["modified"] else [])
      + (if d.assignedToUrl.Some? then ["assignedToUrl"] else [])
  {
    var required := [
      Segment(Open, "created", fmt(d.created.value)),
      Segment(Continue, "status", d.status.value.Name()),
      Segment(Continue, "createdBy", d.createdByUrl.value) ];
    var severity := Segment(Continue, "severity", if d.severity.Some? then d.severity.value.Name() else "");
    var summary := Segment(Continue, "summary", if d.summary.Some? then d.summary.value else "");
    var modified := Segment(Open, "modified", if d.modified.Some? then fmt(d.modified.value) else "");
    var assignee := Segment(Continue, "assignedToUrl", if d.assignedToUrl.Some? then d.assignedToUrl.value else "");
    var a := if d.severity.Some? then [severity] else [];
    var b := if d.summary.Some? then [summary] else [];
    var c := if d.modified.Some? then [modified] else [];
    var e := if d.assignedToUrl.Some? then [assignee] else [];
    assert Segments(d, fmt) == required + a + b + c + e;
    assert Keys(required) == ["created", "status", "createdBy"];
    KeysOptional(d.severity.Some?, severity);
    KeysOptional(d.summary.Some?, summary);
    KeysOptional(d.modified.Some?, modified);
    KeysOptional(d.assignedToUrl.Some?, assignee);
    KeysAppend(required, a);
    KeysAppend(required + a, b);
    KeysAppend(required + a + b, c);
    KeysAppend(required + a + b + c, e);
  }

  /** The keys a defect document can hold, given which optional fields are
      set. */
  function KeyList(severity: bool, summary: bool, modified: bool, assignee: bool): seq<string> {
    ["created", "status", "createdBy"]
    + (if severity then ["severity"] else [])
    + (if summary then ["summary"] else [])
    + (if modified then ["modified"] else [])
    + (if assignee then ["assignedToUrl"] else [])
  }

  /** A key is in an optional part exactly when that part is present and
      holds that key. */
  lemma InOptional(k: string, key: string, present: bool)
    ensures k in (if present then [key] else []) <==> present && k == key
  {
  }

  /** Each optional key is in the list exactly when its flag is set. */
  lemma KeyListMembers(severity: bool, summary: bool, modified: bool, assignee: bool)
    ensures var ks := KeyList(severity, summary, modified, assignee);
      ("severity" in ks <==> severity) && ("summary" in ks <==> summary)
      && ("modified" in ks <==> modified) && ("assignedToUrl" in ks <==> assignee)
      && "url" !in ks
  {
    var required := ["created", "status", "createdBy"];
    var a := if severity then ["severity"] else [];
    var b := if summary then ["summary"] else [];
    var c := if modified then ["modified"] else [];
    var e := if assignee then ["assignedToUrl"] else [];
    var ks := KeyList(severity, summary, modified, assignee);
    assert ks == required + a + b + c + e;
    forall k | k in ["severity", "summary", "modified", "assignedToUrl", "url"]
      ensures k in ks <==> k in a || k in b || k in c || k in e
    {
      assert k !in required;
    }
    InOptional("severity", "severity", severity);
    InOptional("summary", "summary", summary);
    InOptional("modified", "modified", modified);
    InOptional("assignedToUrl", "assignedToUrl", assignee);
  }

  /** An optional field's key is among the written keys exactly when the
      field is set; the url's never is. */
  lemma SerializedKeysPresent(d: DefectRecord, fmt: Date -> string)
    requires HasRequired(d)
    ensures "severity" in Keys(Segments(d, fmt)) <==> d.severity.Some?
    ensures "summary" in Keys(Segments(d, fmt)) <==> d.summary.Some?
    ensures "modified" in Keys(Segments(d, fmt)) <==> d.modified.Some?
    ensures "assignedToUrl" in Keys(Segments(d, fmt)) <==> d.assignedToUrl.Some?
    ensures "url" !in Keys(Segments(d, fmt))
  {
    SerializedKeys(d, fmt);
    KeyListMembers(d.severity.Some?, d.summary.Some?, d.modified.Some?, d.assignedToUrl.Some?);
    assert Keys(Segments(d, fmt)) == KeyList(d.severity.Some?, d.summary.Some?, d.modified.Some?, d.assignedToUrl.Some?);
  }

  /** Only the first segment and the modified segment open with a brace;
      every other field is introduced by the separator. In the document the
      modified date therefore follows the summary (or whatever precedes it)
      as `{ "modified" : "` and the date, with no separator before it. */
  lemma ModifiedOpensWithBrace(d: DefectRecord, fmt: Date -> string)
    requires HasRequired(d)
    ensures var segs := Segments(d, fmt);
      segs[0].lead == Open &&
      forall i :: 0 < i < |segs| ==> (segs[i].lead == Open <==> segs[i].key == "modified")
    ensures d.modified.Some? ==>
      var s := Serialized(d, fmt).value;
      var at := |Head(fmt(d.created.value), d.status.value, d.createdByUrl.value) + SeverityText(d) + SummaryText(d)|;
      var m := "{ \"modified\" : \"" + fmt(d.modified.value);
      at + |m| <= |s| && s[at..at + |m|] == m
  {
    SerializedText(d, fmt);
  }

  /** The document depends on every field but the url. */
  lemma SerializedIgnoresUrl(d: DefectRecord, url: Option<string>, fmt: Date -> string)
    ensures Serialized(d.(url := url), fmt) == Serialized(d, fmt)
  {
  }

  /** Defect.equals: created, status, summary, modified, url, createdByUrl
      and assignedToUrl compared with NullOrEqual; the severity takes no
      part. */
  function Equal(a: DefectRecord, b: DefectRecord): (eq: bool)
    ensures eq <==>
      a.created == b.created && a.status == b.status && a.summary == b.summary
      && a.modified == b.modified && a.url == b.url
      && a.createdByUrl == b.createdByUrl && a.assignedToUrl == b.assignedToUrl
  {
    NullOrEqual(a.created, b.created)
    && NullOrEqual(a.status, b.status)
    && NullOrEqual(a.summary, b.summary)
    && NullOrEqual(a.modified, b.modified)
    && NullOrEqual(a.url, b.url)
    && NullOrEqual(a.createdByUrl, b.createdByUrl)
    && NullOrEqual(a.assignedToUrl, b.assignedToUrl)
  }

  /** Two defects that differ only in their severity are equal. */
  lemma EqualIgnoresSeverity(d: DefectRecord, s: Option<Severity>)
    ensures Equal(d, d.(severity := s))
  {
  }

  /** equals is an equivalence relation. */
  lemma EqualIsEquivalence(a: DefectRecord, b: DefectRecord, c: DefectRecord)
    ensures Equal(a, a)
    ensures Equal(a, b) == Equal(b, a)
    ensures Equal(a, b) && Equal(b, c) ==> Equal(a, c)
  {
  }

  /** equals and toJson disagree both ways: equals ignores the severity
      that toJson writes, and compares the url that toJson leaves out. */
  lemma EqualityAndDocumentDisagree(d: DefectRecord, s: Severity, url: string, fmt: Date -> string)
    requires HasRequired(d)
    ensures Equal(d.(severity := None), d.(severity := Some(s)))
      && Serialized(d.(severity := None), fmt) != Serialized(d.(severity := Some(s)), fmt)
    ensures !Equal(d.(url := None), d.(url := Some(url)))
      && Serialized(d.(url := None), fmt) == Serialized(d.(url := Some(url)), fmt)
  {
    var plain, rated := d.(severity := None), d.(severity := Some(s));
    SerializedText(plain, fmt);
    SerializedText(rated, fmt);
    assert |Serialized(plain, fmt).value| < |Serialized(rated, fmt).value|;
  }

  class Defect {
    var url: Option<string>
    var created: Option<Date>
    var modified: Option<Date>
    var summary: Option<string>
    var status: Option<Status>
    var assignedToUrl: Option<string>
    var createdByUrl: Option<string>
    var severity: Option<Severity>

    function Value(): DefectRecord
      reads this
    {
      DefectRecord(url, created, modified, summary, status, assignedToUrl, createdByUrl, severity)
    }

    /** new Defect(): every field null. */
    constructor ()
      ensures Value() == DefectRecord(None, None, None, None, None, None, None, None)
    {
      url, created, modified, summary := None, None, None, None;
      status, assignedToUrl, createdByUrl, severity := None, None, None, None;
    }

    method SetUrl(url: Option<string>) returns (self: Defect)
      modifies this
      ensures self == this && Value() == old(Value()).(url := url)
    {
      this.url := url;
      self := this;
    }

    method SetCreated(created: Option<Date>) returns (self: Defect)
      modifies this
      ensures self == this && Value() == old(Value()).(created := created)
    {
      this.created := created;
      self := this;
    }

    method SetModified(modified: Option<Date>) returns (self: Defect)
      modifies this
      ensures self == this && Value() == old(Value()).(modified := modified)
    {
      this.modified := modified;
      self := this;
    }

    method SetSummary(summary: Option<string>) returns (self: Defect)
      modifies this
      ensures self == this && Value() == old(Value()).(summary := summary)
    {
      this.summary := summary;
      self := this;
    }

    method SetStatus(status: Option<Status>) returns (self: Defect)
      modifies this
      ensures self == this && Value() == old(Value()).(status := status)
    {
      this.status := status;
      self := this;
    }

    method SetAssignedToUrl(assignedToUrl: Option<string>) returns (self: Defect)
      modifies this
      ensures self == this && Value() == old(Value()).(assignedToUrl := assignedToUrl)
    {
      this.assignedToUrl := assignedToUrl;
      self := this;
    }

    method SetCreatedByUrl(createdByUrl: Option<string>) returns (self: Defect)
      modifies this
      ensures self == this && Value() == old(Value()).(createdByUrl := createdByUrl)
    {
      this.createdByUrl := createdByUrl;
      self := this;
    }

    method SetSeverity(severity: Option<Severity>) returns (self: Defect)
      modifies this
      ensures self == this && Value() == old(Value()).(severity := severity)
    {
      this.severity := severity;
      self := this;
    }

    /** toJson: required fields checked first, then appended one by one to
        a builder, then each optional field that is set, then the closing
        text. `fmt` is the shared date formatter. */
    method ToJson(fmt: Date -> string) returns (r: Result<string, JsonError>)
      ensures r == Serialized(Value(), fmt)
    {
      var sb := "";
      if created.None? || createdByUrl.None? || status.None? {
        return Failure(MissingDefectFields);
      }
      sb := sb + "{ \"created\" : \"";
      sb := sb + fmt(created.value);
      sb := sb + "\" , \"status\": \"";
      sb := sb + status.value.Name();
      sb := sb + "\" , \"createdBy\": \"";
      sb := sb + createdByUrl.value;
      ghost var d := Value();
      ghost var before := sb;
      assert sb == Head(fmt(d.created.value), d.status.value, d.createdByUrl.value);

      if severity.Some? {
        sb := sb + "\" , \"severity\": \"";
        sb := sb + severity.value.Name();
        AppendAssoc(before, "\" , \"severity\": \"", severity.value.Name());
      } else {
        assert sb == before + "";
      }
      assert sb == before + SeverityText(d);
      before := sb;

      if summary.Some? {
        sb := sb + "\" , \"summary\": \"";
        sb := sb + summary.value;
        AppendAssoc(before, "\" , \"summary\": \"", summary.value);
      } else {
        assert sb == before + "";
      }
      assert sb == before + SummaryText(d);
      before := sb;

      if modified.Some? {
        sb := sb + "{ \"modified\" : \"";
        sb := sb + fmt(modified.value);
        AppendAssoc(before, "{ \"modified\" : \"", fmt(modified.value));
      } else {
        assert sb == before + "";
      }
      assert sb == before + ModifiedText(d, fmt);
      before := sb;

      if assignedToUrl.Some? {
        sb := sb + "\" , \"assignedToUrl\": \"";
        sb := sb + assignedToUrl.value;
        AppendAssoc(before, "\" , \"assignedToUrl\": \"", assignedToUrl.value);
      } else {
        assert sb == before + "";
      }
      assert sb == before + AssignedText(d);

      sb := sb + "\"}";
      SerializedText(d, fmt);
      return Success(sb);
    }

    /** equals: one comparison per field collected in a list, equal when
        none of them failed. */
    method Equals(rhs: Defect) returns (eq: bool)
      ensures eq == Equal(Value(), rhs.Value())
    {
      var tests: seq<bool> := [];
      tests := tests + [NullOrEqual(this.created, rhs.created)];
      tests := tests + [NullOrEqual(this.status, rhs.status)];
      tests := tests + [NullOrEqual(this.summary, rhs.summary)];
      tests := tests + [NullOrEqual(this.modified, rhs.modified)];
      tests := tests + [NullOrEqual(this.url, rhs.url)];
      tests := tests + [NullOrEqual(this.createdByUrl, rhs.createdByUrl)];
      tests := tests + [NullOrEqual(this.assignedToUrl, rhs.assignedToUrl)];
      eq := false !in tests;
    }
  }

  /** The sample defect the tests build by chaining setters on a new
      object; the creation time and the creator's url are parameters. */
  method SampleDefect(now: Date, userUrl: string) returns (d: Defect)
    ensures fresh(d)
    ensures d.Value() == DefectRecord(None, Some(now), None, Some("Unfortunately, Notes has Stopped..."),
      Some(CREATED), Some(userUrl), Some(userUrl), Some(TRIVIAL))
  {
    var created := new Defect();
    var a := created.SetSummary(Some("Unfortunately, Notes has Stopped..."));
    var b := a.SetCreated(Some(now));
    var c := b.SetCreatedByUrl(Some(userUrl));
    var e := c.SetAssignedToUrl(Some(userUrl));
    var f := e.SetSeverity(Some(TRIVIAL));
    d := f.SetStatus(Some(CREATED));
  }
}
