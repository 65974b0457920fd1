/** The client-side User entity: four nullable fields, chaining setters, a
    hand-written JSON serialiser and a null-tolerant equals. */
module Users {
  import opened Wrappers
  import opened Enums
  import opened Json
  import opened Equality

  /** The state of a User object; None stands for a null field. */
  datatype UserRecord = UserRecord(
    url: Option<string>,
    name: Option<string>,
    imageUrl: Option<string>,
    userType: Option<UserType>)

  /** What toJson throws when a required field is null. */
  const MissingUserFields: JsonError :=
    MissingRequiredFields("Missing required fields for JSON user")

  /** The fields toJson writes, in the order it writes them: the required
      name and userType, then imageUrl when it is set. The url is never
      written. */
  function Segments(u: UserRecord): seq<Segment>
    requires u.name.Some? && u.userType.Some?
  {
    [Segment(Open, "name", u.name.value), Segment(Continue, "userType", u.userType.value.Name())]
    + (if u.imageUrl.Some? then [Segment(Continue, "imageUrl", u.imageUrl.value)] else [])
  }

  /** The document toJson returns for a user, or the exception it throws. */
  function Serialized(u: UserRecord): (r: Result<string, JsonError>)
    ensures r.Failure? <==> u.name.None? || u.userType.None?
    ensures r.Failure? ==> r.error == MissingUserFields
  {
    if u.name.None? || u.userType.None? then Failure(MissingUserFields)
    else Success(Render(Segments(u)))
  }

  /** The text that opens every user document. */
  function Head(name: string, userType: UserType): string {
    "{ \"name\" : \"" + name + "\" , \"userType\": \"" + userType.Name()
  }

  /** The lead texts of the three user fields, spelled out. */
  lemma UserLeads()
    ensures LeadText(Open, "name") == "{ \"name\" : \""
    ensures LeadText(Continue, "userType") == "\" , \"userType\": \""
    ensures LeadText(Continue, "imageUrl") == "\" , \"imageUrl\": \""
  {
  }

  /** The exact text of a successful serialisation, character for character. */
  lemma SerializedText(u: UserRecord)
    requires u.name.Some? && u.userType.Some?
    ensures Serialized(u) == Success(
      Head(u.name.value, u.userType.value)
      + (if u.imageUrl.Some? then "\" , \"imageUrl\": \"" + u.imageUrl.value else "")
      + "\"}")
  {
    UserLeads();
    var typeName := u.userType.value.Name();
    var name := Segment(Open, "name", u.name.value);
    var userType := Segment(Continue, "userType", typeName);
    ConcatPair(name, userType);
    var head := Concat([name, userType]);
    assert head == Head(u.name.value, u.userType.value);
    if u.imageUrl.Some? {
      var image := Segment(Continue, "imageUrl", u.imageUrl.value);
      assert Segments(u) == [name, userType] + [image];
      ConcatSnoc([name, userType], image);
      assert Render(Segments(u)) == head + SegmentText(image) + Close;
    } else {
      assert Segments(u) == [name, userType];
      assert Render(Segments(u)) == head + "" + Close;
    }
  }

  /** A serialised user starts with its name and type and ends with `"}`. */
  lemma SerializedBounds(u: UserRecord)
    requires Serialized(u).Success?
    ensures var s, h := Serialized(u).value, Head(u.name.value, u.userType.value);
      |h| + 2 <= |s| && s[..|h|] == h && s[|s| - 2..] == "\"}"
  {
    SerializedText(u);
  }

  /** The imageUrl segment follows the userType value directly when the
      field is set; when it is not, nothing lies between that value and the
      closing text. */
  lemma ImageUrlSegment(u: UserRecord)
    requires Serialized(u).Success?
    ensures var s, h := Serialized(u).value, Head(u.name.value, u.userType.value);
      match u.imageUrl
      case Some(img) =>
        var seg := "\" , \"imageUrl\": \"" + img;
        |h| + |seg| <= |s| && s[|h|..|h| + |seg|] == seg
      case None => |s| == |h| + 2
  {
    SerializedText(u);
  }

  /** The document depends on name, userType and imageUrl only; in
      particular the url never reaches it. */
  lemma SerializedIgnoresUrl(u: UserRecord, v: UserRecord)
    requires u.name == v.name && u.userType == v.userType && u.imageUrl == v.imageUrl
    ensures Serialized(u) == Serialized(v)
  {
  }

  /** Values are copied unescaped, so a quote inside a name or an image
      URL can forge the fields that follow: for any values, the two users
      below are different, not equal, and give the same document. */
  lemma SerializedNotInjective(x: string, z: string, t1: UserType, t2: UserType)
    ensures var a := UserRecord(None, Some(x), Some(z + "\" , \"userType\": \"" + t2.Name()), Some(t1));
            var b := UserRecord(None, Some(x + "\" , \"userType\": \"" + t1.Name() + "\" , \"imageUrl\": \"" + z), None, Some(t2));
      a != b && !Equal(a, b) && Serialized(a).Success? && Serialized(a) == Serialized(b)
  {
    var open, typeLead, imageLead := "{ \"name\" : \"", "\" , \"userType\": \"", "\" , \"imageUrl\": \"";
    var n1, n2 := t1.Name(), t2.Name();
    var forgedImage := z + typeLead + n2;
    var forgedName := x + typeLead + n1 + imageLead + z;
    var a := UserRecord(None, Some(x), Some(forgedImage), Some(t1));
    var b := UserRecord(None, Some(forgedName), None, Some(t2));
    var head := open + x + typeLead + n1;
    var text := head + imageLead + z + typeLead + n2;

    SerializedText(a);
    AppendAssoc(head, imageLead, forgedImage);
    AppendAssoc(head + imageLead, z + typeLead, n2);
    AppendAssoc(head + imageLead, z, typeLead);
    assert Serialized(a).value == text + Close;

    SerializedText(b);
    AppendAssoc(open, x + typeLead + n1 + imageLead, z);
    AppendAssoc(open, x + typeLead + n1, imageLead);
    AppendAssoc(open, x + typeLead, n1);
    AppendAssoc(open, x, typeLead);
    assert open + forgedName == head + imageLead + z;
    assert Head(forgedName, t2) + "" == text;
    assert Serialized(b).value == text + Close;
    assert |forgedName| > |x|;
  }

  /** User.equals: url, name and imageUrl compared with NullOrEqual; the
      userType takes no part. */
  function Equal(a: UserRecord, b: UserRecord): (eq: bool)
    ensures eq <==> a.url == b.url && a.name == b.name && a.imageUrl == b.imageUrl
  {
    NullOrEqual(a.url, b.url)
    && NullOrEqual(a.name, b.name)
    && NullOrEqual(a.imageUrl, b.imageUrl)
  }

  /** Two users that differ only in their type are equal. */
  lemma EqualIgnoresUserType(u: UserRecord, t: Option<UserType>)
    ensures Equal(u, u.(userType := t))
  {
  }

  /** equals is an equivalence relation. */
  lemma EqualIsEquivalence(a: UserRecord, b: UserRecord, c: UserRecord)
    ensures Equal(a, a)
    ensures Equal(a, b) == Equal(b, a)
    ensures Equal(a, b) && Equal(b, c) ==> Equal(a, c)
  {
  }

  /** equals and toJson disagree: equal users can serialise differently,
      because equals ignores the userType that toJson writes. */
  lemma EqualUsersSerializeDifferently()
    ensures var a := UserRecord(None, Some("Bar"), None, Some(DEVELOPER));
      Equal(a, a.(userType := Some(CUSTOMER)))
      && Serialized(a) != Serialized(a.(userType := Some(CUSTOMER)))
  {
    var a := UserRecord(None, Some("Bar"), None, Some(DEVELOPER));
    var b := a.(userType := Some(CUSTOMER));
    SerializedText(a);
    SerializedText(b);
    assert |Serialized(a).value| != |Serialized(b).value|;
  }

  class User {
    var url: Option<string>
    var name: Option<string>
    var imageUrl: Option<string>
    var userType: Option<UserType>

    function Value(): UserRecord
      reads this
    {
      UserRecord(url, name, imageUrl, userType)
    }

    /** new User(): every field null. */
    constructor ()
      ensures Value() == UserRecord(None, None, None, None)
    {
      url, name, imageUrl, userType := None, None, None, None;
    }

    method SetUrl(url: Option<string>) returns (self: User)
      modifies this
      ensures self == this && Value() == old(Value()).(url := url)
    {
      this.url := url;
      self := this;
    }

    method SetName(name: Option<string>) returns (self: User)
      modifies this
      ensures self == this && Value() == old(Value()).(name := name)
    {
      this.name := name;
      self := this;
    }

    method SetImageUrl(imageUrl: Option<string>) returns (self: User)
      modifies this
      ensures self == this && Value() == old(Value()).(imageUrl := imageUrl)
    {
      this.imageUrl := imageUrl;
      self := this;
    }

    method SetUserType(userType: Option<UserType>) returns (self: User)
      modifies this
      ensures self == this && Value() == old(Value()).(userType := userType)
    {
      this.userType := userType;
      self := this;
    }

    /** toJson: required fields checked first, then appended one by one to
        a builder, then the optional imageUrl, then the closing text. */
    method ToJson() returns (r: Result<string, JsonError>)
      ensures r == Serialized(Value())
    {
      var sb := "";
      if name.None? || userType.None? {
        return Failure(MissingUserFields);
      }
      sb := sb + "{ \"name\" : \"";
      sb := sb + name.value;
      sb := sb + "\" , \"userType\": \"";
      sb := sb + userType.value.Name();
      assert sb == Head(name.value, userType.value);
      ghost var head := sb;
      if imageUrl.Some? {
        sb := sb + "\" , \"imageUrl\": \"";
        sb := sb + imageUrl.value;
        assert sb == head + ("\" , \"imageUrl\": \"" + imageUrl.value);
      } else {
        assert sb == head + "";
      }
      sb := sb + "\"}";
      SerializedText(Value());
      return Success(sb);
    }
  }

  /** The sample user the tests build by chaining setters on a new object,
      and the document it serialises to: each setter returns the object it
      changed, so the chain accumulates all three fields. */
  method SampleUser() returns (u: User, json: Result<string, JsonError>)
    ensures fresh(u)
    ensures u.Value() == UserRecord(None, Some("Bar"), Some("http://example.com/bar"), Some(DEVELOPER))
    ensures json == Success("{ \"name\" : \"" + "Bar" + "\" , \"userType\": \"" + "DEVELOPER"
      + ("\" , \"imageUrl\": \"" + "http://example.com/bar") + "\"}")
  {
    var created := new User();
    var named := created.SetName(Some("Bar"));
    var pictured := named.SetImageUrl(Some("http://example.com/bar"));
    u := pictured.SetUserType(Some(DEVELOPER));
    json := u.ToJson();
    SerializedText(u.Value());
  }
}
