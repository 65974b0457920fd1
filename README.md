# User and Defect client entities, in Dafny

This project models the client-side entity classes of a small defect tracker's
test suite. `User` and `Defect` are plain Java objects. Their fields are
nullable. Each setter changes one field and returns the object, so calls can
be chained. Each class has a hand-written `toJson` serialiser that writes its
fields into a `StringBuilder`, and an `equals` built on a null-tolerant helper
`nullOrEqual`.

Layout, one module per concern:

- `wrappers.dfy` (`Wrappers`): `Option` stands for a nullable reference and
  `Result` for "returns a value or throws".
- `enums.dfy` (`Enums`): `UserType`, `Status` and `Severity`, each with the
  name it prints.
- `equality.dfy` (`Equality`): `NullOrEqual`. Both classes carry an identical
  private copy of it, so it is defined once here.
- `json.dfy` (`Json`): the document shape shared by both serialisers. A
  document is a list of segments followed by the closing text `"}`. A segment
  is a lead text plus a value copied verbatim. There are two kinds of lead:
  `Open`, written `{ "key" : "`, opens with a brace and has a space on both
  sides of the colon. `Continue`, written `" , "key": "`, first closes the
  previous value with a quote and a comma, and has no space before the colon.
- `users.dfy` (`Users`) and `defects.dfy` (`Defects`): each has a record
  datatype with the object's state (`UserRecord`, `DefectRecord`). Each has a
  class whose fields the setters change. Each has a declarative `Segments`
  function listing what `toJson` writes and in what order, and a
  `Serialized` function built from it. `ToJson` is an imperative method that
  appends piece by piece, like the Java, and its `ensures` ties the result to
  `Serialized`. A lemma `SerializedText` then spells out the exact
  characters of the document.

The date formatter is the parameter `fmt: Date -> string`. A `Date` is
identified by its milliseconds, which is how `java.util.Date.equals` compares
dates. Enum constants print as their names, the default `Enum.toString`.

The code's quirks are kept as they are:

- nothing in a value is escaped;
- the modified field opens with `{ "modified" : "` instead of a separator;
- `User.equals` ignores `userType`;
- `Defect.equals` ignores `severity`.

Lemmas show what follows from these quirks. `Users.SerializedNotInjective`
shows that two different users can give the same document.
`Users.EqualUsersSerializeDifferently` and
`Defects.EqualityAndDocumentDisagree` show that `equals` and `toJson` can
disagree.

Facts about the code that shape the model:

- `toJson` checks only name and userType (user), or created, createdByUrl
  and status (defect). When one is null it throws an `IOException` with a
  fixed message.
- The enumerations include a `BADVALUE` constant, which the tests use
  (`UserType.BADVALUE`, `Status.BADVALUE`, `Severity.BADVALUE`).
- No decoder is modelled, so no round-trip is stated (see "Left out").

## Model

| member | source | states |
|---|---|---|
| `Enums.NamesInjective` | src/test/java/TestServer.java:314-402 | each constant prints as its own name (the `Name` bodies), and distinct constants of each enumeration print differently |
| `Equality.NullOrEqual` | src/test/java/User.java:125-134 | true when both are null; false when exactly one is null (the null receiver's NPE is caught as false); otherwise value equality. Defect.java:181-191 is the same helper |
| `Equality.NullOrEqualIsEquality` | src/test/java/Defect.java:181-191 | `nullOrEqual(a, b)` holds exactly when the two optional values are equal |
| `Users.UserLeads` | src/test/java/User.java:107-115 | the name, userType and imageUrl leads are exactly `{ "name" : "`, `" , "userType": "` and `" , "imageUrl": "` |
| `Defects.RequiredLeads` | src/test/java/Defect.java:150-154 | the created, status and createdBy leads are exactly `{ "created" : "`, `" , "status": "` and `" , "createdBy": "` |
| `Defects.OptionalLeads` | src/test/java/Defect.java:158-172 | the severity, summary, modified and assignedToUrl leads are exactly `" , "severity": "`, `" , "summary": "`, `{ "modified" : "` and `" , "assignedToUrl": "` |
| `Json.Render` | src/test/java/Defect.java:175 | every document ends with `"}` |
| `Json.ConcatAppend` | src/test/java/User.java:104-121 | text built by successive appends is the text of the segments, in order (by induction) |
| `Users.Serialized` | src/test/java/User.java:106 | user `toJson` fails exactly when name or userType is null, with the message "Missing required fields for JSON user", and then yields no document |
| `Users.SerializedText` | src/test/java/User.java:107-120 | a successful document is exactly `{ "name" : "` name `" , "userType": "` type, then `" , "imageUrl": "` image if set, then `"}` |
| `Users.SerializedBounds` | src/test/java/User.java:107-120 | a successful document starts with the name and type head and ends with `"}` |
| `Users.ImageUrlSegment` | src/test/java/User.java:114-117 | when imageUrl is set, its segment sits right after the userType value; when it is not, only `"}` follows the head |
| `Users.SerializedIgnoresUrl` | src/test/java/User.java:103-121 | the document depends only on name, userType and imageUrl, never on url |
| `Users.SerializedNotInjective` | src/test/java/User.java:108-116 | because values are not escaped, for any strings and types two different, non-equal users serialise to the same document |
| `Users.Equal` | src/test/java/User.java:137-142 | `equals` holds exactly when url, name and imageUrl coincide |
| `Users.EqualIgnoresUserType` | src/test/java/User.java:137-142 | users differing only in userType are equal |
| `Users.EqualIsEquivalence` | src/test/java/User.java:137-142 | `equals` is reflexive, symmetric and transitive |
| `Users.EqualUsersSerializeDifferently` | src/test/java/User.java:103-142 | two equal users (DEVELOPER vs CUSTOMER) serialise differently |
| `Users.User.constructor` | src/test/java/User.java:56-59 | a new user has every field null |
| `Users.User.SetUrl` | src/test/java/User.java:67-70 | sets url only and returns the same object |
| `Users.User.SetName` | src/test/java/User.java:76-79 | sets name only and returns the same object |
| `Users.User.SetImageUrl` | src/test/java/User.java:85-88 | sets imageUrl only and returns the same object |
| `Users.User.SetUserType` | src/test/java/User.java:94-97 | sets userType only and returns the same object |
| `Users.User.ToJson` | src/test/java/User.java:103-122 | the builder's appends under the required-field check produce exactly `Serialized` of the object's state |
| `Users.SampleUser` | src/test/java/TestServer.java:106-109 | chaining setters on a new user accumulates all three fields, and the result serialises to the expected document |
| `Defects.Serialized` | src/test/java/Defect.java:147-149 | defect `toJson` fails exactly when created, createdByUrl or status is null, with the message "Missing required fields for JSON" |
| `Defects.RequiredText` | src/test/java/Defect.java:150-155 | the required segments spell `{ "created" : "` fmt(created) `" , "status": "` status `" , "createdBy": "` createdBy |
| `Defects.OptionalTexts` | src/test/java/Defect.java:157-174 | each optional segment spells its literal lead and value when set, and nothing otherwise |
| `Defects.SerializedText` | src/test/java/Defect.java:145-177 | a successful document is exactly head, severity, summary, modified and assignedToUrl texts (each only if set), then `"}` |
| `Defects.SerializedBounds` | src/test/java/Defect.java:150-175 | a successful document starts with the created/status/createdBy head and ends with `"}` |
| `Defects.SerializedKeys` | src/test/java/Defect.java:157-174 | the keys written are created, status and createdBy, then the set optional fields in the order severity, summary, modified, assignedToUrl |
| `Defects.KeyListMembers` | src/test/java/Defect.java:157-174 | in that key list, each optional key occurs exactly when its field is set, and url never does |
| `Defects.SerializedKeysPresent` | src/test/java/Defect.java:157-174 | an optional key is written exactly when its field is set; url is never written |
| `Defects.ModifiedOpensWithBrace` | src/test/java/Defect.java:167-170 | apart from the first segment only modified opens with a brace; in the document the modified date is introduced by literally `{ "modified" : "` right after the summary part |
| `Defects.SerializedIgnoresUrl` | src/test/java/Defect.java:145-177 | changing the url never changes the document |
| `Defects.Equal` | src/test/java/Defect.java:194-207 | `equals` holds exactly when created, status, summary, modified, url, createdByUrl and assignedToUrl coincide |
| `Defects.EqualIgnoresSeverity` | src/test/java/Defect.java:194-207 | defects differing only in severity are equal |
| `Defects.EqualIsEquivalence` | src/test/java/Defect.java:194-207 | `equals` is reflexive, symmetric and transitive |
| `Defects.EqualityAndDocumentDisagree` | src/test/java/Defect.java:145-207 | defects equal up to severity serialise differently; defects that differ only in url are not equal yet serialise the same |
| `Defects.Defect.constructor` | src/test/java/Defect.java:56-63 | a new defect has every field null |
| `Defects.Defect.SetUrl` | src/test/java/Defect.java:72-75 | sets url only and returns the same object |
| `Defects.Defect.SetCreated` | src/test/java/Defect.java:81-84 | sets created only and returns the same object |
| `Defects.Defect.SetModified` | src/test/java/Defect.java:90-93 | sets modified only and returns the same object |
| `Defects.Defect.SetSummary` | src/test/java/Defect.java:99-103 | sets summary only and returns the same object |
| `Defects.Defect.SetStatus` | src/test/java/Defect.java:109-112 | sets status only and returns the same object |
| `Defects.Defect.SetAssignedToUrl` | src/test/java/Defect.java:118-121 | sets assignedToUrl only and returns the same object |
| `Defects.Defect.SetCreatedByUrl` | src/test/java/Defect.java:127-130 | sets createdByUrl only and returns the same object |
| `Defects.Defect.SetSeverity` | src/test/java/Defect.java:136-139 | sets severity only and returns the same object |
| `Defects.Defect.ToJson` | src/test/java/Defect.java:145-178 | the guarded appends produce exactly `Serialized` of the object's state |
| `Defects.Defect.Equals` | src/test/java/Defect.java:194-207 | collecting the seven `nullOrEqual` results and checking none is false gives exactly `Equal` of the two states |
| `Defects.SampleDefect` | src/test/java/TestServer.java:113-118 | chaining six setters on a new defect sets exactly those six fields |

## Left out

- `fromJson` (both classes, single objects and arrays): it is a thin layer
  over the JSON library. The Defect version also relies on the deprecated
  `new Date(String)` and on casting JSON values straight to enums. Neither
  can be stated faithfully without those libraries. So no decode and no
  round-trip property are modelled.
- The date formatter (`SimpleDateFormat`, shared mutable state that depends
  on the time zone): it is the parameter `fmt`.
- The enum declarations are not part of this model. Their constants are the
  ones the tests use, and the printed form is assumed to be the constant
  name, as with Java's default `toString`. `Enum.valueOf` and its rejection
  of unknown names belong to `fromJson`.
- Getters: the model reads the fields directly.
- `equals` called with `null` or with an object of another class. With
  `null`, the cast succeeds and the first field access (`rhs.url`,
  `rhs.created`) throws a NullPointerException; with another class, the cast
  throws a ClassCastException. The model compares only two entities of the
  same class.
- The no-op `sb=sb;` and the `StringBuilder` object itself: the builder is a
  local string that each append extends.
- `Date` equality by milliseconds is modelled by the datatype `Date(millis)`;
  nothing else about dates is modelled.
- The test class (HTTP requests, stream copying, JUnit assertions, teardown
  order over HTTP DELETE). It is I/O with no logic of its own.
- The server-side consistency rules seen only through status codes: unique
  names, developer-only assignees, REOPENED needing an assignee, modified not
  before created, and rejection of bad enum values. The code that decides them
  is not part of this model.
