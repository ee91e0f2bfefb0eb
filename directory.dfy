/** The user export shared by the three scripts: IAM Identity Center user
    records, their projection onto the five CSV columns, and the cursor
    pagination of list_users. The same code appears in the CLI setup, the
    setup Lambda and the user-extract Lambda; it is modelled once here. */
module Directory {
  import opened Cloud

  /** An entry of a user's 'Emails' list: 'Value' may be absent, an absent
      'Primary' counts as false. */
  datatype Email = Email(value: Option<string>, primary: bool)

  datatype Name = Name(givenName: Option<string>, familyName: Option<string>)

  /** A user record as list_users returns it; an absent 'Emails' list is the
      empty list. */
  datatype User = User(userId: Option<string>, userName: Option<string>, name: Option<Name>, emails: seq<Email>)

  /** One list_users response; an absent 'Users' list is the empty list. */
  datatype Page = Page(users: seq<User>, nextToken: Option<string>)

  datatype Instance = Instance(instanceArn: string, identityStoreId: string)

  /** Scripted answers for one export: list_instances, the successive
      list_users calls (consumed in order) and the final upload. */
  datatype DirectoryScript = DirectoryScript(
    listInstances: Answer<seq<Instance>>,
    listUsers: seq<Answer<Page>>,
    upload: Outcome)

  // ---------------------------------------------------------------------------
  // Row projection
  // ---------------------------------------------------------------------------

  const Header: Row := ["UserId", "Username", "Email", "GivenName", "FamilyName"]

  /** `d.get(key, '')`: an absent field reads as the empty string. */
  function Field(f: Option<string>): string
  {
    if f.Some? then f.value else ""
  }

  predicate IsFirstPrimary(emails: seq<Email>, i: int)
  {
    0 <= i < |emails| && emails[i].primary && forall j :: 0 <= j < i ==> !emails[j].primary
  }

  /** Index of the first primary email, |emails| when no email is primary. */
  function FirstPrimary(emails: seq<Email>): (i: nat)
    ensures i <= |emails|
    ensures i < |emails| ==> IsFirstPrimary(emails, i)
    ensures i == |emails| ==> forall j :: 0 <= j < |emails| ==> !emails[j].primary
  {
    if emails == [] || emails[0].primary then 0 else 1 + FirstPrimary(emails[1..])
  }

  /** The Email column: the Value of the first primary email, '' when none is
      primary. None stands for the KeyError raised when that email has no
      Value. */
  function PrimaryEmail(emails: seq<Email>): Option<string>
  {
    var i := FirstPrimary(emails);
    if i == |emails| then Some("") else emails[i].value
  }

  /** The CSV row of one user; None when building it raises. */
  function UserRow(u: User): (r: Option<Row>)
    ensures r.None? <==> exists i :: IsFirstPrimary(u.emails, i) && u.emails[i].value.None?
    ensures r.Some? ==>
      && |r.value| == |Header|
      && r.value[0] == Field(u.userId)
      && r.value[1] == Field(u.userName)
      && r.value[3] == (if u.name.Some? then Field(u.name.value.givenName) else "")
      && r.value[4] == (if u.name.Some? then Field(u.name.value.familyName) else "")
      && ((forall j :: 0 <= j < |u.emails| ==> !u.emails[j].primary) ==> r.value[2] == "")
      && (forall i :: IsFirstPrimary(u.emails, i) ==> u.emails[i].value == Some(r.value[2]))
  {
    var name := if u.name.Some? then u.name.value else Name(None, None);
    match PrimaryEmail(u.emails)
    case None => None
    case Some(email) => Some([Field(u.userId), Field(u.userName), email, Field(name.givenName), Field(name.familyName)])
  }

  /** The data rows, one per user in order; None when some row cannot be
      built. */
  function DataRows(users: seq<User>): (r: Option<seq<Row>>)
    ensures r.Some? <==> forall i :: 0 <= i < |users| ==> UserRow(users[i]).Some?
    ensures r.Some? ==> |r.value| == |users| && forall i :: 0 <= i < |users| ==> r.value[i] == UserRow(users[i]).value
  {
    if users == [] then Some([])
    else match UserRow(users[0])
      case None => None
      case Some(row) =>
        match DataRows(users[1..])
        case None => None
        case Some(rest) => Some([row] + rest)
  }

  /** The whole CSV file: the header, then one row per user. */
  function CsvRows(users: seq<User>): (r: Option<seq<Row>>)
    ensures r.Some? <==> forall i :: 0 <= i < |users| ==> UserRow(users[i]).Some?
    ensures r.Some? ==> |r.value| == |users| + 1 && r.value[0] == Header
    ensures r.Some? ==> forall i :: 0 <= i < |users| ==> r.value[i + 1] == UserRow(users[i]).value
  {
    match DataRows(users)
    case None => None
    case Some(rows) => Some([Header] + rows)
  }

  /** The writer loop: the header, then a row per user, stopping at the first
      user whose row raises. */
  method WriteCsv(users: seq<User>) returns (rows: Option<seq<Row>>)
    ensures rows == CsvRows(users)
  {
    var buffer: seq<Row> := [Header];
    for i := 0 to |users|
      invariant |buffer| == i + 1 && buffer[0] == Header
      invariant forall j :: 0 <= j < i ==> UserRow(users[j]).Some? && buffer[j + 1] == UserRow(users[j]).value
    {
      var row := UserRow(users[i]);
      if row.None? {
        assert !UserRow(users[i]).Some?;
        assert CsvRows(users).None?;
        return None;
      }
      buffer := buffer + [row.value];
    }
    var expected := CsvRows(users);
    assert expected.Some? && |expected.value| == |buffer|;
    forall k | 0 <= k < |buffer|
      ensures buffer[k] == expected.value[k]
    {
      if k > 0 {
        assert buffer[k] == UserRow(users[k - 1]).value;
      }
    }
    assert buffer == expected.value;
    rows := Some(buffer);
  }

  // ---------------------------------------------------------------------------
  // Pagination
  // ---------------------------------------------------------------------------

  /** Python truthiness of 'NextToken': absent and '' both end the loop. */
  predicate HasToken(t: Option<string>)
  {
    t.Some? && t.value != ""
  }

  /** After this answer the loop stops: the call raised, or the page has no
      token. */
  predicate Last(a: Answer<Page>)
  {
    a.Error? || !HasToken(a.value.nextToken)
  }

  /** The script ends the listing: some answer in it is a last one. */
  predicate Ends(script: seq<Answer<Page>>)
  {
    script != [] && (Last(script[0]) || Ends(script[1..]))
  }

  /** Number of list_users calls: up to and including the first last answer. */
  function CallCount(script: seq<Answer<Page>>): (n: nat)
    requires Ends(script)
    ensures 1 <= n <= |script|
    ensures Last(script[n - 1])
    ensures forall i :: 0 <= i < n - 1 ==> !Last(script[i])
  {
    if Last(script[0]) then 1 else 1 + CallCount(script[1..])
  }

  /** The list_users calls made when the loop holds `token` and the next
      answer is script[0]. */
  function ListCallsFrom(storeId: string, script: seq<Answer<Page>>, token: Option<string>): (calls: seq<Call>)
    requires Ends(script)
    ensures forall c <- calls :: c.ListUsers? && c.identityStoreId == storeId
  {
    [ListUsers(storeId, token)]
    + if Last(script[0]) then [] else ListCallsFrom(storeId, script[1..], script[0].value.nextToken)
  }

  /** All list_users calls of one listing; the first carries no token. */
  function ListCalls(storeId: string, script: seq<Answer<Page>>): seq<Call>
    requires Ends(script)
  {
    ListCallsFrom(storeId, script, None)
  }

  /** The outcome of the listing starting at script[0]: the users of every
      page, or the error that stopped it. */
  function Listed(script: seq<Answer<Page>>): Answer<seq<User>>
    requires Ends(script)
  {
    if script[0].Error? then Error(script[0].error)
    else if !HasToken(script[0].value.nextToken) then Got(script[0].value.users)
    else Prepend(script[0].value.users, Listed(script[1..]))
  }

  function Prepend(users: seq<User>, a: Answer<seq<User>>): Answer<seq<User>>
  {
    match a
    case Got(rest) => Got(users + rest)
    case Error(e) => Error(e)
  }

  /** Users of the pages, in page order (a failed call contributes none). */
  function Concat(pages: seq<Answer<Page>>): seq<User>
  {
    if pages == [] then [] else (if pages[0].Got? then pages[0].value.users else []) + Concat(pages[1..])
  }

  /** Total number of users on the pages. */
  function UserTotal(pages: seq<Answer<Page>>): nat
  {
    if pages == [] then 0 else (if pages[0].Got? then |pages[0].value.users| else 0) + UserTotal(pages[1..])
  }

  lemma {:induction false} ConcatCount(pages: seq<Answer<Page>>)
    ensures |Concat(pages)| == UserTotal(pages)
  {
    if pages != [] {
      ConcatCount(pages[1..]);
    }
  }

  lemma {:induction false} ListCallsFromShape(storeId: string, script: seq<Answer<Page>>, token: Option<string>)
    requires Ends(script)
    ensures var calls := ListCallsFrom(storeId, script, token);
      && |calls| == CallCount(script)
      && calls[0] == ListUsers(storeId, token)
      && forall i :: 1 <= i < |calls| ==>
           script[i - 1].Got? && HasToken(script[i - 1].value.nextToken)
           && calls[i] == ListUsers(storeId, script[i - 1].value.nextToken)
  {
    var calls := ListCallsFrom(storeId, script, token);
    if !Last(script[0]) {
      var tok := script[0].value.nextToken;
      var rest := ListCallsFrom(storeId, script[1..], tok);
      ListCallsFromShape(storeId, script[1..], tok);
      assert calls == [ListUsers(storeId, token)] + rest;
      assert CallCount(script) == 1 + CallCount(script[1..]);
      assert |calls| == CallCount(script);
      forall i | 1 <= i < |calls|
        ensures script[i - 1].Got? && HasToken(script[i - 1].value.nextToken)
        ensures calls[i] == ListUsers(storeId, script[i - 1].value.nextToken)
      {
        assert calls[i] == rest[i - 1];
        if i >= 2 {
          assert script[1..][i - 2] == script[i - 1];
        }
      }
    }
  }

  /** The calls of a listing: the first carries no token, each later one
      carries the token of the answer before it, and the calls stop at the
      first answer that raised or had no token. */
  lemma ListCallsShape(storeId: string, script: seq<Answer<Page>>)
    requires Ends(script)
    ensures var calls := ListCalls(storeId, script);
      && |calls| == CallCount(script)
      && calls[0] == ListUsers(storeId, None)
      && (forall i :: 1 <= i < |calls| ==>
           script[i - 1].Got? && HasToken(script[i - 1].value.nextToken)
           && calls[i] == ListUsers(storeId, script[i - 1].value.nextToken))
      && Last(script[|calls| - 1])
  {
    ListCallsFromShape(storeId, script, None);
  }

  /** A listing fails exactly when its last call raised; otherwise it
      collects the users of all pages fetched, in order, and their number is
      the sum of the page sizes. */
  lemma {:induction false} ListedIsConcat(script: seq<Answer<Page>>)
    requires Ends(script)
    ensures var n := CallCount(script);
      && (Listed(script).Error? <==> script[n - 1].Error?)
      && (Listed(script).Error? ==> Listed(script).error == script[n - 1].error)
      && (Listed(script).Got? ==>
            Listed(script).value == Concat(script[..n])
            && |Listed(script).value| == UserTotal(script[..n]))
  {
    var n := CallCount(script);
    if Last(script[0]) {
      assert n == 1;
      assert script[..1] == [script[0]] && script[..1][1..] == [];
      ConcatCount(script[..1]);
    } else {
      ListedIsConcat(script[1..]);
      var m := CallCount(script[1..]);
      assert n == m + 1;
      assert script[..n][1..] == script[1..][..m];
      assert script[1..][m - 1] == script[n - 1];
      ConcatCount(script[..n]);
    }
  }

  lemma {:induction false} ConcatAppend(a: seq<Answer<Page>>, b: seq<Answer<Page>>)
    ensures Concat(a + b) == Concat(a) + Concat(b)
  {
    if a != [] {
      assert (a + b)[1..] == a[1..] + b;
      ConcatAppend(a[1..], b);
    } else {
      assert a + b == b;
    }
  }

  /** The paginating loop: calls list_users until an answer has no token,
      accumulating the users of every page. */
  method ListAllUsers(storeId: string, script: seq<Answer<Page>>) returns (r: Answer<seq<User>>, calls: seq<Call>)
    requires Ends(script)
    ensures calls == ListCalls(storeId, script)
    ensures r == Listed(script)
  {
    var n := CallCount(script);
    var expected := ListCalls(storeId, script);
    ListCallsShape(storeId, script);
    ListedIsConcat(script);
    var users: seq<User> := [];
    var nextToken: Option<string> := None;
    var i := 0;
    calls := [];
    while true
      invariant 0 <= i < n
      invariant calls == expected[..i]
      invariant users == Concat(script[..i])
      invariant i == 0 ==> nextToken == None
      invariant i > 0 ==> script[i - 1].Got? && nextToken == script[i - 1].value.nextToken && HasToken(nextToken)
      decreases n - i
    {
      var response := script[i];
      var sent := if HasToken(nextToken) then nextToken else None;
      assert expected[i] == ListUsers(storeId, sent);
      calls := calls + [ListUsers(storeId, sent)];
      assert calls == expected[..i + 1];
      if response.Error? {
        assert i == n - 1 && expected[..n] == expected;
        r := Error(response.error);
        return;
      }
      ConcatAppend(script[..i], [response]);
      assert [response][1..] == [];
      assert Concat([response]) == response.value.users;
      assert script[..i + 1] == script[..i] + [response];
      users := users + response.value.users;
      nextToken := response.value.nextToken;
      if !HasToken(nextToken) {
        assert i == n - 1 && expected[..n] == expected;
        assert script[..i + 1] == script[..n];
        assert Listed(script) == Got(users);
        break;
      }
      i := i + 1;
    }
    r := Got(users);
  }

  // ---------------------------------------------------------------------------
  // The export pipeline, as the three scripts share it
  // ---------------------------------------------------------------------------

  /** list_instances returned at least one instance. */
  predicate FindsInstance(s: DirectoryScript)
  {
    s.listInstances.Got? && s.listInstances.value != []
  }

  /** The script is complete: once an instance is found, the listing ends
      within it (the source loops for as long as tokens keep coming). */
  predicate Scripted(s: DirectoryScript)
  {
    FindsInstance(s) ==> Ends(s.listUsers)
  }

  /** The identity store of the first instance, the one the export lists. */
  function StoreId(s: DirectoryScript): string
    requires FindsInstance(s)
  {
    s.listInstances.value[0].identityStoreId
  }

  /** The calls before the upload: list_instances, then the listing. */
  function LookupCalls(s: DirectoryScript): seq<Call>
    requires Scripted(s)
  {
    [ListInstances] + if FindsInstance(s) then ListCalls(StoreId(s), s.listUsers) else []
  }

  /** The rows the export uploads; None when it stops before the upload. */
  function ExportRows(s: DirectoryScript): Option<seq<Row>>
    requires Scripted(s)
  {
    if !FindsInstance(s) then None
    else match Listed(s.listUsers)
      case Error(_) => None
      case Got(users) => CsvRows(users)
  }

  /** The export uploads: an instance was found, the listing and every row
      succeeded, and the upload call returned. */
  predicate ExportSucceeds(s: DirectoryScript)
    requires Scripted(s)
  {
    ExportRows(s).Some? && s.upload.Ok?
  }

  /** The export's S3 key for a given output file name. */
  function ExportKey(outputFile: string): string
  {
    "users/" + outputFile
  }
}
