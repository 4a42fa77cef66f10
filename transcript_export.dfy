/**
 * The transcript export route: it is gated on a logged-in user with an
 * active subscription and a positive balance, debits one credit with an
 * `export_used` ledger row, and returns the file with a MIME type and a
 * sanitised download name chosen from the format and title, or 500 when
 * that name still holds a character the response header cannot carry.
 */
module TranscriptExport {
  import opened Wrappers
  import opened Strings
  import opened Ledger

  /**
   * The `content` field: a string, or another JSON value given by its
   * `JSON.stringify(content, null, 2)` and `String(content)` renderings.
   * JavaScript-falsy values other than "" are `None` in `ExportBody`.
   */
  datatype Content = Text(text: string) | Value(pretty: string, printed: string)

  /** The JSON body; `format` and `title` (`metadata.title`) are "" when absent. */
  datatype ExportBody = ExportBody(format: string, content: Option<Content>, title: string)

  datatype ExportResponse =
    | NotLoggedIn
    | UserNotFound
    | SubscriptionInactive
    | OutOfCredits
    | ContentAndFormatRequired
    | ServerError
    | File(body: string, mimeType: string, filename: string)

  function StatusCode(r: ExportResponse): int
  {
    match r
    case NotLoggedIn => 401
    case UserNotFound => 404
    case SubscriptionInactive => 403
    case OutOfCredits => 402
    case ContentAndFormatRequired => 400
    case ServerError => 500
    case File(_, _, _) => 200
  }

  /** The `code` field of the gated refusals. */
  function ErrorCode(r: ExportResponse): string
  {
    match r
    case SubscriptionInactive => "SUBSCRIPTION_INACTIVE"
    case OutOfCredits => "OUT_OF_CREDITS"
    case _ => ""
  }

  /** The user's subscriptions include one whose status is active. */
  predicate HasActiveSubscription(s: State, userId: string)
  {
    exists k :: 0 <= k < |s.subscriptions| && s.subscriptions[k].userId == userId && s.subscriptions[k].status == Active
  }

  /** A character matched by the regular-expression class `[\w\s.-]`. */
  predicate FilenameChar(c: char)
  {
    ('a' <= c <= 'z') || ('A' <= c <= 'Z') || ('0' <= c <= '9') || c == '_' || IsSpace(c) || c == '.' || c == '-'
  }

  /** `replace(/[^\w\s.-]+/g, "")`: drops every other character, keeping the order of the rest. */
  function HeaderFilename(name: string): (r: string)
    ensures |r| <= |name|
    ensures forall i :: 0 <= i < |r| ==> FilenameChar(r[i])
    ensures (forall i :: 0 <= i < |name| ==> FilenameChar(name[i])) ==> r == name
    decreases |name|
  {
    if name == [] then []
    else if FilenameChar(name[0]) then [name[0]] + HeaderFilename(name[1..])
    else HeaderFilename(name[1..])
  }

  lemma {:induction false} HeaderFilenameConcat(a: string, b: string)
    ensures HeaderFilename(a + b) == HeaderFilename(a) + HeaderFilename(b)
    decreases |a|
  {
    if a == [] {
      assert a + b == b;
    } else {
      assert (a + b)[1..] == a[1..] + b;
      HeaderFilenameConcat(a[1..], b);
    }
  }

  /** Sanitising twice is sanitising once. */
  lemma HeaderFilenameIdempotent(name: string)
    ensures HeaderFilename(HeaderFilename(name)) == HeaderFilename(name)
  {
  }

  /** The download name before sanitising: the title (or "transcript") and the format's extension. */
  function RawFilename(format: string, title: string): string
  {
    (if title != "" then title else "transcript") + (if format == "json" then ".json" else ".txt")
  }

  /** The response for a request that passed every check. */
  function Rendered(b: ExportBody): ExportResponse
    requires b.content.Some?
  {
    var c := b.content.value;
    if b.format == "json" then
      File(if c.Text? then c.text else c.pretty, "application/json", HeaderFilename(RawFilename(b.format, b.title)))
    else
      File(if c.Text? then c.text else c.printed, "text/plain", HeaderFilename(RawFilename(b.format, b.title)))
  }

  /** `!content || !format`. */
  predicate MissingInput(b: ExportBody)
  {
    b.content.None? || b.content == Some(Text("")) || b.format == ""
  }

  /**
   * A character a `Content-Disposition` value can carry.  The `Headers` it
   * is set into convert the value to a byte string, which throws on any
   * code unit above U+00FF, and refuse NUL, CR and LF; the server then
   * copies the header into Node's response, whose header check refuses
   * every control character but tab, and DEL.
   */
  predicate HeaderChar(c: char)
  {
    c == '\t' || (' ' <= c <= '~') || ('\U{0080}' <= c <= '\U{00FF}')
  }

  predicate HeaderSafe(name: string)
  {
    forall k :: 0 <= k < |name| ==> HeaderChar(name[k])
  }

  /** Drops the characters a header value cannot carry, keeping the order of the rest. */
  function StripUnsafe(name: string): (r: string)
    ensures |r| <= |name| && HeaderSafe(r)
    ensures HeaderSafe(name) ==> r == name
    decreases |name|
  {
    if name == [] then []
    else if HeaderChar(name[0]) then [name[0]] + StripUnsafe(name[1..])
    else StripUnsafe(name[1..])
  }

  /**
   * What happens to a sanitised name that still holds a character the
   * header cannot carry: the response constructor throws, after the debit
   * (`Throw`, the route as written), or the character is dropped (`Strip`).
   */
  datatype NameRule = Throw | Strip

  /**
   * A request that reaches the debit: a session whose user exists, has an
   * active subscription and a positive balance, and a complete JSON body.
   */
  predicate Debits(s: State, sessionUserId: string, body: Option<ExportBody>)
  {
    sessionUserId != "" && FindUser(s.users, sessionUserId).Some?
    && HasActiveSubscription(s, sessionUserId)
    && s.users[FindUser(s.users, sessionUserId).value].creditsBalance > 0
    && body.Some? && !MissingInput(body.value)
  }

  /**
   * `POST`.  `sessionUserId` is "" without a session; `body` is `None` when
   * the request body is not JSON, which throws after the gating checks and
   * is answered with 500.
   */
  function Route(rule: NameRule, s: State, sessionUserId: string, body: Option<ExportBody>): (State, ExportResponse)
  {
    if sessionUserId == "" then (s, NotLoggedIn)
    else match FindUser(s.users, sessionUserId)
      case None => (s, UserNotFound)
      case Some(i) =>
        var u := s.users[i];
        if !HasActiveSubscription(s, u.id) then (s, SubscriptionInactive)
        else if u.creditsBalance <= 0 then (s, OutOfCredits)
        else if body.None? then (s, ServerError)
        else if MissingInput(body.value) then (s, ContentAndFormatRequired)
        else
          var t := Transact(s, i, ExportUsed, -1, u.creditsBalance - 1, None);
          var r := Rendered(body.value);
          if HeaderSafe(r.filename) then (t, r)
          else match rule
            case Throw => (t, ServerError)
            case Strip => (t, r.(filename := StripUnsafe(r.filename)))
  }

  /** The route as written: the catch answers 500 to a name the header refuses, after the credit is spent. */
  function ExportSpec(s: State, sessionUserId: string, body: Option<ExportBody>): (State, ExportResponse)
  {
    Route(Throw, s, sessionUserId, body)
  }

  /** The route as evidently intended: every debited request gets its file. */
  function ExportIntended(s: State, sessionUserId: string, body: Option<ExportBody>): (State, ExportResponse)
  {
    Route(Strip, s, sessionUserId, body)
  }

  method ExportTranscript(db: Db, sessionUserId: string, body: Option<ExportBody>) returns (resp: ExportResponse)
    modifies db
    ensures (db.Snapshot(), resp) == ExportSpec(old(db.Snapshot()), sessionUserId, body)
  {
    if sessionUserId == "" {
      return NotLoggedIn;
    }
    var found := FindUser(db.users, sessionUserId);
    if found.None? {
      return UserNotFound;
    }
    var user := db.users[found.value];
    if !HasActiveSubscription(db.Snapshot(), user.id) {
      return SubscriptionInactive;
    }
    if user.creditsBalance <= 0 {
      return OutOfCredits;
    }
    if body.None? {
      return ServerError;
    }
    if MissingInput(body.value) {
      return ContentAndFormatRequired;
    }
    var newBalance := user.creditsBalance - 1;
    db.Transaction(found.value, ExportUsed, -1, newBalance, None);
    var file := Rendered(body.value);
    if !HeaderSafe(file.filename) {
      // the response constructor throws and the catch answers 500
      return ServerError;
    }
    return file;
  }

  // ------------------------------------------------------------ properties

  /**
   * The debit happens only for a user with an active subscription and a
   * positive balance, and only when the body is complete; it lowers that
   * user's balance by exactly one, never below zero, and appends one
   * `export_used` row of -1 recording the new balance.  Every refusal
   * leaves the database as it was.  A debited request gets its file
   * exactly when the name fits the header, and 500 otherwise.
   */
  lemma DebitIsGated(s: State, sessionUserId: string, body: Option<ExportBody>)
    ensures var (t, resp) := ExportSpec(s, sessionUserId, body);
      (!Debits(s, sessionUserId, body) ==> t == s && !resp.File?)
      && (Debits(s, sessionUserId, body) ==>
            var i := FindUser(s.users, sessionUserId).value;
            t.users[i].creditsBalance == s.users[i].creditsBalance - 1 >= 0
            && t.ledger == s.ledger + [LedgerRow(sessionUserId, ExportUsed, -1, t.users[i].creditsBalance, None)]
            && (forall j :: 0 <= j < |s.users| && j != i ==> t.users[j] == s.users[j])
            && (resp.File? <==> HeaderSafe(Rendered(body.value).filename))
            && (!resp.File? ==> resp == ServerError))
  {
  }

  /** The gates are checked in the source's order, so the reported error names the first one that fails. */
  lemma RefusalOrder(s: State, sessionUserId: string, body: Option<ExportBody>)
    requires sessionUserId != "" && FindUser(s.users, sessionUserId).Some?
    ensures var resp := ExportSpec(s, sessionUserId, body).1;
      var u := s.users[FindUser(s.users, sessionUserId).value];
      (resp == SubscriptionInactive <==> !HasActiveSubscription(s, sessionUserId))
      && (resp == OutOfCredits <==> HasActiveSubscription(s, sessionUserId) && u.creditsBalance <= 0)
      && (resp == ContentAndFormatRequired ==> u.creditsBalance > 0)
  {
  }

  /** Whatever the name rule, the new state is the debit's transaction or the old state. */
  lemma RouteState(rule: NameRule, s: State, sessionUserId: string, body: Option<ExportBody>)
    ensures Debits(s, sessionUserId, body) ==>
      var i := FindUser(s.users, sessionUserId).value;
      Route(rule, s, sessionUserId, body).0 == Transact(s, i, ExportUsed, -1, s.users[i].creditsBalance - 1, None)
    ensures !Debits(s, sessionUserId, body) ==> Route(rule, s, sessionUserId, body).0 == s
  {
  }

  lemma ExportKeepsGood(s: State, sessionUserId: string, body: Option<ExportBody>)
    requires Good(s)
    ensures Good(ExportSpec(s, sessionUserId, body).0)
  {
    RouteState(Throw, s, sessionUserId, body);
    if Debits(s, sessionUserId, body) {
      TransactKeepsGood(s, FindUser(s.users, sessionUserId).value, ExportUsed, -1, None);
    }
  }

  /** A character the name filter keeps is still in the sanitised name. */
  lemma {:induction false} HeaderFilenameKeeps(name: string, k: int)
    requires 0 <= k < |name| && FilenameChar(name[k])
    ensures name[k] in HeaderFilename(name)
    decreases |name|
  {
    if k > 0 {
      HeaderFilenameKeeps(name[1..], k - 1);
      assert name[1..][k - 1] == name[k];
    }
  }

  /**
   * A title holding white space the header cannot carry (a line break, a
   * vertical tab or form feed, U+2028, U+3000, U+FEFF, ...) passes the
   * name filter, so a request that reaches the debit spends its credit and
   * is answered with 500.
   */
  lemma UnsafeTitleSpendsCredit(s: State, sessionUserId: string, b: ExportBody, k: int)
    requires Debits(s, sessionUserId, Some(b))
    requires 0 <= k < |b.title| && IsSpace(b.title[k]) && !HeaderChar(b.title[k])
    ensures var (t, resp) := ExportSpec(s, sessionUserId, Some(b));
      var i := FindUser(s.users, sessionUserId).value;
      resp == ServerError && t.users[i].creditsBalance == s.users[i].creditsBalance - 1
      && |t.ledger| == |s.ledger| + 1
  {
    var raw := RawFilename(b.format, b.title);
    assert raw[k] == b.title[k];
    HeaderFilenameKeeps(raw, k);
    assert !HeaderSafe(Rendered(b).filename);
    DebitIsGated(s, sessionUserId, Some(b));
  }

  /** The title "A", U+3000, "B" exported as text: one credit spent, and 500. */
  lemma WideSpaceTitleSpendsCredit(s: State, sessionUserId: string, b: ExportBody)
    requires Debits(s, sessionUserId, Some(b))
    requires b.title == ['A', '\U{3000}', 'B']
    ensures var (t, resp) := ExportSpec(s, sessionUserId, Some(b));
      var i := FindUser(s.users, sessionUserId).value;
      resp == ServerError && t.users[i].creditsBalance == s.users[i].creditsBalance - 1
  {
    UnsafeTitleSpendsCredit(s, sessionUserId, b, 1);
  }

  /** The title "a", vertical tab, "b": it passes the name filter and the `Headers` check, not Node's. */
  lemma VerticalTabTitleSpendsCredit(s: State, sessionUserId: string, b: ExportBody)
    requires Debits(s, sessionUserId, Some(b))
    requires b.title == ['a', '\U{000B}', 'b']
    ensures var (t, resp) := ExportSpec(s, sessionUserId, Some(b));
      var i := FindUser(s.users, sessionUserId).value;
      resp == ServerError && t.users[i].creditsBalance == s.users[i].creditsBalance - 1
  {
    UnsafeTitleSpendsCredit(s, sessionUserId, b, 1);
  }

  /**
   * The corrected route debits exactly as the route as written, and every
   * debited request gets its file, under a header-safe name that is the
   * sanitised name when that was already safe; the two differ only in the
   * 500 the route as written returns.
   */
  lemma IntendedAnswersEveryDebit(s: State, sessionUserId: string, body: Option<ExportBody>)
    ensures var (t, resp) := ExportIntended(s, sessionUserId, body);
      var (t', resp') := ExportSpec(s, sessionUserId, body);
      t == t'
      && (resp.File? <==> Debits(s, sessionUserId, body))
      && (resp.File? ==>
            var r := Rendered(body.value);
            HeaderSafe(resp.filename) && resp.filename == StripUnsafe(r.filename)
            && resp.body == r.body && resp.mimeType == r.mimeType)
      && (resp != resp' <==> Debits(s, sessionUserId, body) && !HeaderSafe(Rendered(body.value).filename))
      && (resp != resp' ==> resp' == ServerError)
  {
  }

  /**
   * "json" gives `application/json` and a name ending in ".json"; any other
   * format gives `text/plain` and ".txt".  A missing title becomes "transcript".
   */
  lemma MimeTypeAndExtension(b: ExportBody)
    requires b.content.Some?
    ensures var r := Rendered(b);
      var ext := if b.format == "json" then ".json" else ".txt";
      (r.mimeType == "application/json" <==> b.format == "json")
      && (r.mimeType == "text/plain" <==> b.format != "json")
      && r.filename == HeaderFilename(if b.title != "" then b.title else "transcript") + ext
      && (b.title == "" ==> r.filename == "transcript" + ext)
  {
    var ext := if b.format == "json" then ".json" else ".txt";
    var name := if b.title != "" then b.title else "transcript";
    assert RawFilename(b.format, b.title) == name + ext;
    HeaderFilenameConcat(name, ext);
    ExtensionKept(ext);
    if b.title == "" {
      DefaultTitleKept(name);
    }
    if b.format == "json" {
      assert Rendered(b).mimeType == "application/json";
      assert "application/json" != "text/plain";
    } else {
      assert Rendered(b).mimeType == "text/plain";
      assert "text/plain" != "application/json";
    }
  }

  lemma ExtensionKept(ext: string)
    requires ext == ".json" || ext == ".txt"
    ensures HeaderFilename(ext) == ext
  {
    forall i | 0 <= i < |ext|
      ensures FilenameChar(ext[i])
    {
    }
  }

  lemma DefaultTitleKept(t: string)
    requires t == "transcript"
    ensures HeaderFilename(t) == t
  {
    forall i | 0 <= i < |t|
      ensures FilenameChar(t[i])
    {
      assert 'a' <= t[i] <= 'z';
    }
  }
}
