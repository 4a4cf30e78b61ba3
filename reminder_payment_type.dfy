/** The webhook guard `ReminderPaymentType`: it authenticates a webhook call by
    its HMAC-SHA1 signature, parses the body as JSON and, when a field update
    sets the payment type to "cash (receipt)", answers with a fixed comment.

    Every operation is a pure function of the captured request (body, the
    `X-Pyrus-Sig` header and the secret) and of the three foreign primitives in
    `Primitives`. An outcome is a `Result`: a returned `(body, status)` pair, or
    the exception the Python code lets escape. */
module ReminderPaymentType {
  import opened Outcomes
  import opened JsonValue

  newtype byte = b: int | 0 <= b < 0x100

  /** The response bodies the guard can return. */
  const DeniedBody: string := "🚫 Access Denied"
  const EmptyBody: string := "{}"
  const Person: string := "<a href='https://pyrus.com/t#pp486746'>Татьяна Ивановна</a>"
  const Instructions: string :=
    "Для данного заказа требуется оформить:<br><ul><li>приходный кассовый ордер</li><li>оформить подотчет на Бусырев А.А.</li><ul>"
  const CommentText: string := Person + "<br>" + Instructions
  const FormattedBody: string := "{ \"formatted_text\":\"" + CommentText + "\" }"

  /** The field name and the choice the payment rule looks for. */
  const PaymentTypeField: string := "Тип оплаты / Статус"
  const CashReceiptChoice: string := "✅Нал (чек)"

  datatype Response = Response(body: string, status: int)

  const Denied: Response := Response(DeniedBody, 403)
  const NoComment: Response := Response(EmptyBody, 200)
  const CashComment: Response := Response(FormattedBody, 200)

  /** What `json.loads` does with a text: it returns a value, raises the
      `JSONDecodeError` the guard catches, or raises another exception
      (`RecursionError`, `ValueError`) that the guard does not catch. */
  datatype Loaded = Parsed(data: Json) | JsonDecodeError | LoadRaised(error: PyError)

  /** The foreign code the guard calls: the lowercase hex HMAC-SHA1 of a message
      keyed by the UTF-8 encoding of the secret, `bytes.decode("utf-8")` (None
      for a malformed sequence) and `json.loads`. */
  datatype Primitives = Primitives(
    hmacSha1Hex: (string, seq<byte>) -> string,
    decodeUtf8: seq<byte> -> Option<string>,
    loadsJson: string -> Loaded)

  /** What the constructor captures from the request and the configuration. */
  datatype Guard = Guard(body: Option<seq<byte>>, signature: Option<string>, secretKey: Option<string>)

  // ---------------------------------------------------------------------------
  // Signature check
  // ---------------------------------------------------------------------------

  /** `str.lower()` on one character, for every character whose lowercase form
      is ASCII: A-Z and KELVIN SIGN. Every other character is kept; Python would
      map some of them to other non-ASCII text, which changes no comparison with
      an ASCII digest (see `ValidateRequest`). */
  function LowerChar(c: char): (lowered: char)
  {
    if 'A' <= c <= 'Z' then (c as int + 32) as char
    else if c == '\U{212A}' then 'k'
    else c
  }

  function Lower(s: string): (r: string)
  {
    seq(|s|, i requires 0 <= i < |s| => LowerChar(s[i]))
  }

  predicate IsAscii(s: string)
  {
    forall i :: 0 <= i < |s| ==> s[i] < '\U{80}'
  }

  predicate IsLowerHex(s: string)
  {
    forall i :: 0 <= i < |s| ==> '0' <= s[i] <= '9' || 'a' <= s[i] <= 'f'
  }

  predicate HasUpperAscii(s: string)
  {
    exists i :: 0 <= i < |s| && 'A' <= s[i] <= 'Z'
  }

  /** `hmac.compare_digest` on two strings: equality, but a string with a
      non-ASCII character makes it raise `TypeError`. */
  function CompareDigest(a: string, b: string): (r: Result<bool>)
  {
    if IsAscii(a) && IsAscii(b) then Ok(a == b) else Raise(TypeError)
  }

  /** All three inputs of the signature check are there and non-empty. */
  predicate Complete(g: Guard)
  {
    && g.signature.Some?
    && g.secretKey.Some? && g.secretKey.value != ""
    && g.body.Some? && g.body.value != []
  }

  function Digest(g: Guard, hmacSha1Hex: (string, seq<byte>) -> string): (digest: string)
    requires Complete(g)
  {
    hmacSha1Hex(g.secretKey.value, g.body.value)
  }

  /** `_validate_request`: fails closed on a missing header, a missing or empty
      secret and a missing or empty body, in that order; otherwise compares the
      digest with the lowercased header. */
  function ValidateRequest(g: Guard, hmacSha1Hex: (string, seq<byte>) -> string): (r: Result<bool>)
    ensures r == Ok(true) ==> Complete(g) && Digest(g, hmacSha1Hex) == Lower(g.signature.value)
    ensures r.Raise? ==> Complete(g) && r.error == TypeError
  {
    if g.signature.None? then Ok(false)
    else if g.secretKey.None? || g.secretKey.value == "" then Ok(false)
    else if g.body.None? || g.body.value == [] then Ok(false)
    else CompareDigest(hmacSha1Hex(g.secretKey.value, g.body.value), Lower(g.signature.value))
  }

  lemma MissingSignatureRejected(body: Option<seq<byte>>, secretKey: Option<string>,
                                 hmacSha1Hex: (string, seq<byte>) -> string)
    ensures ValidateRequest(Guard(body, None, secretKey), hmacSha1Hex) == Ok(false)
  {
  }

  lemma MissingSecretRejected(body: Option<seq<byte>>, signature: string,
                              secretKey: Option<string>, hmacSha1Hex: (string, seq<byte>) -> string)
    requires secretKey == None || secretKey == Some("")
    ensures ValidateRequest(Guard(body, Some(signature), secretKey), hmacSha1Hex) == Ok(false)
  {
  }

  lemma MissingBodyRejected(body: Option<seq<byte>>, signature: string, secretKey: Option<string>,
                            hmacSha1Hex: (string, seq<byte>) -> string)
    requires body == None || body == Some([])
    ensures ValidateRequest(Guard(body, Some(signature), secretKey), hmacSha1Hex) == Ok(false)
  {
  }

  /** With all three inputs present and an ASCII header, the check accepts
      exactly when the digest equals the lowercased header. */
  lemma ValidateDecides(g: Guard, hmacSha1Hex: (string, seq<byte>) -> string)
    requires Complete(g)
    requires IsLowerHex(Digest(g, hmacSha1Hex)) && IsAscii(g.signature.value)
    ensures ValidateRequest(g, hmacSha1Hex) == Ok(Digest(g, hmacSha1Hex) == Lower(g.signature.value))
  {
  }

  /** The comparison ignores case in the header: a header is accepted exactly
      when it spells the (lowercase hex) digest in any mixture of cases. */
  lemma HeaderCaseInsensitive(g: Guard, hmacSha1Hex: (string, seq<byte>) -> string)
    requires Complete(g) && IsLowerHex(Digest(g, hmacSha1Hex))
    ensures ValidateRequest(g, hmacSha1Hex) == Ok(true)
            <==> Lower(g.signature.value) == Lower(Digest(g, hmacSha1Hex))
  {
  }

  /** ... but not in the digest: a digest with an upper-case letter matches no
      header at all. */
  lemma DigestCaseSensitive(g: Guard, hmacSha1Hex: (string, seq<byte>) -> string)
    requires Complete(g) && HasUpperAscii(Digest(g, hmacSha1Hex))
    ensures ValidateRequest(g, hmacSha1Hex) != Ok(true)
  {
  }

  /** `hmac.compare_digest` refuses non-ASCII strings, so a header holding a
      non-ASCII character (other than KELVIN SIGN) raises instead of failing. */
  lemma NonAsciiHeaderRaises(g: Guard, hmacSha1Hex: (string, seq<byte>) -> string, i: nat)
    requires Complete(g) && i < |g.signature.value|
    requires g.signature.value[i] >= '\U{80}' && g.signature.value[i] != '\U{212A}'
    ensures ValidateRequest(g, hmacSha1Hex) == Raise(TypeError)
  {
    assert Lower(g.signature.value)[i] == g.signature.value[i];
  }

  // ---------------------------------------------------------------------------
  // Payment rule
  // ---------------------------------------------------------------------------

  /** The payment rule stated on a field-update record: a dict whose `name` is
      the payment-type field and whose `value` is a dict holding a non-empty
      `choice_names` list whose first entry is the cash-receipt choice. */
  predicate Matches(field: Json)
  {
    && field.Obj?
    && HasKey(field.members, "name")
    && Lookup(field.members, "name") == Str(PaymentTypeField)
    && HasKey(field.members, "value")
    && var value := Lookup(field.members, "value");
    && value.Obj?
    && HasKey(value.members, "choice_names")
    && var choices := Lookup(value.members, "choice_names");
    && choices.Arr? && |choices.items| > 0 && choices.items[0] == Str(CashReceiptChoice)
  }

  /** `isPaymenType`: `"name" in field and field["name"] == ...`. */
  function IsPaymentType(field: Json): (r: Result<bool>)
  {
    var hasName :- PyIn(field, "name");
    if !hasName then Ok(false)
    else
      var name :- PyGetItem(field, "name");
      Ok(name == Str(PaymentTypeField))
  }

  /** `isCorrectPaymenType`: the `value` is a dict whose `choice_names[0]` is
      the cash-receipt choice; `[0]` is taken without an emptiness check. */
  function IsCorrectPaymentType(field: Json): (r: Result<bool>)
  {
    var hasValue :- PyIn(field, "value");
    if !hasValue then Ok(false)
    else
      var value :- PyGetItem(field, "value");
      if !value.Obj? then Ok(false)
      else
        // `value` is a dict here, so `in` and `[...]` on it cannot raise
        if !HasKey(value.members, "choice_names") then Ok(false)
        else
          var choices := Lookup(value.members, "choice_names");
          var first :- PyFirst(choices);
          Ok(first == Str(CashReceiptChoice))
  }

  /** The loop body's test: both conditions are evaluated, the name first, and
      then combined. */
  function FieldMatches(field: Json): (r: Result<bool>)
    ensures r.Ok? ==> (r.value <==> Matches(field))
    ensures Matches(field) ==> r == Ok(true)
  {
    var isPaymentType :- IsPaymentType(field);
    var isCorrectPaymentType :- IsCorrectPaymentType(field);
    Ok(isPaymentType && isCorrectPaymentType)
  }

  /** The `for` loop: the first record that matches ends it with `true`, the
      first record whose test raises ends it with that exception. */
  function FirstMatch(fields: seq<Json>): (r: Result<bool>)
    ensures r.Ok? ==> (r.value <==> exists k :: 0 <= k < |fields| && Matches(fields[k]))
    ensures (forall k :: 0 <= k < |fields| ==> FieldMatches(fields[k]).Ok?) ==> r.Ok?
  {
    if fields == [] then Ok(false)
    else
      var hit :- FieldMatches(fields[0]);
      if hit then Ok(true)
      else
        var rest := FirstMatch(fields[1..]);
        assert forall k :: 1 <= k < |fields| ==> fields[k] == fields[1..][k - 1];
        rest
  }

  /** `_prepare_response`: looks up `task["comments"]["task_field_updates"]`
      and answers with the cash comment when a record matches, `{}` otherwise. */
  function PrepareResponse(task: Json): (r: Result<Response>)
    ensures r.Ok? ==> r.value == CashComment || r.value == NoComment
  {
    // `hasUpdatedFields`; the second `task["comments"]` yields the same value
    var hasComments :- PyIn(task, "comments");
    if !hasComments then Ok(NoComment)
    else
      var comments :- PyGetItem(task, "comments");
      var hasUpdates :- PyIn(comments, "task_field_updates");
      if !hasUpdates then Ok(NoComment)
      else
      var updates :- PyGetItem(comments, "task_field_updates");
      var fields :- PyIter(updates);
      var hit :- FirstMatch(fields);
      Ok(if hit then CashComment else NoComment)
  }

  /** `task["comments"]["task_field_updates"]` is the list `fields`; the task
      and its comments may hold any other keys. */
  predicate CarriesUpdates(task: Json, fields: seq<Json>)
  {
    && task.Obj?
    && HasKey(task.members, "comments")
    && var comments := Lookup(task.members, "comments");
    && comments.Obj?
    && HasKey(comments.members, "task_field_updates")
    && Lookup(comments.members, "task_field_updates") == Arr(fields)
  }

  /** The smallest task whose comments carry the given field updates. */
  function TaskWithUpdates(updates: seq<Json>): (task: Json)
  {
    Obj([("comments", Obj([("task_field_updates", Arr(updates))]))])
  }

  /** A field-update record with a name and a single choice. */
  function ChoiceUpdate(name: string, choice: string): (field: Json)
  {
    Obj([("name", Str(name)), ("value", Obj([("choice_names", Arr([Str(choice)]))]))])
  }

  lemma NoCommentsAnswersEmpty(members: seq<(string, Json)>)
    requires !HasKey(members, "comments")
    ensures PrepareResponse(Obj(members)) == Ok(NoComment)
  {
  }

  lemma NoUpdatesAnswersEmpty(members: seq<(string, Json)>, comments: seq<(string, Json)>)
    requires HasKey(members, "comments") && Lookup(members, "comments") == Obj(comments)
    requires !HasKey(comments, "task_field_updates")
    ensures PrepareResponse(Obj(members)) == Ok(NoComment)
  {
  }

  /** On a task whose updates are a list, the response is decided by the loop. */
  lemma PrepareResponseOnList(task: Json, fields: seq<Json>)
    requires CarriesUpdates(task, fields)
    ensures PrepareResponse(task)
            == (match FirstMatch(fields)
                case Ok(hit) => Ok(if hit then CashComment else NoComment)
                case Raise(e) => Raise(e))
  {
  }

  /** First match wins: the loop stops with `true` at a matching record,
      provided no earlier record raised. */
  lemma {:induction false} FirstMatchWins(fields: seq<Json>, k: nat)
    requires k < |fields| && Matches(fields[k])
    requires forall j :: 0 <= j < k ==> FieldMatches(fields[j]).Ok?
    ensures FirstMatch(fields) == Ok(true)
  {
    if k > 0 && FieldMatches(fields[0]) == Ok(false) {
      FirstMatchWins(fields[1..], k - 1);
    }
  }

  /** Whichever record matches, at whatever position, the answer is the same
      comment, provided no earlier record raised. */
  lemma MatchAnswersComment(task: Json, fields: seq<Json>, k: nat)
    requires CarriesUpdates(task, fields)
    requires k < |fields| && Matches(fields[k])
    requires forall j :: 0 <= j < k ==> FieldMatches(fields[j]).Ok?
    ensures PrepareResponse(task) == Ok(CashComment)
  {
    FirstMatchWins(fields, k);
    PrepareResponseOnList(task, fields);
  }

  /** The loop raises the exception of the first record whose test raises, when
      no record before it matched. */
  lemma {:induction false} FirstRaiseEscapes(fields: seq<Json>, k: nat)
    requires k < |fields| && FieldMatches(fields[k]).Raise?
    requires forall j :: 0 <= j < k ==> FieldMatches(fields[j]) == Ok(false)
    ensures FirstMatch(fields) == Raise(FieldMatches(fields[k]).error)
  {
    if k > 0 {
      FirstRaiseEscapes(fields[1..], k - 1);
    }
  }

  /** When no record raises, the rule is an existence test over the records. */
  lemma CleanUpdatesAnswerByExistence(task: Json, fields: seq<Json>)
    requires CarriesUpdates(task, fields)
    requires forall k :: 0 <= k < |fields| ==> FieldMatches(fields[k]).Ok?
    ensures PrepareResponse(task)
            == Ok(if exists k :: 0 <= k < |fields| && Matches(fields[k]) then CashComment else NoComment)
  {
  }

  /** ... so reordering records that do not raise never changes the answer. */
  lemma CleanUpdatesOrderIrrelevant(taskA: Json, a: seq<Json>, taskB: Json, b: seq<Json>)
    requires CarriesUpdates(taskA, a) && CarriesUpdates(taskB, b)
    requires multiset(a) == multiset(b)
    requires forall k :: 0 <= k < |a| ==> FieldMatches(a[k]).Ok?
    ensures PrepareResponse(taskA) == PrepareResponse(taskB)
  {
    forall k | 0 <= k < |b| ensures FieldMatches(b[k]).Ok? {
      assert b[k] in multiset(a);
    }
    CleanUpdatesAnswerByExistence(taskA, a);
    CleanUpdatesAnswerByExistence(taskB, b);
    if exists k :: 0 <= k < |a| && Matches(a[k]) {
      var k :| 0 <= k < |a| && Matches(a[k]);
      assert a[k] in multiset(b);
      var j :| 0 <= j < |b| && b[j] == a[k];
    }
    if exists k :: 0 <= k < |b| && Matches(b[k]) {
      var k :| 0 <= k < |b| && Matches(b[k]);
      assert b[k] in multiset(a);
      var j :| 0 <= j < |a| && a[j] == b[k];
    }
  }

  /** With a record that raises, order matters: the same two records answer in
      one order and raise in the other. */
  lemma OrderMattersWhenARecordRaises()
    ensures var bad := Obj([("name", Str("x")), ("value", Obj([("choice_names", Arr([]))]))]);
            var good := ChoiceUpdate(PaymentTypeField, CashReceiptChoice);
            && PrepareResponse(TaskWithUpdates([good, bad])) == Ok(CashComment)
            && PrepareResponse(TaskWithUpdates([bad, good])) == Raise(IndexError)
  {
    var bad := Obj([("name", Str("x")), ("value", Obj([("choice_names", Arr([]))]))]);
    var good := ChoiceUpdate(PaymentTypeField, CashReceiptChoice);
    EmptyChoicesRaise(bad.members, [("choice_names", Arr([]))]);
    MatchAnswersComment(TaskWithUpdates([good, bad]), [good, bad], 0);
    FirstRaiseEscapes([bad, good], 0);
    PrepareResponseOnList(TaskWithUpdates([bad, good]), [bad, good]);
  }

  /** A single record matches exactly when both its name and its choice are the
      targets: a matching name with another choice, or the choice under another
      name, answers `{}`. */
  lemma SingleRecordRule(task: Json, name: string, choice: string)
    requires CarriesUpdates(task, [ChoiceUpdate(name, choice)])
    ensures PrepareResponse(task)
            == Ok(if name == PaymentTypeField && choice == CashReceiptChoice then CashComment else NoComment)
  {
  }

  /** `choice_names[0]` on an empty list raises `IndexError`, whatever the
      record's name: it is not counted as a non-match. */
  lemma EmptyChoicesRaise(members: seq<(string, Json)>, value: seq<(string, Json)>)
    requires HasKey(members, "value") && Lookup(members, "value") == Obj(value)
    requires HasKey(value, "choice_names") && Lookup(value, "choice_names") == Arr([])
    ensures FieldMatches(Obj(members)) == Raise(IndexError)
  {
  }

  // ---------------------------------------------------------------------------
  // Request handling
  // ---------------------------------------------------------------------------

  /** `process_request`: deny on a failed check; decode and parse the body,
      where only `JSONDecodeError` is caught; deny a body without `"task"`;
      otherwise answer by the payment rule. */
  function ProcessRequest(g: Guard, p: Primitives): (r: Result<Response>)
    ensures r.Ok? ==> r.value == Denied || r.value == CashComment || r.value == NoComment
    ensures r.Ok? && r.value.status == 200 ==> ValidateRequest(g, p.hmacSha1Hex) == Ok(true)
  {
    var valid :- ValidateRequest(g, p.hmacSha1Hex);
    if !valid then Ok(Denied)
    else
      match p.decodeUtf8(g.body.value)
      case None => Raise(UnicodeDecodeError)
      case Some(text) =>
        match p.loadsJson(text)
        case JsonDecodeError => Ok(Denied)
        case LoadRaised(e) => Raise(e)
        case Parsed(data) =>
          var hasTask :- PyIn(data, "task");
          if !hasTask then Ok(Denied)
          else
            var task :- PyGetItem(data, "task");
            PrepareResponse(task)
  }

  /** A failed check denies before the body is decoded or parsed: the answer is
      the same whatever the decoder and the parser do. */
  lemma InvalidSignatureDenied(g: Guard, p: Primitives)
    requires ValidateRequest(g, p.hmacSha1Hex) == Ok(false)
    ensures ProcessRequest(g, p) == Ok(Denied)
  {
  }

  lemma InvalidJsonDenied(g: Guard, p: Primitives, text: string)
    requires ValidateRequest(g, p.hmacSha1Hex) == Ok(true)
    requires p.decodeUtf8(g.body.value) == Some(text) && p.loadsJson(text) == JsonDecodeError
    ensures ProcessRequest(g, p) == Ok(Denied)
  {
  }

  lemma MissingTaskDenied(g: Guard, p: Primitives, text: string, members: seq<(string, Json)>)
    requires ValidateRequest(g, p.hmacSha1Hex) == Ok(true)
    requires p.decodeUtf8(g.body.value) == Some(text) && p.loadsJson(text) == Parsed(Obj(members))
    requires !HasKey(members, "task")
    ensures ProcessRequest(g, p) == Ok(Denied)
  {
  }

  lemma TaskDelegated(g: Guard, p: Primitives, text: string, members: seq<(string, Json)>)
    requires ValidateRequest(g, p.hmacSha1Hex) == Ok(true)
    requires p.decodeUtf8(g.body.value) == Some(text) && p.loadsJson(text) == Parsed(Obj(members))
    requires HasKey(members, "task")
    ensures ProcessRequest(g, p) == PrepareResponse(Lookup(members, "task"))
  {
  }

  /** A body that is not UTF-8 raises `UnicodeDecodeError` out of the request. */
  lemma NonUtf8BodyRaises(g: Guard, p: Primitives)
    requires ValidateRequest(g, p.hmacSha1Hex) == Ok(true)
    requires p.decodeUtf8(g.body.value) == None
    ensures ProcessRequest(g, p) == Raise(UnicodeDecodeError)
  {
  }

  /** `json.loads` raising anything but `JSONDecodeError` (a `RecursionError`
      on deeply nested input, a `ValueError` on an over-long integer) raises
      that exception out of the request. */
  lemma ParserErrorEscapes(g: Guard, p: Primitives, text: string, e: PyError)
    requires ValidateRequest(g, p.hmacSha1Hex) == Ok(true)
    requires p.decodeUtf8(g.body.value) == Some(text) && p.loadsJson(text) == LoadRaised(e)
    ensures ProcessRequest(g, p) == Raise(e)
  {
  }

  /** A JSON body that is a number, a boolean or null, or a list or string that
      holds "task", raises `TypeError` out of the request. */
  lemma NonObjectBodyRaises(g: Guard, p: Primitives, text: string, data: Json)
    requires ValidateRequest(g, p.hmacSha1Hex) == Ok(true)
    requires p.decodeUtf8(g.body.value) == Some(text) && p.loadsJson(text) == Parsed(data)
    requires data.Null? || data.Bool? || data.Num? || (data.Arr? && Str("task") in data.items)
             || (data.Str? && IsSubstring("task", data.s))
    ensures ProcessRequest(g, p) == Raise(TypeError)
  {
  }

  /** A request that the primitives decode and parse into a JSON object whose
      `task` is `task`. */
  predicate Delivers(g: Guard, p: Primitives, task: Json)
  {
    && g.body.Some?
    && var text := p.decodeUtf8(g.body.value);
    && text.Some?
    && var data := p.loadsJson(text.value);
    && data.Parsed? && data.data.Obj?
    && HasKey(data.data.members, "task") && Lookup(data.data.members, "task") == task
  }

  /** Signing a body with the secret and sending the digest as the header is
      accepted; a task with no field updates then answers `{}`. */
  lemma SignedRequestWithoutUpdates(body: seq<byte>, secret: string, p: Primitives, task: Json)
    requires body != [] && secret != ""
    requires IsLowerHex(p.hmacSha1Hex(secret, body))
    requires CarriesUpdates(task, [])
    requires Delivers(Guard(Some(body), Some(p.hmacSha1Hex(secret, body)), Some(secret)), p, task)
    ensures ProcessRequest(Guard(Some(body), Some(p.hmacSha1Hex(secret, body)), Some(secret)), p) == Ok(NoComment)
  {
  }

  /** A signed request whose one update sets the payment type answers with the
      cash comment when the choice is the cash receipt and `{}` otherwise. */
  lemma SignedPaymentTypeUpdate(g: Guard, p: Primitives, task: Json, choice: string)
    requires ValidateRequest(g, p.hmacSha1Hex) == Ok(true)
    requires CarriesUpdates(task, [ChoiceUpdate(PaymentTypeField, choice)])
    requires Delivers(g, p, task)
    ensures ProcessRequest(g, p) == Ok(if choice == CashReceiptChoice then CashComment else NoComment)
  {
  }
}
