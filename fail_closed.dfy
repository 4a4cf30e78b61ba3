/** The guard as it is meant to behave: every malformed input should end in
    the 403 denial or in a non-match, and no exception should leave the
    request. Nested keys are read by safe navigation: a missing key or a value
    of the wrong kind reads as "absent" instead of raising.

    Wherever `ReminderPaymentType.ProcessRequest` returns, this handler returns
    the same response (`FailClosedAgrees`); it differs only where the
    as-written code raises. */
module FailClosed {
  import opened Outcomes
  import opened JsonValue
  import opened ReminderPaymentType

  /** `task.comments.task_field_updates` by safe navigation: the list of
      records, or no records when a step is missing or is not a dict / list. */
  function FieldUpdates(task: Json): (fields: seq<Json>)
  {
    if task.Obj? && HasKey(task.members, "comments") then
      var comments := Lookup(task.members, "comments");
      if comments.Obj? && HasKey(comments.members, "task_field_updates") then
        var updates := Lookup(comments.members, "task_field_updates");
        if updates.Arr? then updates.items else []
      else []
    else []
  }

  /** The first-match scan without exceptions. */
  function AnyMatch(fields: seq<Json>): (r: bool)
    ensures r <==> exists k :: 0 <= k < |fields| && Matches(fields[k])
  {
    if fields == [] then false
    else if Matches(fields[0]) then true
    else
      assert forall k :: 1 <= k < |fields| ==> fields[k] == fields[1..][k - 1];
      AnyMatch(fields[1..])
  }

  /** The payment rule on any task: the cash comment exactly when some record
      of its field updates matches, `{}` otherwise. */
  function InterpretFailClosed(task: Json): (r: Response)
    ensures r.status == 200
    ensures r == CashComment <==> exists k :: 0 <= k < |FieldUpdates(task)| && Matches(FieldUpdates(task)[k])
  {
    if AnyMatch(FieldUpdates(task)) then CashComment else NoComment
  }

  /** The request handler with every failure turned into the denial. */
  function HandleFailClosed(g: Guard, p: Primitives): (r: Response)
    ensures r == Denied || r == CashComment || r == NoComment
    ensures r.status == 200 ==> ValidateRequest(g, p.hmacSha1Hex) == Ok(true)
  {
    if ValidateRequest(g, p.hmacSha1Hex) != Ok(true) then Denied
    else
      match p.decodeUtf8(g.body.value)
      case None => Denied
      case Some(text) =>
        match p.loadsJson(text)
        case JsonDecodeError => Denied
        case LoadRaised(_) => Denied
        case Parsed(data) =>
          if data.Obj? && HasKey(data.members, "task") then InterpretFailClosed(Lookup(data.members, "task"))
          else Denied
  }

  /** The loop over a dict's keys or a string's characters never matches. */
  lemma KeysAndCharactersNeverMatch(updates: Json)
    requires updates.Obj? || updates.Str?
    ensures PyIter(updates).Ok?
    ensures forall k :: 0 <= k < |PyIter(updates).value| ==> !Matches(PyIter(updates).value[k])
  {
  }

  /** Where the as-written payment rule answers, the fail-closed one gives the
      same answer. */
  lemma PrepareResponseAgrees(task: Json)
    requires PrepareResponse(task).Ok?
    ensures InterpretFailClosed(task) == PrepareResponse(task).value
  {
  }

  /** Where the as-written handler returns, the fail-closed one returns the same
      response. */
  lemma FailClosedAgrees(g: Guard, p: Primitives)
    requires ProcessRequest(g, p).Ok?
    ensures HandleFailClosed(g, p) == ProcessRequest(g, p).value
  {
    if ValidateRequest(g, p.hmacSha1Hex) == Ok(true) {
      var text := p.decodeUtf8(g.body.value).value;
      var data := p.loadsJson(text);
      if data.Parsed? && data.data.Obj? && HasKey(data.data.members, "task") {
        PrepareResponseAgrees(Lookup(data.data.members, "task"));
      }
    }
  }

  /** A body that is not UTF-8 is denied. */
  lemma NonUtf8BodyDenied(g: Guard, p: Primitives)
    requires ValidateRequest(g, p.hmacSha1Hex) == Ok(true)
    requires p.decodeUtf8(g.body.value) == None
    ensures HandleFailClosed(g, p) == Denied
  {
  }

  /** A body on which `json.loads` raises another exception is denied. */
  lemma ParserErrorDenied(g: Guard, p: Primitives, text: string, e: PyError)
    requires ValidateRequest(g, p.hmacSha1Hex) == Ok(true)
    requires p.decodeUtf8(g.body.value) == Some(text) && p.loadsJson(text) == LoadRaised(e)
    ensures HandleFailClosed(g, p) == Denied
  {
  }

  /** A JSON body that is not an object is denied. */
  lemma NonObjectBodyDenied(g: Guard, p: Primitives, text: string, data: Json)
    requires ValidateRequest(g, p.hmacSha1Hex) == Ok(true)
    requires p.decodeUtf8(g.body.value) == Some(text) && p.loadsJson(text) == Parsed(data)
    requires !data.Obj?
    ensures HandleFailClosed(g, p) == Denied
  {
  }

  /** A header with a character `compare_digest` refuses is denied. */
  lemma NonAsciiHeaderDenied(g: Guard, p: Primitives, i: nat)
    requires Complete(g) && i < |g.signature.value|
    requires g.signature.value[i] >= '\U{80}' && g.signature.value[i] != '\U{212A}'
    ensures HandleFailClosed(g, p) == Denied
  {
    NonAsciiHeaderRaises(g, p.hmacSha1Hex, i);
  }

  /** A record with an empty `choice_names` list is a non-match: it neither
      raises nor stops the records after it from matching. */
  lemma EmptyChoicesNoMatch(name: string, taskA: Json, taskB: Json, later: seq<Json>)
    requires CarriesUpdates(taskA, [Obj([("name", Str(name)), ("value", Obj([("choice_names", Arr([]))]))])] + later)
    requires CarriesUpdates(taskB, later)
    ensures InterpretFailClosed(taskA) == InterpretFailClosed(taskB)
  {
  }
}
