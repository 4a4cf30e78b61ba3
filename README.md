# Reminder payment-type webhook guard

A model of `ReminderPaymentType`, the guard that answers webhook calls from
the Pyrus task service. For each call it does three things:

- It checks the `X-Pyrus-Sig` header. The header must equal the lowercase hex
  HMAC-SHA1 of the body, keyed by the shared secret. The header is lowercased
  first.
- It parses the body as JSON and takes its `task`.
- It scans `task.comments.task_field_updates`. When a record sets the field
  "Тип оплаты / Статус" to the first choice "✅Нал (чек)", it answers with a
  fixed `formatted_text` comment. Otherwise it answers `{}`.

The model is pure: the guard's fields are set once and never change. Every
operation is a function of the captured request (`Guard`: body, signature
header, secret) and of the foreign primitives (`Primitives`: HMAC-SHA1 hex,
UTF-8 decoding and `json.loads`). Those primitives are function-valued
parameters, so every property holds for every HMAC, decoder and parser.

An outcome is a `Result`. It is either a returned `(body, status)` pair or the
exception the Python code lets escape.

Files:

- `outcomes.dfy`: `Option`, the Python exceptions involved, and `Result`.
- `json_value.dfy`: the values `json.loads` returns. It also gives the Python
  operators the guard applies to them: `k in v`, `v["k"]`, `v[0]` and
  `for x in v`. Each one raises exactly where Python does.
- `reminder_payment_type.dfy`: `_validate_request`, `_prepare_response` and
  `process_request`, each with its properties.
- `fail_closed.dfy`: the intended fail-closed handler used by the Findings
  below. It is proved to agree with the as-written handler wherever that one
  returns.

The guard is meant to fail closed: no exception should leave a request, and a
non-UTF-8 body, a body that is not JSON, or a missing `task` should all give
the 403 denial. The code catches only `json.JSONDecodeError`. The model
follows the code, and the difference is listed under Findings.

## Model

| member | source | states |
|---|---|---|
| ReminderPaymentType.ValidateRequest | bot/reminder_payment_type.py:20-38 | acceptance implies the header, a non-empty secret and a non-empty body are all present, and the digest equals the lowercased header; only `TypeError` can be raised, and only once all three inputs are present |
| ReminderPaymentType.MissingSignatureRejected | bot/reminder_payment_type.py:22-25 | with no signature header the check returns false, whatever the body and the secret |
| ReminderPaymentType.MissingSecretRejected | bot/reminder_payment_type.py:27-29 | with the header present, a missing or empty secret gives false, whatever the body |
| ReminderPaymentType.MissingBodyRejected | bot/reminder_payment_type.py:31-33 | with the header present, a missing or empty body gives false, whatever the secret |
| ReminderPaymentType.ValidateDecides | bot/reminder_payment_type.py:35-38 | with all three inputs present, an ASCII header and a lowercase-hex digest, the check returns exactly "digest == lower(header)" |
| ReminderPaymentType.HeaderCaseInsensitive | bot/reminder_payment_type.py:36-38 | for a lowercase-hex digest, the check accepts if and only if the header equals the digest ignoring case |
| ReminderPaymentType.DigestCaseSensitive | bot/reminder_payment_type.py:37-38 | a digest containing an upper-case letter matches no header: case is ignored on the header side only |
| ReminderPaymentType.NonAsciiHeaderRaises | bot/reminder_payment_type.py:38 | a header with a non-ASCII character (other than KELVIN SIGN) makes the check raise `TypeError` instead of returning false |
| ReminderPaymentType.FieldMatches | bot/reminder_payment_type.py:55-65 | the loop body's test, which evaluates `IsPaymentType` (`isPaymenType`, lines 55-57) and then `IsCorrectPaymentType` (`isCorrectPaymenType`, lines 58-63) before combining them, when it returns, agrees with the payment rule `Matches`; a matching record never raises |
| ReminderPaymentType.FirstMatch | bot/reminder_payment_type.py:54-66 | when the loop returns, it returns true if and only if some record matches; a list with no raising record never raises |
| ReminderPaymentType.PrepareResponse | bot/reminder_payment_type.py:40-68 | every normal return is the cash comment or `{}`, both with status 200; it never answers 403 |
| ReminderPaymentType.NoCommentsAnswersEmpty | bot/reminder_payment_type.py:47-68 | a task dict without `comments` answers `("{}", 200)` |
| ReminderPaymentType.NoUpdatesAnswersEmpty | bot/reminder_payment_type.py:47-68 | a `comments` dict without `task_field_updates` answers `("{}", 200)` |
| ReminderPaymentType.PrepareResponseOnList | bot/reminder_payment_type.py:51-68 | for any task dict whose `comments` dict holds a list of updates (other keys allowed at both levels), the response is the loop's verdict: a hit gives the cash comment, no hit gives `{}`, and an exception propagates |
| ReminderPaymentType.FirstMatchWins | bot/reminder_payment_type.py:54-66 | if record k matches and no earlier record raises, the loop stops with a hit |
| ReminderPaymentType.MatchAnswersComment | bot/reminder_payment_type.py:54-66 | for any task carrying a list of updates, if record k matches and no earlier record raises, the answer is the cash comment; it is the same constant for every k |
| ReminderPaymentType.FirstRaiseEscapes | bot/reminder_payment_type.py:54-66 | if no earlier record matches or raises, the first raising record's exception escapes the loop |
| ReminderPaymentType.CleanUpdatesAnswerByExistence | bot/reminder_payment_type.py:54-68 | for any task carrying a list of updates none of which raises, the answer is the cash comment if and only if some record matches, and `{}` otherwise |
| ReminderPaymentType.CleanUpdatesOrderIrrelevant | bot/reminder_payment_type.py:54-68 | two tasks whose update lists are reorderings of each other, with no raising record, get the same answer |
| ReminderPaymentType.OrderMattersWhenARecordRaises | bot/reminder_payment_type.py:54-66 | with a raising record, order matters: a match followed by it answers, while the reverse order raises `IndexError` |
| ReminderPaymentType.SingleRecordRule | bot/reminder_payment_type.py:55-68 | for any task carrying a single name/choice record, it answers with the comment if and only if both its name and its choice are the targets; the right name with another choice gives `{}`, and so does the right choice under another name |
| ReminderPaymentType.EmptyChoicesRaise | bot/reminder_payment_type.py:58-63 | a record whose `choice_names` is empty raises `IndexError`, whatever its name |
| ReminderPaymentType.ProcessRequest | bot/reminder_payment_type.py:70-88 | every normal return is the denial, the cash comment or `{}`; any status 200 implies the signature check passed |
| ReminderPaymentType.InvalidSignatureDenied | bot/reminder_payment_type.py:71-73 | a failed check gives `("🚫 Access Denied", 403)`, whatever the decoder and the parser do |
| ReminderPaymentType.InvalidJsonDenied | bot/reminder_payment_type.py:77-88 | a signed body on which `json.loads` raises `JSONDecodeError` is denied with 403 |
| ReminderPaymentType.MissingTaskDenied | bot/reminder_payment_type.py:79-85 | a signed JSON object without `task` is denied with 403 |
| ReminderPaymentType.TaskDelegated | bot/reminder_payment_type.py:79-82 | a signed JSON object with `task` answers exactly what the payment rule answers for that task |
| ReminderPaymentType.NonUtf8BodyRaises | bot/reminder_payment_type.py:77-88 | a signed body that is not UTF-8 raises `UnicodeDecodeError` out of the request |
| ReminderPaymentType.ParserErrorEscapes | bot/reminder_payment_type.py:77-88 | any other exception from `json.loads` (`RecursionError`, `ValueError`) escapes the request |
| ReminderPaymentType.NonObjectBodyRaises | bot/reminder_payment_type.py:78-81 | signed JSON that is a number, boolean or null, or a list or string holding "task", raises `TypeError` |
| ReminderPaymentType.SignedRequestWithoutUpdates | bot/reminder_payment_type.py:70-88 | a body signed with the secret's digest, whose JSON object's `task` carries an empty update list, answers `("{}", 200)` |
| ReminderPaymentType.SignedPaymentTypeUpdate | bot/reminder_payment_type.py:70-88 | a signed body whose task's one update names the payment-type field answers with the comment when the choice is "✅Нал (чек)", and `("{}", 200)` otherwise |
| FailClosed.AnyMatch | bot/reminder_payment_type.py:54-66 | the exception-free scan is true if and only if some record matches |
| FailClosed.InterpretFailClosed | bot/reminder_payment_type.py:40-68 | always status 200; the cash comment if and only if a record among the safely navigated updates matches |
| FailClosed.HandleFailClosed | bot/reminder_payment_type.py:70-88 | returns only the denial, the cash comment or `{}`, and status 200 only after a passing signature check |
| FailClosed.KeysAndCharactersNeverMatch | bot/reminder_payment_type.py:54-63 | iterating a dict (its keys) or a string (its characters) never yields a matching record |
| FailClosed.PrepareResponseAgrees | bot/reminder_payment_type.py:40-68 | wherever the as-written payment rule returns, the fail-closed one returns the same response |
| FailClosed.FailClosedAgrees | bot/reminder_payment_type.py:70-88 | wherever the as-written handler returns, the fail-closed handler returns the same response |
| FailClosed.NonUtf8BodyDenied | bot/reminder_payment_type.py:77-88 | the fail-closed handler denies a signed non-UTF-8 body with 403 |
| FailClosed.ParserErrorDenied | bot/reminder_payment_type.py:77-88 | the fail-closed handler denies a signed body on which `json.loads` raises any other exception with 403 |
| FailClosed.NonObjectBodyDenied | bot/reminder_payment_type.py:78-85 | the fail-closed handler denies signed JSON that is not an object with 403 |
| FailClosed.NonAsciiHeaderDenied | bot/reminder_payment_type.py:38 | the fail-closed handler denies a header with a non-ASCII character with 403 |
| FailClosed.EmptyChoicesNoMatch | bot/reminder_payment_type.py:58-65 | in the fail-closed rule, putting a record with an empty `choice_names` in front of any update list does not change the answer |
| JsonValue.HasKeyIffSomeMember | bot/reminder_payment_type.py:48 | the key test of a dict holds exactly when some member carries the key |
| JsonValue.Lookup | bot/reminder_payment_type.py:52 | a dict subscript returns the value of the first member that carries the key |

## Left out

- The Flask `Request` and the header lookup (lines 10-16) are left out. The body and the `X-Pyrus-Sig` value are plain optional inputs.
- `pyrus_login`, `cache` and the `PyrusAPI` client (lines 5, 13, 17-18) are left out, because the decision path never uses them. `pyrus_api_handler` is not part of this model.
- Logging with `print` is left out, because it only observes.
- HMAC-SHA1, the hex digest, the UTF-8 encoding of the secret, `bytes.decode("utf-8")` and `json.loads` are not modelled. Each is a function-valued field of `Primitives`. The secret's encoding is folded into `hmacSha1Hex`. Lemmas that need the digest to be lowercase hex (as `hexdigest()` always is) take that as a hypothesis.
- `hmac.compare_digest` is a library primitive (`CompareDigest`). It is taken as equality when both strings are ASCII and as raising `TypeError` otherwise. Its constant-time behaviour is left out, because timing cannot be stated here.
- `json.loads` can end in three ways: it returns a value, it raises the caught `JSONDecodeError`, or it raises another exception. The other exceptions are `RecursionError` on deep nesting and `ValueError` on an over-long integer. Which inputs lead to which outcome is not modelled.
- `str.lower()` is modelled only for the characters whose lowercase form is ASCII: A-Z and KELVIN SIGN. Other characters are kept as they are. Python maps some of them to other non-ASCII text, but that never changes whether the lowered header is ASCII or whether it equals an ASCII digest.
- JSON numbers keep only their literal text, because no code here compares numbers.
- A JSON object is a list of members in insertion order. The type allows a key to repeat, and lookups take the first member with the key. `json.loads` keeps the last value of a repeated key, at the position where the key first appears, and returns a dict with distinct keys. So a `loadsJson` that matches `json.loads` returns objects with distinct keys that hold the last value; the model does not require this of `loadsJson`.
- The HTML of the comment is kept as the literal constant. Its markup, including the unclosed list, is not interpreted.
- The reply is built by string interpolation, not by a JSON encoder. The comment holds no double quote or backslash, so this produces valid JSON. A JSON encoder would give the same JSON value but not the same text: `json.dumps` spaces the object differently and escapes the Cyrillic letters as `\uXXXX`.

## Findings

| source | as written | input that shows it | evidently intended | confidence | as-written member | corrected member |
|---|---|---|---|---|---|---|
| bot/reminder_payment_type.py:77-88 | only `json.JSONDecodeError` is caught, so a `UnicodeDecodeError` from `decode("utf-8")` escapes the request | a correctly signed body of the single byte 0xFF | the 403 denial, as for any malformed body | medium, not executed | ReminderPaymentType.NonUtf8BodyRaises | FailClosed.NonUtf8BodyDenied |
| bot/reminder_payment_type.py:77-88 | only `json.JSONDecodeError` is caught, so a `RecursionError` or `ValueError` from `json.loads` escapes the request | a correctly signed body of 200000 `[` characters | the 403 denial, as for any malformed body | medium, not executed | ReminderPaymentType.ParserErrorEscapes | FailClosed.ParserErrorDenied |
| bot/reminder_payment_type.py:79-81 | `"task" in data` and `data["task"]` assume `data` is a dict, so other JSON raises `TypeError` | a correctly signed body `5`, or `["task"]` | the 403 denial | medium, not executed | ReminderPaymentType.NonObjectBodyRaises | FailClosed.NonObjectBodyDenied |
| bot/reminder_payment_type.py:62 | `choice_names[0]` is read without an emptiness check, so an empty list raises `IndexError` | a record `{"name":"x","value":{"choice_names":[]}}` | a non-match, as for any other choice | medium, not executed | ReminderPaymentType.EmptyChoicesRaise | FailClosed.EmptyChoicesNoMatch |
| bot/reminder_payment_type.py:38 | `hmac.compare_digest` raises `TypeError` on a non-ASCII string, and the check is outside the `try` | an `X-Pyrus-Sig` header `é` with a secret and a body present | the 403 denial for a signature that does not match | medium, not executed | ReminderPaymentType.NonAsciiHeaderRaises | FailClosed.NonAsciiHeaderDenied |

`FailClosed.FailClosedAgrees` proves that the corrected handler changes nothing
where the code as written returns a response.
