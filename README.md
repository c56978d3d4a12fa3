# JSON-RPC 2.0 exercise servers, modelled in Dafny

The repository holds five small Python servers, one per exercise. Each exposes
a single JSON-RPC 2.0 method: `sum` twice, then `subtract`, `multiply` and
`divide`. Each has a `handle_request` function that takes one decoded JSON
value and returns a response object, or `None` for "send nothing". Around it,
a stdio `__main__` block and (in four of the five) an HTTP `do_POST` handler
turn the outcome into output.

This project models, as pure Dafny functions over one `Json` datatype:

- `Rpc`: the code all five servers share. That is `make_error`; the envelope
  checks (an object, then `jsonrpc == "2.0"`, then a string `method`, first
  failure wins); routing to the one method, with `-32601` for any other name;
  and turning a method's outcome into a response. It is written once as
  `Dispatch(name, handler, req)`.
- one module per server (`IntroSum`, `ExerciseSum`, `Subtract`, `Multiply`,
  `Divide`). Each holds its method branch as a function returning
  `Ok(result)` or `Err(message)` (every such error is `-32602`). It covers the
  code up to the notification check. For `subtract` and `divide` it also
  covers the narrowing that comes after that check. The narrowing cannot
  fail, so doing it earlier gives the same outcome. Each module also holds
  its `handle_request` (which is `Dispatch` with that branch) and its stdio
  and HTTP outcome mappings.
- `Transport`: the outcome mapping over an abstract `Decoded(Json) |
  ParseFailure`. A parse failure gives a `-32700` response. `None` gives no
  output (stdio) or HTTP 204. Anything else gives one response (stdio) or
  HTTP 200.
- `PyNumbers` and `Numerals`: Python's `float(x)`, `isinstance(x, int)`,
  `int(f)` and `f.is_integer()` on decoded values, and `int(s)` / `float(s)`
  on decimal numeral strings.
- `Multiply.ProductOfList`: the one loop in the servers, a method proved
  equal to the left-fold product `Multiply.Product`.

Python's `None` and JSON `null` are the same value after `json.loads`, so both
are `JNull`. `req.get("id")` is `Get(fields, "id", JNull)`. JSON booleans are
Python `bool`s, which are `int`s: they count as the ints 0 and 1 everywhere a
number is read, as in the code. Numbers are exact (`int` and `real`).

Where the code and the JSON-RPC 2.0 design differ, the model follows the code.
A lemma shows each difference:

- Parameter errors are answered even for notifications, because the `"id" not
  in req` check is only on the success path (`Rpc.Dispatch`,
  `IntroSum.NotificationExamples`, `Divide.ZeroDivisorNotificationExample`).
- `make_error` drops an `id` of `null`, so an error response to a request
  with `"id": null` has no `id` key, while a success response keeps
  `"id": null` (`Rpc.NullIdOnlyInSuccess`).
- `sum` accepts an empty list and answers `0` (`IntroSum.EmptySumExample`).
- In solutions/exercise-001-intro the parse error response has no `id` key.
  The other four servers set it to `null` (`ExerciseSum.StdioMain`,
  `Transport.ParseErrorResponse`).
- `divide` narrows every integral quotient to an int, whatever the operand
  types, although its comment speaks of integer inputs (`Divide.Quotient`).
  `subtract` narrows every integral float difference (`Subtract.Narrow`).

## Model

| member | source | states |
|---|---|---|
| `Rpc.MakeError` | solutions/exercise-002-subtract/code/python/server.py:14-21 | the response always has `jsonrpc` "2.0" and an `error` with the given `code` and `message`; `data` is present iff it is non-null; `id` is present iff the given id is non-null, and then it is that id; no `result` |
| `Rpc.Validate` | solutions/exercise-002-subtract/code/python/server.py:46-54 | accepted iff the request is an object with `jsonrpc` "2.0" and a string `method`; a non-object gives -32600 with no `id`; otherwise a wrong `jsonrpc` gives -32600 with the non-null id echoed; otherwise a non-string `method` gives -32600 with the id echoed; the first failure wins |
| `Rpc.Success` | solutions/001-intro/code/python/server.py:55 | a success response has exactly the keys `jsonrpc` "2.0", `result` with the value and `id` with the request's id, null when the request has none |
| `Rpc.Answer` | solutions/exercise-002-subtract/code/python/server.py:60-85 | a method error becomes a -32602 response with that message and the non-null id, whether or not the request has an `id` key; a success gives no response iff the `id` key is absent, and otherwise gives exactly `jsonrpc`, `result` and `id` with the request's id |
| `Rpc.Dispatch` | solutions/001-intro/code/python/server.py:28-57 | invalid envelopes get the validator's response; another method name gets -32601 "Method not found" with the non-null id; the method's own name gets its branch's answer; there is no response iff the envelope is valid, the method matches, the branch succeeds and the `id` key is absent |
| `Rpc.ResultXorError` | solutions/001-intro/code/python/server.py:18-57 | every response has `jsonrpc` "2.0" and exactly one of `result` and `error` |
| `Rpc.IdIsEchoed` | solutions/001-intro/code/python/server.py:18-57 | an `id` in a response is the request's `id` value, never made up or altered |
| `Rpc.NullIdOnlyInSuccess` | solutions/001-intro/code/python/server.py:23-55 | for a request whose `id` is null, the response has an `id` key exactly when it is a success |
| `Transport.ParseErrorResponse` | solutions/001-intro/code/python/server.py:112-118 | the parse error response is exactly -32700 "Parse error" with `"id": null` when the id is forced, and with no `id` key otherwise |
| `Transport.StdioOutput` | solutions/001-intro/code/python/server.py:110-125 | at most one line is printed; none iff the input decoded and the dispatcher returned `None`; a parse failure prints the parse error response; otherwise the response is printed |
| `Transport.HttpPost` | solutions/001-intro/code/python/server.py:62-89 | the status is 200 or 204; it is 204 iff there is no body iff the body decoded and the dispatcher returned `None`; a parse failure sends the parse error with `"id": null` |
| `Transport.TransportIndependence` | solutions/001-intro/code/python/server.py:62-125 | stdio and HTTP deliver the same JSON-RPC payload for the same input |
| `Numerals.ParseInt` | solutions/exercise-002-subtract/code/python/server.py:41 | the model's `int(s)` succeeds iff the numeral is digits after an optional sign; a negative result needs a '-' sign, and a '-' sign gives a result of at most 0 |
| `Numerals.ParseMagnitude` | solutions/exercise-002-subtract/code/python/server.py:40 | the unsigned value of a decimal numeral is never negative and its integer part is the digits before the point; without a point it is the value of the digits |
| `Numerals.ParseFloat` | solutions/001-intro/code/python/server.py:46 | the model's `float(s)` accepts every numeral its `int(s)` accepts, with the same value; a negative result needs a '-' sign, and a '-' sign gives a result of at most 0 |
| `Numerals.ParseIntOfShowInt` | solutions/exercise-002-subtract/code/python/server.py:41 | a check of the model's parser rather than a promise of the code: `int(str(n)) == n` for every integer n |
| `Numerals.ParseFloatWithoutDot` | solutions/exercise-002-subtract/code/python/server.py:39-41 | on a string without '.', the model's `float` succeeds iff the model's `int` does, with the same value |
| `Numerals.ParseFloatOfShowInt` | solutions/001-intro/code/python/server.py:46 | a check of the model's parser rather than a promise of the code: `float(str(n)) == n` for every integer n |
| `PyNumbers.Trunc` | solutions/001-intro/code/python/server.py:49 | `int(f)` truncates toward zero and gives back f exactly when f is integral |
| `PyNumbers.PyFloat` | solutions/001-intro/code/python/server.py:46 | `float(x)` gives an int's (or bool's) value, keeps a float, and fails on null, lists and objects |
| `PyNumbers.FloatAll` | solutions/001-intro/code/python/server.py:46 | the comprehension `[float(x) for x in xs]` succeeds iff every item converts, and then holds each item's `float` in order |
| `IntroSum.FloatSum` | solutions/001-intro/code/python/server.py:46 | the left-to-right sum from 0 is also the first item plus the sum of the rest, a property of the exact-real abstraction (IEEE sums do not regroup), kept to document it |
| `IntroSum.FloatSumOfInts` | solutions/001-intro/code/python/server.py:45-49 | when every item is an int, the float sum equals the exact integer sum |
| `IntroSum.SumParams` | solutions/001-intro/code/python/server.py:41-51 | params default to []; non-list params give "Invalid params"; it fails iff some item does not convert, with "items must be numbers"; all-int items give the int sum; otherwise the float sum |
| `IntroSum.HandleRequest` | solutions/001-intro/code/python/server.py:28-57 | invalid envelopes as validated; another method gives -32601; a failing `sum` gives -32602 also for notifications; a successful one gives the result with the request's id, null included, or `None` without an `id` key |
| `IntroSum.StdioMain` | solutions/001-intro/code/python/server.py:110-125 | a parse failure prints -32700 with `"id": null`; `None` prints nothing; a response is printed once |
| `IntroSum.DoPost` | solutions/001-intro/code/python/server.py:62-89 | parse failure: 200 with the -32700 response; `None`: 204 with no body; otherwise 200 with the response |
| `IntroSum.IntTotalExample` | solutions/001-intro/code/python/server.py:45-55 | `sum` of [1,2,3] with id 1 answers the int 6 with id 1 |
| `IntroSum.FloatTotalExample` | solutions/001-intro/code/python/server.py:45-55 | `sum` of [1.5,2] answers the float 3.5 |
| `IntroSum.EmptySumExample` | solutions/001-intro/code/python/server.py:45-55 | `sum` of [] answers the int 0 |
| `IntroSum.NotificationExamples` | solutions/001-intro/code/python/server.py:45-54 | a notification with a non-numeric item still gets the -32602 error; a successful notification gets no response |
| `ExerciseSum.HandleRequest` | solutions/exercise-001-intro/code/python/server.py:23-52 | another method gives -32601 with the non-null id; no response iff a valid `sum` call succeeds and has no `id` key |
| `ExerciseSum.SameAsIntro` | solutions/exercise-001-intro/code/python/server.py:23-52 | the two `handle_request` texts are the same code, so this server's dispatcher answers every request as the one of solutions/001-intro does |
| `ExerciseSum.StdioMain` | solutions/exercise-001-intro/code/python/server.py:55-69 | a parse failure prints one -32700 error without an `id` key; `None` prints nothing; a response is printed once |
| `ExerciseSum.ErrorIdOnlyWhenNonNull` | solutions/exercise-001-intro/code/python/server.py:13-33 | an error response has an `id` key only when the request's id is present and non-null, and never for a non-object request |
| `Subtract.ToNumber` | solutions/exercise-002-subtract/code/python/server.py:32-42 | ints and bools stay ints and floats stay floats; null, lists and objects fail; a string with '.' gives the model's `float` of it as a float, any other string the model's `int` of it as an int; whenever it succeeds, the model's `float(x)` succeeds with the same value, and on non-strings the two succeed together |
| `Subtract.Minus` | solutions/exercise-002-subtract/code/python/server.py:67 | `a - b` has the difference of the values and is an int iff both operands are |
| `Subtract.Narrow` | solutions/exercise-002-subtract/code/python/server.py:83-84 | the sent result has the number's value and is an int iff that value is integral |
| `Subtract.Difference` | solutions/exercise-002-subtract/code/python/server.py:62-73 | fails with "minuend and subtrahend must be numbers" iff `to_number` refuses an operand; otherwise the result is the difference of the `to_number` values, an int iff it is integral, and it equals the difference of the operands' `float` values |
| `Subtract.SubtractParams` | solutions/exercise-002-subtract/code/python/server.py:56-76 | params default to []; a list shorter than 2 gives "expected two numbers", and a longer one uses only its first two items; an object uses `minuend` and `subtrahend`, a missing key counting as null; any other shape gives "Invalid params" |
| `Subtract.HandleRequest` | solutions/exercise-002-subtract/code/python/server.py:45-87 | invalid envelopes as validated; another method gives -32601; a failing `subtract` gives -32602 also for notifications; a success is answered with the id or suppressed without an `id` key |
| `Subtract.StdioMain` | solutions/exercise-002-subtract/code/python/server.py:137-149 | a parse failure prints -32700 with `"id": null`; `None` prints nothing; a response is printed once |
| `Subtract.DoPost` | solutions/exercise-002-subtract/code/python/server.py:92-117 | parse failure: 200 with the -32700 response; `None`: 204 with no body; otherwise 200 with the response |
| `Subtract.NamedExample` | solutions/exercise-002-subtract/code/python/server.py:68-85 | `{"minuend": "5.5", "subtrahend": 2.5}` answers the int 3 |
| `Subtract.ExponentOperandExample` | solutions/exercise-002-subtract/code/python/server.py:39-41 | a minuend "1e3" has no '.', so it goes through `int`, which refuses it, and the answer is "minuend and subtrahend must be numbers" |
| `Subtract.MissingOperandExample` | solutions/exercise-002-subtract/code/python/server.py:68-73 | a missing `subtrahend` gives "minuend and subtrahend must be numbers", for a notification too |
| `Multiply.ProductOfList` | solutions/003-multiply/code/python/server.py:22-26 | the loop's accumulator ends as the left-fold product from 1 |
| `Multiply.ProductOfIntegrals` | solutions/003-multiply/code/python/server.py:61-64 | a product of integral factors is integral, so narrowing it to an int loses nothing |
| `Multiply.Values` | solutions/003-multiply/code/python/server.py:47-52 | the values are found iff params is a list or an object whose `values` is a list; a list is used as it is, an object gives its `values` items |
| `Multiply.MultiplyParams` | solutions/003-multiply/code/python/server.py:41-64 | absent or null params, a shape other than a list or an object with a list `values`, and an empty list all give "at least one number required"; otherwise it fails iff some item does not convert, with "items must be numbers"; the result is the product of the converted items, an int iff every converted item is integral |
| `Multiply.HandleRequest` | solutions/003-multiply/code/python/server.py:29-70 | invalid envelopes as validated; another method gives -32601; a failing `multiply` gives -32602 also for notifications; a success is answered with the id or suppressed without an `id` key |
| `Multiply.StdioMain` | solutions/003-multiply/code/python/server.py:120-132 | a parse failure prints -32700 with `"id": null`; `None` prints nothing; a response is printed once |
| `Multiply.DoPost` | solutions/003-multiply/code/python/server.py:75-100 | parse failure: 200 with the -32700 response; `None`: 204 with no body; otherwise 200 with the response |
| `Multiply.IntegralFloatExample` | solutions/003-multiply/code/python/server.py:47-68 | `{"values": [2.0, 3]}` answers the int 6, since the test runs after conversion |
| `Multiply.NullParamsExample` | solutions/003-multiply/code/python/server.py:42-44 | null params give "at least one number required", for a notification too |
| `Divide.Quotient` | solutions/004-divide/code/python/server.py:44-58 | a non-converting operand gives "dividend and divisor must be numbers"; a zero divisor gives "division by zero"; otherwise the result is the quotient, an int iff it is integral |
| `Divide.DivideParams` | solutions/004-divide/code/python/server.py:30-53 | params default to []; a list shorter than 2 gives "expected two numbers", and a longer one uses only its first two items; an object uses `dividend` and `divisor`, a missing key counting as null; any other shape gives "Invalid params" |
| `Divide.HandleRequest` | solutions/004-divide/code/python/server.py:19-61 | invalid envelopes as validated; another method gives -32601; a failing `divide`, division by zero included, gives -32602 also for notifications; a success is answered with the id or suppressed without an `id` key |
| `Divide.StdioMain` | solutions/004-divide/code/python/server.py:112-124 | a parse failure prints -32700 with `"id": null`; `None` prints nothing; a response is printed once |
| `Divide.DoPost` | solutions/004-divide/code/python/server.py:66-92 | parse failure: 200 with the -32700 response; `None`: 204 with no body; otherwise 200 with the response |
| `Divide.ZeroDivisorExample` | solutions/004-divide/code/python/server.py:50-51 | `[10, 0]` with id 3 gives -32602 "division by zero" with id 3 |
| `Divide.ZeroDivisorNotificationExample` | solutions/004-divide/code/python/server.py:50-55 | a notification dividing by zero still gets the error |
| `Divide.QuotientKindExamples` | solutions/004-divide/code/python/server.py:53-58 | 1/2 gives the float 0.5, and 3.0/1.5 gives the int 2 |

## Left out

- The HTTP server machinery is not modelled: `HTTPServer`, `serve_forever`,
  headers, `Content-Length`, reading the body. Neither are stdin/stdout,
  `argparse` and the `TEST_HOST`/`TEST_PORT` variables. They are I/O; only
  the mapping from outcome to status and body (or printed line) is kept.
- Input that is not valid UTF-8 is not modelled. It raises before
  `json.loads` runs: in `.decode('utf-8')` of the HTTP body
  (solutions/001-intro/code/python/server.py:64, and the same line in the
  other HTTP servers) and in `sys.stdin.read()` (line 111). Such input gets no
  reply at all, where `Transport.ParseFailure` gives -32700.
- `json.loads` and `json.dumps` are not modelled. Decoding is the abstract
  `Transport.Input` (`Decoded(value)` or `ParseFailure`). Responses are
  `Json` values, not compact bytes, and maps do not keep the key order of
  Python dicts.
- IEEE floating point is not modelled. Python floats are exact reals here, so
  rounding in `float(i)`, in sums, products and quotients, the precision lost
  by `int(total)` for huge values, and `inf`/`nan` are outside the model.
  In particular, a float quotient that overflows is `inf` in Python, sent as
  the non-JSON token `Infinity`, while the model answers the exact quotient
  (solutions/004-divide/code/python/server.py:53-59).
- PyNumbers.PyFloat: strings are read by `Numerals.ParseFloat`, which accepts
  only an optional sign, digits and at most one '.'. Python's `float` also
  accepts surrounding whitespace, underscores, non-ASCII digits, exponents,
  `inf` and `nan`.
- Subtract.ToNumber: strings without '.' are read by `Numerals.ParseInt`
  (optional sign and digits). Python's `int` also accepts surrounding
  whitespace, underscores and non-ASCII digits.
- Numerals.ParseFloatWithoutDot: the agreement of `float` and `int` on
  strings without '.' holds only for the restricted grammar. Python's
  `float` also takes "1e3", "inf" or "nan", where `int` raises, so there
  `to_number` fails while the servers using `float` succeed.
- Numerals.ParseInt: Python 3.11 and later refuse to convert a string of
  more than 4300 digits; the model has no such limit.
- Overflow of float conversion is not modelled. `float(i)` of an int beyond
  the float range raises OverflowError. Inside the `try` blocks of `sum`,
  `multiply` and `divide`, this gives "must be numbers", while the model
  computes the exact result.
- Overflow outside the `try` blocks is not modelled either. No response is
  sent in these cases, while the model answers:
  - `int(prod)` of an infinite product
    (solutions/003-multiply/code/python/server.py:64);
  - `a - b` of a huge int and a float
    (solutions/exercise-002-subtract/code/python/server.py:67).
- `is_number` in solutions/exercise-002-subtract is never called, so it is
  not modelled.
- The `data` argument of `make_error` is modelled (`Rpc.MakeError`), but no
  caller passes it, so every server response has `code` and `message` only.
- scripts/run-tests.py and scripts/check-exercise-001-intro.py are not part
  of this model. They are fixture runners built on subprocesses, files, HTTP
  and polling.
