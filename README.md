# Feedback board: in-memory store and create handler

This project models the core of a small feedback board server (`server.js`).
The server keeps an ordered, in-memory list of feedback records `{id, name,
message, createdAt}`. It starts with one seed record from "System". Two API
handlers work on the list:

- `GET /api/feedback` returns the whole list unchanged.
- `POST /api/feedback` reads `name` and `message` from the JSON body. A
  missing or falsy field becomes `""`, and any other value is coerced with
  `String(...)`. When that coercion throws (a field that is an object with
  its own `toString` property), the request ends with the framework's 500
  and nothing is stored. Each field is trimmed and then cut to 100 (name)
  or 1000 (message) characters. If either field is then empty, the handler
  answers 400 with `"Name and message are required"`. Otherwise it appends
  a record whose id is the old list length + 1 and answers 201 with that
  record.

Modules, one per concern:

- `Text` (`text.dfy`): ECMAScript `String.prototype.trim`, built from
  `TrimStart` and `TrimEnd` over the ECMAScript whitespace set, and
  `slice(0, n)` as `Take`. It also gives an independent characterisation of
  trim (`TrimIsMiddle`) and its consequences.
- `Json` (`json.dfy`): parsed JSON values, JavaScript truthiness, property
  access and `String(...)` coercion, including when it throws and the
  decimal printing of integers with its round trip.
- `Wrappers` (`wrappers.dfy`): the `Option` type.
- `Feedback` (`feedback.dfy`): records, the limits, the seed, the store
  invariant, and the create handler as a pure function `CreateFeedback`
  from the old list, body and timestamp to the new list and response. It
  also holds the lemmas about that function and about any sequence of posts.
- `Server` (`server.dfy`): the mutable list as the class `FeedbackStore`.
  The class has a `seq<Record>` field that `Create` reassigns, the way the
  source pushes onto its array. `Create` is proved against `CreateFeedback`.
  Two client methods replay example runs against a fresh store.

The store invariant (`WellFormedStore`) says that the record at index i has
id i + 1. It also says that every record has a non-empty name of at most 100
characters and a non-empty message of at most 1000 characters, and that
neither field starts with whitespace. Stored fields are not claimed to be
fully trimmed: the cut comes after the trim, so a stored name can end with a
space (`StoredNameMayEndInWhitespace`).

The handler truncates before its emptiness check (`server.js:62-65`). Both
limits are positive, so it accepts exactly the posts whose trimmed fields are
non-empty (`CreateFeedback`'s `Accepts` clause). Created records get a
`createdAt` (`server.js:73`), but the seed record (`server.js:12`) has none,
so the model's field is an `Option` and the seed holds `None`.

## Model

| member | source | states |
|---|---|---|
| Text.TrimStart | server.js:62-63 | the result is a suffix of the input, everything dropped is whitespace, and the result is empty or starts with non-whitespace |
| Text.TrimEnd | server.js:62-63 | the result is a prefix of the input, everything dropped is whitespace, and the result is empty or ends with non-whitespace |
| Text.Trim | server.js:62-63 | `trim()` is no longer than its input and is empty or starts and ends with non-whitespace; these clauses alone do not fix the value, which `TrimIsMiddle` pins down |
| Text.Take | server.js:62-63 | `slice(0, n)` is a prefix of the input of length min(n, length), and is the whole input when the input is no longer than n |
| Text.TrimIsMiddle | server.js:62-63 | a string split into a whitespace prefix, a middle that is empty or bounded by non-whitespace, and a whitespace suffix trims to exactly that middle |
| Text.TrimEmptyIff | server.js:62-65 | a field trims to the empty string exactly when every character is whitespace |
| Text.TrimIdempotent | server.js:62-63 | trimming twice gives the same string as trimming once |
| Text.TrimOfTrimmed | server.js:62-63 | a string that neither starts nor ends with whitespace is unchanged by trim |
| Json.Truthy | server.js:59-60 | a value is falsy exactly when it is undefined, null, false, 0 or the empty string; arrays and objects are always truthy |
| Json.JsString | server.js:59-60 | `String(v)` throws exactly when `v` is, or is an array containing, an object with its own `toString`; a string converts to itself, any other object to "[object Object]", the empty array to "" |
| Json.JoinItems | server.js:59-60 | joining array elements with "," fails exactly when converting one of the elements fails |
| Json.NatToDecimal | server.js:59-60 | `String(n)` for n >= 0 is a non-empty digit string without a leading zero |
| Json.DecimalRoundTrip | server.js:59-60 | reading the printed digits of n back gives n |
| Json.IntToString | server.js:59-60 | `String(n)` for an integer is non-empty, starts with '-' exactly when n is negative, and the digits after the sign read back to the magnitude of n |
| Feedback.RawField | server.js:59-60 | reading a field fails exactly when the body and the field are truthy and `String` throws on the field; a falsy body or a missing or falsy field gives `""`; a string field gives the string itself |
| Feedback.Normalize | server.js:62-63 | the normalised field is the first min(limit, length of the trimmed input) characters of the trimmed input, and it is empty or starts with non-whitespace |
| Feedback.CreateFeedback | server.js:58-81 | the answer is 500 exactly when reading a field throws; the post is accepted exactly when both fields read and both trimmed fields are non-empty; anything but an acceptance leaves the list unchanged, and a 400 carries the fixed error; an acceptance appends one record, with id old length + 1, the given timestamp, and the truncated trimmed fields |
| Feedback.SeedStore | server.js:11-13 | the initial list holds one record, with id 1 and name "System", and satisfies the store invariant |
| Feedback.IdsIncrease | server.js:70 | under the store invariant, ids strictly increase with position, so they are unique |
| Feedback.CreatedRecordWellFormed | server.js:62-75 | every created record has a non-empty name of at most 100 characters and a non-empty message of at most 1000 characters, neither starting with whitespace |
| Feedback.AppendWellFormed | server.js:69-75 | appending a well-formed record whose id is the length + 1 keeps the store invariant |
| Feedback.CreatePreservesWellFormed | server.js:58-81 | a post keeps the store invariant, and a created record's id exceeds every earlier id |
| Feedback.FalsyFieldRejected | server.js:59-67 | a body whose name or message is missing or falsy gets 400 (500 if reading the other field throws) and leaves the list unchanged |
| Feedback.BlankFieldRejected | server.js:62-67 | when both fields read, a field that is all whitespace gets 400 and leaves the list unchanged |
| Feedback.ThrowingFieldFails | server.js:59-60 | a name or message whose `String` conversion throws ends the request with 500 and leaves the list unchanged |
| Feedback.OwnToStringFails | server.js:59 | the body {"name": {"toString": 1}, "message": "hi"} gets 500 and stores nothing |
| Feedback.TrimmedPostTruncated | server.js:62-75 | string fields with no surrounding whitespace are stored as their first 100 (name) and 1000 (message) characters, so a 150-character name keeps exactly its first 100 |
| Feedback.AlicePost | server.js:11-13 | posting {name: "Alice", message: "Great job!"} to a fresh board appends record 2 with exactly those fields after the seed |
| Feedback.StoredNameMayEndInWhitespace | server.js:62-63 | when the 100th character of a longer trimmed name is whitespace, the post is accepted and the stored name is not trimmed |
| Feedback.ReplayAppendOnly | server.js:70-75 | over any sequence of posts, the earlier list is a prefix of the later one, the list grows by one per accepted post, and the store invariant holds |
| Server.FeedbackStore.constructor | server.js:11-13 | the store starts as exactly the seed record and satisfies the invariant |
| Server.FeedbackStore.List | server.js:53-55 | listing returns every record in insertion order and changes nothing |
| Server.FeedbackStore.Create | server.js:58-81 | the new list and the response are those of CreateFeedback on the old list; the status is 500 exactly when reading a field throws and 201 exactly when the post is accepted; a 400 or 500 leaves the list unchanged; a 201 appends the returned record last with id old length + 1; the invariant is kept |
| Server.AliceScenario | server.js:53-81 | on a fresh server, posting Alice answers 201 with record 2, and listing then gives the seed followed by Alice |
| Server.EmptyNameScenario | server.js:58-67 | on a fresh server, posting an empty name answers 400 with "Name and message are required", and the list still holds only the seed |

## Left out

- Express wiring (CORS, body parsing, static files, `server.js:2-18`): these are library calls. A request body arrives here as an already parsed `JsonValue`.
- Request logging and the "Saved feedback" log line (`server.js:21-43`, `78`): these produce console output only.
- `/health` and the fallback that serves `index.html` (`server.js:48-50`, `84-86`): these depend on the clock and on file I/O.
- Server startup, signal handlers and the 10-second forced exit (`server.js:89-107`): these are process and timer plumbing.
- Timestamps: `new Date().toISOString()` becomes the parameter `now` of `Create` and `CreateFeedback`.
- Concurrency: the model handles one request at a time, as the Node event loop does for this synchronous handler. Duplicate ids under concurrent writers are not modelled.
- JSON numbers: only integers are modelled. Non-integer numbers and `-0` are not.
- Json.IntToString: prints the exact decimal digits of any integer. JavaScript parses JSON numbers into doubles, so an integer beyond 2^53 is rounded and then printed with the shortest round-tripping digits (`String(2**60)` is "1152921504606847000"), and from 1e21 upward in exponent form. The model does not reproduce either.
- The 500 answer: its body (the framework's error page) is not modelled, only that the request ends with status 500 and nothing stored.
- String length: Dafny strings are sequences of Unicode scalar values, but JavaScript's `slice` counts UTF-16 code units. The limits therefore differ for characters outside the Basic Multilingual Plane.
- Property lookup: `body.name` reads only the body's own fields. Inherited prototype properties are not modelled, since `Object.prototype` has no `name` or `message`.
- JSON serialisation of responses: a response is the `Response` value, not its JSON text.
- The browser client (`public/app.js`): it is DOM and network code. Its trim-and-empty guard repeats the server's check.
