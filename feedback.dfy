/** The feedback board's data and the decision its create handler makes:
    how a posted body is normalised into a name and a message, when it is
    rejected, and which record is appended when it is accepted.
 */
module Feedback {
  import opened Text
  import opened Json
  import opened Wrappers

  /** The ISO-8601 creation time, supplied by the caller (the wall clock is
      outside the model). */
  type Timestamp = string

  datatype Record = Record(id: int, name: string, message: string, createdAt: Option<Timestamp>)

  const NameLimit: nat := 100
  const MessageLimit: nat := 1000
  const RequiredError: string := "Name and message are required"

  /** The one record the board starts with; it carries no creation time. */
  const Seed: Record := Record(1, "System", "Welcome to the Feedback Board!", None)

  /** What the create handler answers: 201 with the stored record, 400 with
      an error text, or the framework's 500 when the handler throws. */
  datatype Response = Created(record: Record) | BadRequest(error: string) | ServerError {
    function Status(): int {
      match this
      case Created(_) => 201
      case BadRequest(_) => 400
      case ServerError => 500
    }
  }

  /** The store after a post, and the response to it. */
  datatype Outcome = Outcome(store: seq<Record>, response: Response)

  function Min(a: nat, b: nat): nat {
    if a <= b then a else b
  }

  /** `(body && body.key) ? String(body.key) : ''`: a missing or falsy field
      (or a falsy body) reads as the empty string, a string field as itself,
      anything else as its JavaScript string form; None when `String` throws. */
  function RawField(body: JsonValue, key: string): (r: Option<string>)
    ensures r.None? <==> Truthy(body) && Truthy(Member(body, key)) && ToStringThrows(Member(body, key))
    ensures !Truthy(body) || !Truthy(Member(body, key)) ==> r == Some([])
    ensures Member(body, key).Str? ==> r == Some(Member(body, key).s)
  {
    if Truthy(body) && Truthy(Member(body, key)) then JsString(Member(body, key)) else Some("")
  }

  /** `raw.trim().slice(0, limit)`: the first min(limit, |trim(raw)|)
      characters of the trimmed field. The result never starts with
      whitespace, but it may end with whitespace when the cut falls on it. */
  function Normalize(raw: string, limit: nat): (r: string)
    ensures |r| == Min(limit, |Trim(raw)|)
    ensures r == Trim(raw)[..|r|]
    ensures r == [] || !IsWhitespace(r[0])
  {
    Take(Trim(raw), limit)
  }

  /** A record as the handler stores it: both fields present, within their
      limits, and neither starting with whitespace. */
  predicate WellFormedRecord(r: Record) {
    0 < |r.name| <= NameLimit && !IsWhitespace(r.name[0]) &&
    0 < |r.message| <= MessageLimit && !IsWhitespace(r.message[0])
  }

  /** The store invariant: every record is well formed and the record at
      index i has id i + 1. */
  predicate WellFormedStore(s: seq<Record>) {
    forall i :: 0 <= i < |s| ==> s[i].id == i + 1 && WellFormedRecord(s[i])
  }

  /** Whether reading a field of the body throws, so that the handler
      never reaches its checks. */
  predicate Throws(body: JsonValue) {
    RawField(body, "name").None? || RawField(body, "message").None?
  }

  /** Whether the handler accepts a body: both fields read, and both are
      non-empty after trim. */
  predicate Accepts(body: JsonValue) {
    !Throws(body) &&
    Trim(RawField(body, "name").value) != [] && Trim(RawField(body, "message").value) != []
  }

  /** POST /api/feedback on the store `store` at time `now`. */
  function CreateFeedback(store: seq<Record>, body: JsonValue, now: Timestamp): (o: Outcome)
    ensures o.response.ServerError? <==> Throws(body)
    ensures o.response.Created? <==> Accepts(body)
    ensures !o.response.Created? ==> o.store == store
    ensures o.response.BadRequest? ==> o.response.error == RequiredError
    ensures o.response.Created? ==>
      var rec := o.response.record;
      var name := Trim(RawField(body, "name").value);
      var message := Trim(RawField(body, "message").value);
      o.store == store + [rec] && rec.id == |store| + 1 && rec.createdAt == Some(now) &&
      rec.name == name[..Min(NameLimit, |name|)] &&
      rec.message == message[..Min(MessageLimit, |message|)]
  {
    var rawName := RawField(body, "name");
    var rawMessage := RawField(body, "message");
    if rawName.None? || rawMessage.None? then
      Outcome(store, ServerError)
    else
      var name := Normalize(rawName.value, NameLimit);
      var message := Normalize(rawMessage.value, MessageLimit);
      if name == [] || message == [] then
        Outcome(store, BadRequest(RequiredError))
      else
        var rec := Record(|store| + 1, name, message, Some(now));
        Outcome(store + [rec], Created(rec))
  }

  /** The board as it starts: one record, the seed, with id 1 and name "System". */
  lemma SeedStore()
    ensures WellFormedStore([Seed])
    ensures [Seed][0].id == 1 && [Seed][0].name == "System"
  {
  }

  /** Under the store invariant ids are unique and increase with position. */
  lemma IdsIncrease(s: seq<Record>, i: nat, j: nat)
    requires WellFormedStore(s) && i < j < |s|
    ensures s[i].id < s[j].id
  {
  }

  /** Every record the handler creates is well formed. */
  lemma CreatedRecordWellFormed(store: seq<Record>, body: JsonValue, now: Timestamp)
    requires CreateFeedback(store, body, now).response.Created?
    ensures WellFormedRecord(CreateFeedback(store, body, now).response.record)
  {
    var name := Normalize(RawField(body, "name").value, NameLimit);
    var message := Normalize(RawField(body, "message").value, MessageLimit);
    assert CreateFeedback(store, body, now).response.record == Record(|store| + 1, name, message, Some(now));
  }

  lemma AppendWellFormed(store: seq<Record>, rec: Record)
    requires WellFormedStore(store) && WellFormedRecord(rec) && rec.id == |store| + 1
    ensures WellFormedStore(store + [rec])
  {
  }

  /** A post keeps the store invariant; the new id is above every earlier one. */
  lemma CreatePreservesWellFormed(store: seq<Record>, body: JsonValue, now: Timestamp)
    requires WellFormedStore(store)
    ensures WellFormedStore(CreateFeedback(store, body, now).store)
    ensures CreateFeedback(store, body, now).response.Created? ==>
      forall i :: 0 <= i < |store| ==> store[i].id < CreateFeedback(store, body, now).response.record.id
  {
    var o := CreateFeedback(store, body, now);
    if o.response.Created? {
      CreatedRecordWellFormed(store, body, now);
      AppendWellFormed(store, o.response.record);
    }
  }

  /** A body whose name or message is missing or falsy is answered 400 and
      leaves the store as it was, unless reading the other field throws. */
  lemma FalsyFieldRejected(store: seq<Record>, body: JsonValue, now: Timestamp)
    requires !Truthy(Member(body, "name")) || !Truthy(Member(body, "message"))
    ensures Throws(body) ==> CreateFeedback(store, body, now) == Outcome(store, ServerError)
    ensures !Throws(body) ==> CreateFeedback(store, body, now) == Outcome(store, BadRequest(RequiredError))
  {
  }

  /** A field made of whitespace only is rejected in the same way. */
  lemma BlankFieldRejected(store: seq<Record>, body: JsonValue, now: Timestamp)
    requires !Throws(body)
    requires AllWhitespace(RawField(body, "name").value) || AllWhitespace(RawField(body, "message").value)
    ensures CreateFeedback(store, body, now) == Outcome(store, BadRequest(RequiredError))
  {
    TrimEmptyIff(RawField(body, "name").value);
    TrimEmptyIff(RawField(body, "message").value);
  }

  /** A name or message whose `String` conversion throws (an object with its
      own `toString`, or an array holding one) ends the request with the
      framework's 500 before anything is stored. */
  lemma ThrowingFieldFails(store: seq<Record>, body: JsonValue, now: Timestamp)
    requires Truthy(body)
    requires (Truthy(Member(body, "name")) && ToStringThrows(Member(body, "name"))) ||
             (Truthy(Member(body, "message")) && ToStringThrows(Member(body, "message")))
    ensures CreateFeedback(store, body, now) == Outcome(store, ServerError)
    ensures CreateFeedback(store, body, now).response.Status() == 500
  {
  }

  /** For example, {"name": {"toString": 1}, "message": "hi"} is answered
      500 and stores nothing. */
  lemma OwnToStringFails(store: seq<Record>, now: Timestamp)
    ensures var body := Object(map["name" := Object(map["toString" := Int(1)]), "message" := Str("hi")]);
      CreateFeedback(store, body, now) == Outcome(store, ServerError)
  {
    var body := Object(map["name" := Object(map["toString" := Int(1)]), "message" := Str("hi")]);
    assert Member(body, "name") == Object(map["toString" := Int(1)]);
    ThrowingFieldFails(store, body, now);
  }

  /** The body `{name, message}` with two string fields. */
  function PostBody(name: string, message: string): (body: JsonValue)
    ensures Member(body, "name") == Str(name) && Member(body, "message") == Str(message)
  {
    Object(map["name" := Str(name), "message" := Str(message)])
  }

  lemma PostBodyFields(name: string, message: string)
    ensures RawField(PostBody(name, message), "name") == Some(name)
    ensures RawField(PostBody(name, message), "message") == Some(message)
  {
    var body := PostBody(name, message);
    assert Member(body, "name").Str? && Member(body, "message").Str?;
  }

  /** Already-trimmed strings are stored as their first 100 (name) and 1000
      (message) characters: a 150-character name keeps exactly its first 100. */
  lemma TrimmedPostTruncated(store: seq<Record>, name: string, message: string, now: Timestamp)
    requires name != [] && IsTrimmed(name)
    requires message != [] && IsTrimmed(message)
    ensures CreateFeedback(store, PostBody(name, message), now).response
      == Created(Record(|store| + 1, Take(name, NameLimit), Take(message, MessageLimit), Some(now)))
  {
    var body := PostBody(name, message);
    PostBodyFields(name, message);
    TrimOfTrimmed(name);
    TrimOfTrimmed(message);
    assert Accepts(body);
  }

  /** An example post: {name: "Alice", message: "Great job!"} on a fresh
      board is stored unchanged as record 2, after the seed. */
  lemma AlicePost(now: Timestamp)
    ensures CreateFeedback([Seed], PostBody("Alice", "Great job!"), now)
      == Outcome([Seed, Record(2, "Alice", "Great job!", Some(now))],
                 Created(Record(2, "Alice", "Great job!", Some(now))))
  {
    assert IsTrimmed("Alice") && IsTrimmed("Great job!");
    assert Take("Alice", NameLimit) == "Alice" && Take("Great job!", MessageLimit) == "Great job!";
    TrimmedPostTruncated([Seed], "Alice", "Great job!", now);
  }

  /** Truncation happens after trimming, so a stored name is not always
      trimmed: when the 100th character of a longer trimmed name is
      whitespace, the stored name ends with it. */
  lemma StoredNameMayEndInWhitespace(store: seq<Record>, name: string, message: string, now: Timestamp)
    requires |name| > NameLimit && IsTrimmed(name) && IsWhitespace(name[NameLimit - 1])
    requires message != [] && IsTrimmed(message)
    ensures CreateFeedback(store, PostBody(name, message), now).response.Created?
    ensures !IsTrimmed(CreateFeedback(store, PostBody(name, message), now).response.record.name)
  {
    TrimmedPostTruncated(store, name, message, now);
    var stored := Take(name, NameLimit);
    assert stored[|stored| - 1] == name[NameLimit - 1];
    assert !IsTrimmed(stored);
  }

  /** A post submitted to the server, in arrival order. */
  datatype Post = Post(body: JsonValue, at: Timestamp)

  /** The store after handling `posts` one after another. */
  function Replay(store: seq<Record>, posts: seq<Post>): seq<Record>
    decreases |posts|
  {
    if posts == [] then store
    else Replay(CreateFeedback(store, posts[0].body, posts[0].at).store, posts[1..])
  }

  /** How many of `posts` the handler accepts. */
  function AcceptedCount(posts: seq<Post>): (n: nat)
    ensures n <= |posts|
  {
    if posts == [] then 0 else (if Accepts(posts[0].body) then 1 else 0) + AcceptedCount(posts[1..])
  }

  /** Any sequence of posts only appends: the earlier store is a prefix of
      the later one, which grows by one record per accepted post and keeps
      the store invariant (so ids stay unique and increasing). */
  lemma {:induction false} ReplayAppendOnly(store: seq<Record>, posts: seq<Post>)
    requires WellFormedStore(store)
    ensures store <= Replay(store, posts)
    ensures |Replay(store, posts)| == |store| + AcceptedCount(posts)
    ensures WellFormedStore(Replay(store, posts))
    decreases |posts|
  {
    if posts != [] {
      var next := CreateFeedback(store, posts[0].body, posts[0].at).store;
      CreatePreservesWellFormed(store, posts[0].body, posts[0].at);
      ReplayAppendOnly(next, posts[1..]);
    }
  }
}
