/** The server's in-memory feedback list and its two API handlers. The list
    is one mutable array, appended to in place by the create handler.
 */
module Server {
  import opened Wrappers
  import opened Json
  import opened Feedback

  class FeedbackStore {
    /** The stored records, in insertion order. */
    var feedback: seq<Record>

    /** The store invariant: well-formed records, the one at index i with id i + 1. */
    ghost predicate Valid()
      reads this
    {
      WellFormedStore(feedback)
    }

    /** The store at startup holds only the seed record. */
    constructor ()
      ensures Valid()
      ensures feedback == [Seed]
    {
      feedback := [Seed];
    }

    /** GET /api/feedback: every record, in insertion order; the store is not
        touched. */
    method List() returns (records: seq<Record>)
      ensures records == feedback
    {
      records := feedback;
    }

    /** POST /api/feedback: read the two fields (a 500 when `String` throws),
        normalise them, answer 400 when either is empty, otherwise append a
        record with id = old length + 1 and answer 201 with it. */
    method Create(body: JsonValue, now: Timestamp) returns (response: Response)
      requires Valid()
      modifies this
      ensures Valid()
      ensures Outcome(feedback, response) == CreateFeedback(old(feedback), body, now)
      ensures response.Status() == 201 <==> Accepts(body)
      ensures response.Status() == 500 <==> Throws(body)
      ensures response.Status() != 201 ==> feedback == old(feedback)
      ensures response.Status() == 400 ==> response.error == RequiredError
      ensures response.Status() == 201 ==>
        feedback == old(feedback) + [response.record] && response.record.id == |old(feedback)| + 1
    {
      ghost var before := feedback;
      CreatePreservesWellFormed(before, body, now);
      var rawName := RawField(body, "name");
      var rawMessage := RawField(body, "message");
      if rawName.None? || rawMessage.None? {
        response := ServerError;
        assert CreateFeedback(before, body, now) == Outcome(feedback, response);
        return;
      }
      var name := Normalize(rawName.value, NameLimit);
      var message := Normalize(rawMessage.value, MessageLimit);
      if name == [] || message == [] {
        response := BadRequest(RequiredError);
        assert CreateFeedback(before, body, now) == Outcome(feedback, response);
        return;
      }
      var item := Record(|feedback| + 1, name, message, Some(now));
      feedback := feedback + [item];
      response := Created(item);
      assert CreateFeedback(before, body, now) == Outcome(feedback, response);
    }
  }

  /** An example run on a fresh server: posting
      {name: "Alice", message: "Great job!"} answers 201 with id 2, and a
      following list shows the seed, then Alice. */
  method AliceScenario(now: Timestamp) returns (response: Response, listed: seq<Record>)
    ensures response == Created(Record(2, "Alice", "Great job!", Some(now)))
    ensures listed == [Seed, Record(2, "Alice", "Great job!", Some(now))]
  {
    var store := new FeedbackStore();
    AlicePost(now);
    response := store.Create(PostBody("Alice", "Great job!"), now);
    listed := store.List();
  }

  /** An example rejection: an empty name answers 400 with the fixed
      error text, and the store still holds only the seed. */
  method EmptyNameScenario(now: Timestamp) returns (response: Response, listed: seq<Record>)
    ensures response.Status() == 400 && response == BadRequest("Name and message are required")
    ensures listed == [Seed]
  {
    var store := new FeedbackStore();
    FalsyFieldRejected([Seed], PostBody("", "Hi"), now);
    response := store.Create(PostBody("", "Hi"), now);
    listed := store.List();
  }
}
