/** One-time user feedback (app/api/feedbacks.py): a message of 5 to 5000 characters is
 *  stored once per user, after which the user's `is_feedback_submitted` flag refuses any
 *  further submission. */
module Feedbacks {
  import opened Common
  import opened Records

  const MIN_MESSAGE := 5
  const MAX_MESSAGE := 5000

  const ALREADY_SUBMITTED := "You have already submitted feedback. Thank you!"
  const SYSTEM_ERROR := "System error. Please try again later."
  const TOO_SHORT := "String should have at least 5 characters"
  const TOO_LONG := "String should have at most 5000 characters"
  const SUBMITTED := "Feedback submitted successfully"

  type FeedbackId = nat

  datatype Feedback = Feedback(id: FeedbackId, userId: UserId, message: string)

  /** The `Field(min_length=5, max_length=5000)` check of the request body (422). */
  function MessageError(message: string): (r: Option<string>)
    ensures r.None? <==> MIN_MESSAGE <= |message| <= MAX_MESSAGE
  {
    if |message| < MIN_MESSAGE then Some(TOO_SHORT)
    else if |message| > MAX_MESSAGE then Some(TOO_LONG)
    else None
  }

  /** The reply of `create_feedback` for a user whose flag is `submitted`; `commitFails` stands
   *  for an exception from the database, which is rolled back. */
  function CreateFeedbackReply(submitted: bool, message: string, newId: FeedbackId, commitFails: bool): (r: Result<FeedbackId>)
    ensures r.Ok? <==> MessageError(message).None? && !submitted && !commitFails
    ensures r.Ok? ==> r.value == newId
    ensures r == Err(403, ALREADY_SUBMITTED) <==> MessageError(message).None? && submitted
    ensures r == Err(500, SYSTEM_ERROR) <==> MessageError(message).None? && !submitted && commitFails
  {
    if MessageError(message).Some? then Err(422, MessageError(message).value)
    else if submitted then Err(403, ALREADY_SUBMITTED)
    else if commitFails then Err(500, SYSTEM_ERROR)
    else Ok(newId)
  }

  /** The feedback table and the users whose flag is set. */
  class FeedbackTable {
    var feedbacks: seq<Feedback>
    var submitted: set<UserId>

    /** Every stored feedback belongs to a user whose flag is set, and no user has two. */
    predicate Valid()
      reads this
    {
      (forall i :: 0 <= i < |feedbacks| ==> feedbacks[i].userId in submitted)
      && forall i, j :: 0 <= i < j < |feedbacks| ==> feedbacks[i].userId != feedbacks[j].userId
    }

    constructor (submitted: set<UserId>)
      ensures Valid()
      ensures feedbacks == [] && this.submitted == submitted
    {
      feedbacks := [];
      this.submitted := submitted;
    }

    /** `create_feedback`: on success one record is added and the user's flag is set; on any
     *  refusal or rollback nothing changes. */
    method CreateFeedback(user: UserId, message: string, newId: FeedbackId, commitFails: bool) returns (r: Result<FeedbackId>)
      requires Valid()
      modifies this
      ensures Valid()
      ensures r == CreateFeedbackReply(user in old(submitted), message, newId, commitFails)
      ensures r.Ok? ==> feedbacks == old(feedbacks) + [Feedback(newId, user, message)]
                        && submitted == old(submitted) + {user}
      ensures r.Err? ==> feedbacks == old(feedbacks) && submitted == old(submitted)
    {
      var invalid := MessageError(message);
      if invalid.Some? {
        return Err(422, invalid.value);
      }
      if user in submitted {
        return Err(403, ALREADY_SUBMITTED);
      }
      if commitFails {
        return Err(500, SYSTEM_ERROR);
      }
      feedbacks := feedbacks + [Feedback(newId, user, message)];
      submitted := submitted + {user};
      r := Ok(newId);
    }
  }

  /** After a success, the same user's next submission is refused with 403 whatever its
   *  message, as long as that message passes the length check. */
  lemma SecondSubmissionRefused(message: string, newId: FeedbackId, message2: string, newId2: FeedbackId, fails2: bool)
    requires CreateFeedbackReply(false, message, newId, false).Ok?
    requires MessageError(message2).None?
    ensures CreateFeedbackReply(true, message2, newId2, fails2) == Err(403, ALREADY_SUBMITTED)
  {
  }
}
