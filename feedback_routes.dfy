/** The feedback routes: `POST /feedback` (validate, store, decide whether
    the client is sent on to a Google review), `GET /feedback` (all records,
    newest first), and get, put and delete by id. The Feedback collection is
    an in-memory table; `now` is the clock. */
module FeedbackRoutes {
  import opened Common
  import opened FeedbackSchema

  const AllFieldsRequired: string := "All fields are required"
  const RatingOutOfRange: string := "Rating must be between 1 and 5"
  const RedirectMessage: string := "Feedback submitted! Redirect to Google review."
  const ThanksMessage: string := "Feedback submitted. Thank you!"
  /** The review link placeholder the route sends back. */
  const GoogleReviewLink: string := " "

  /** The fields `POST /feedback` reads from the request body. */
  datatype SubmitBody = SubmitBody(name: Option<string>, email: Option<string>,
                                   rating: Option<int>, comments: Option<string>)

  /** A `PUT /feedback/:id` body: the fields it sets. */
  datatype FeedbackPatch = FeedbackPatch(userId: Option<UserId>, name: Option<string>, email: Option<string>,
                                         rating: Option<int>, comments: Option<string>)

  datatype FeedbackReply =
    | BadRequest(message: string)
    | Submitted(message: string, googleReviewLink: Option<string>)
    | FeedbackList(feedbacks: seq<Feedback>)
    | FeedbackFound(feedback: Feedback)
    | FeedbackUpdated(feedback: Feedback)
    | FeedbackDeleted
    | FeedbackNotFound
  {
    /** The HTTP status code of the reply. */
    function Code(): nat
    {
      match this
      case BadRequest(_) => 400
      case Submitted(_, _) => 201
      case FeedbackNotFound => 404
      case _ => 200
    }
  }

  /** `!rating` is false for a present, non-zero number. */
  predicate RatingTruthy(rating: Option<int>)
  {
    rating.Some? && rating.value != 0
  }

  predicate AllFieldsPresent(b: SubmitBody)
  {
    Truthy(b.name) && Truthy(b.email) && RatingTruthy(b.rating) && Truthy(b.comments)
  }

  /** The two checks in order: a missing or falsy field first, then the 1..5
      range. `None` means the submission is accepted. */
  function Validate(b: SubmitBody): (err: Option<string>)
    ensures err == Some(AllFieldsRequired) <==> !AllFieldsPresent(b)
    ensures err == Some(RatingOutOfRange) <==>
      AllFieldsPresent(b) && (b.rating.value < 1 || b.rating.value > 5)
    ensures err.None? <==> AllFieldsPresent(b) && 1 <= b.rating.value <= 5
    ensures b.rating == Some(0) ==> err == Some(AllFieldsRequired)
  {
    if !AllFieldsPresent(b) then Some(AllFieldsRequired)
    else if b.rating.value < 1 || b.rating.value > 5 then Some(RatingOutOfRange)
    else None
  }

  /** The 201 reply to an accepted submission: a review link exactly for
      ratings of four and up. */
  function Acknowledge(rating: int): (r: FeedbackReply)
    ensures r.Submitted? && r.Code() == 201
    ensures r.googleReviewLink.Some? <==> rating >= 4
    ensures r.googleReviewLink.Some? ==> r.googleReviewLink.value == GoogleReviewLink && r.message == RedirectMessage
    ensures r.googleReviewLink.None? ==> r.message == ThanksMessage
  {
    if rating >= 4 then Submitted(RedirectMessage, Some(GoogleReviewLink))
    else Submitted(ThanksMessage, None)
  }

  /** The document an accepted submission stores: the four body fields and no
      `userId`. */
  function SubmittedRecord(id: ObjectId, b: SubmitBody, now: int): (f: Feedback)
    requires Validate(b).None?
    ensures f.id == id && f.createdAt == now && f.userId.None?
    ensures Some(f.name) == b.name && Some(f.email) == b.email
    ensures Some(f.rating) == b.rating && Some(f.comments) == b.comments
    ensures 1 <= f.rating <= 5
  {
    Feedback(id, None, b.name.value, b.email.value, b.rating.value, b.comments.value, now)
  }

  /** The stored submission misses the schema's required `userId`. */
  lemma SubmittedRecordLacksUserId(id: ObjectId, b: SubmitBody, now: int)
    requires Validate(b).None?
    ensures !Conforms(SubmittedRecord(id, b, now))
  {
  }

  ghost predicate NewestFirst(s: seq<Feedback>)
  {
    forall i, j :: 0 <= i < j < |s| ==> s[i].createdAt >= s[j].createdAt
  }

  /** Inserting one record before the first record that is not newer than it. */
  function InsertNewestFirst(f: Feedback, s: seq<Feedback>): (r: seq<Feedback>)
    ensures multiset(r) == multiset(s) + multiset{f}
  {
    if s == [] || f.createdAt >= s[0].createdAt then [f] + s
    else
      assert s == [s[0]] + s[1..];
      [s[0]] + InsertNewestFirst(f, s[1..])
  }

  ghost predicate NoNewerThan(s: seq<Feedback>, t: int)
  {
    forall i :: 0 <= i < |s| ==> s[i].createdAt <= t
  }

  /** Inserting a record no newer than `t` keeps every record no newer than `t`. */
  lemma {:induction false} InsertKeepsNoNewerThan(f: Feedback, s: seq<Feedback>, t: int)
    requires NoNewerThan(s, t) && f.createdAt <= t
    ensures NoNewerThan(InsertNewestFirst(f, s), t)
  {
    if s != [] && f.createdAt < s[0].createdAt {
      InsertKeepsNoNewerThan(f, s[1..], t);
    }
  }

  /** Inserting into a newest-first sequence keeps it newest first. */
  lemma {:induction false} InsertKeepsNewestFirst(f: Feedback, s: seq<Feedback>)
    requires NewestFirst(s)
    ensures NewestFirst(InsertNewestFirst(f, s))
  {
    if s != [] && f.createdAt < s[0].createdAt {
      var tail := s[1..];
      InsertKeepsNewestFirst(f, tail);
      assert NoNewerThan(tail, s[0].createdAt) by {
        forall i | 0 <= i < |tail|
          ensures tail[i].createdAt <= s[0].createdAt
        {
          assert tail[i] == s[i + 1];
        }
      }
      InsertKeepsNoNewerThan(f, tail, s[0].createdAt);
      var rest := InsertNewestFirst(f, tail);
      assert InsertNewestFirst(f, s) == [s[0]] + rest;
    }
  }

  /** `find().sort({ createdAt: -1 })`: the same records, newest first. */
  function SortNewestFirst(s: seq<Feedback>): (r: seq<Feedback>)
    ensures NewestFirst(r)
    ensures multiset(r) == multiset(s)
  {
    if s == [] then []
    else
      assert s == [s[0]] + s[1..];
      var sorted := SortNewestFirst(s[1..]);
      InsertKeepsNewestFirst(s[0], sorted);
      InsertNewestFirst(s[0], sorted)
  }

  /** `GET /feedback`. */
  function ListFeedback(records: seq<Feedback>): (r: FeedbackReply)
    ensures r.FeedbackList? && r.Code() == 200
    ensures NewestFirst(r.feedbacks) && multiset(r.feedbacks) == multiset(records)
  {
    FeedbackList(SortNewestFirst(records))
  }

  /** `findById(id)`. */
  function FindFeedback(records: seq<Feedback>, id: ObjectId): (r: Option<Feedback>)
    ensures r.Some? ==> r.value in records && r.value.id == id
    ensures r.None? <==> forall i :: 0 <= i < |records| ==> records[i].id != id
  {
    if records == [] then None
    else if records[0].id == id then Some(records[0])
    else FindFeedback(records[1..], id)
  }

  /** `GET /feedback/:id`. */
  function GetFeedback(records: seq<Feedback>, id: ObjectId): (r: FeedbackReply)
    ensures r == FeedbackNotFound <==> forall i :: 0 <= i < |records| ==> records[i].id != id
    ensures r != FeedbackNotFound ==> r.FeedbackFound? && r.feedback in records && r.feedback.id == id
  {
    match FindFeedback(records, id)
    case None => FeedbackNotFound
    case Some(f) => FeedbackFound(f)
  }

  /** The fields a patch carries replace the record's; `_id` and `createdAt`
      are kept, and no field is validated (a rating of 9 is stored as is). */
  function Merge(f: Feedback, p: FeedbackPatch): (r: Feedback)
    ensures r.id == f.id && r.createdAt == f.createdAt
    // every field the body gives replaces the stored one; every other is kept
    ensures r.userId == (if p.userId.Some? then p.userId else f.userId)
    ensures r.name == (if p.name.Some? then p.name.value else f.name)
    ensures r.email == (if p.email.Some? then p.email.value else f.email)
    ensures r.rating == (if p.rating.Some? then p.rating.value else f.rating)
    ensures r.comments == (if p.comments.Some? then p.comments.value else f.comments)
    ensures p == FeedbackPatch(None, None, None, None, None) ==> r == f
  {
    Feedback(f.id,
             if p.userId.Some? then p.userId else f.userId,
             if p.name.Some? then p.name.value else f.name,
             if p.email.Some? then p.email.value else f.email,
             if p.rating.Some? then p.rating.value else f.rating,
             if p.comments.Some? then p.comments.value else f.comments,
             f.createdAt)
  }

  /** Applying the same patch twice is applying it once. */
  lemma MergeIdempotent(f: Feedback, p: FeedbackPatch)
    ensures Merge(Merge(f, p), p) == Merge(f, p)
  {
  }

  /** `findByIdAndUpdate(id, body)`: the record with that id is merged, every
      other record is kept. */
  function UpdateById(records: seq<Feedback>, id: ObjectId, p: FeedbackPatch): (r: seq<Feedback>)
    ensures |r| == |records|
    ensures forall i :: 0 <= i < |records| ==>
      r[i] == if records[i].id == id then Merge(records[i], p) else records[i]
  {
    if records == [] then []
    else
      var head := if records[0].id == id then Merge(records[0], p) else records[0];
      [head] + UpdateById(records[1..], id, p)
  }

  /** `findByIdAndDelete(id)`: exactly the records with that id are gone. */
  function RemoveById(records: seq<Feedback>, id: ObjectId): (r: seq<Feedback>)
    ensures forall f :: f in r <==> f in records && f.id != id
    ensures (forall i :: 0 <= i < |records| ==> records[i].id != id) ==> r == records
  {
    if records == [] then []
    else
      assert records == [records[0]] + records[1..];
      if records[0].id == id then RemoveById(records[1..], id)
      else [records[0]] + RemoveById(records[1..], id)
  }

  /** Deleting keeps the ids distinct. */
  lemma {:induction false} RemoveByIdKeepsDistinct(records: seq<Feedback>, id: ObjectId)
    requires DistinctIds(records)
    ensures DistinctIds(RemoveById(records, id))
  {
    if records != [] {
      var tail := records[1..];
      assert DistinctIds(tail);
      RemoveByIdKeepsDistinct(tail, id);
      var rest := RemoveById(tail, id);
      if records[0].id != id {
        forall g | g in rest
          ensures g.id != records[0].id
        {
          var k :| 0 <= k < |tail| && tail[k] == g;
          assert records[k + 1] == g;
        }
      }
    }
  }

  /** With distinct ids, deleting a present id removes exactly one record. */
  lemma {:induction false} RemoveByIdRemovesOne(records: seq<Feedback>, id: ObjectId)
    requires DistinctIds(records)
    requires exists i :: 0 <= i < |records| && records[i].id == id
    ensures |RemoveById(records, id)| == |records| - 1
  {
    var tail := records[1..];
    assert DistinctIds(tail);
    if records[0].id == id {
      assert RemoveById(tail, id) == tail by {
        forall i | 0 <= i < |tail|
          ensures tail[i].id != id
        {
          assert records[0].id != records[i + 1].id;
        }
      }
    } else {
      var i :| 0 <= i < |records| && records[i].id == id;
      assert tail[i - 1].id == id;
      RemoveByIdRemovesOne(tail, id);
    }
  }

  class FeedbackCollection {
    var records: seq<Feedback>
    var nextId: ObjectId

    ghost predicate Valid()
      reads this
    {
      DistinctIds(records) && forall i :: 0 <= i < |records| ==> records[i].id < nextId
    }

    constructor ()
      ensures Valid() && records == []
    {
      records, nextId := [], 0;
    }

    /** `POST /feedback`. */
    method Submit(b: SubmitBody, now: int) returns (reply: FeedbackReply)
      requires Valid()
      modifies this
      ensures Valid()
      ensures Validate(b).Some? ==>
        reply == BadRequest(Validate(b).value) && records == old(records) && nextId == old(nextId)
      ensures Validate(b).None? ==>
        && reply == Acknowledge(b.rating.value)
        && records == old(records) + [SubmittedRecord(old(nextId), b, now)]
        && nextId == old(nextId) + 1
    {
      var err := Validate(b);
      if err.Some? {
        reply := BadRequest(err.value);
        return;
      }
      records := records + [SubmittedRecord(nextId, b, now)];
      nextId := nextId + 1;
      reply := Acknowledge(b.rating.value);
    }

    /** `PUT /feedback/:id`. */
    method Update(id: ObjectId, p: FeedbackPatch) returns (reply: FeedbackReply)
      requires Valid()
      modifies this
      ensures Valid() && nextId == old(nextId)
      ensures FindFeedback(old(records), id).None? ==> reply == FeedbackNotFound && records == old(records)
      ensures FindFeedback(old(records), id).Some? ==>
        && records == UpdateById(old(records), id, p)
        && reply == FeedbackUpdated(Merge(FindFeedback(old(records), id).value, p))
    {
      var found := FindFeedback(records, id);
      if found.None? {
        reply := FeedbackNotFound;
        return;
      }
      records := UpdateById(records, id, p);
      reply := FeedbackUpdated(Merge(found.value, p));
    }

    /** `DELETE /feedback/:id`. */
    method Delete(id: ObjectId) returns (reply: FeedbackReply)
      requires Valid()
      modifies this
      ensures Valid() && nextId == old(nextId)
      ensures FindFeedback(old(records), id).None? ==> reply == FeedbackNotFound && records == old(records)
      ensures FindFeedback(old(records), id).Some? ==>
        reply == FeedbackDeleted && records == RemoveById(old(records), id)
    {
      var found := FindFeedback(records, id);
      if found.None? {
        reply := FeedbackNotFound;
        return;
      }
      RemoveByIdKeepsDistinct(records, id);
      records := RemoveById(records, id);
      reply := FeedbackDeleted;
    }
  }
}
