/** The Feedback collection's schema: a user's review with a rating, and the
    `createdAt` timestamp that the listing sorts on. */
module FeedbackSchema {
  import opened Common

  /** A stored Feedback document. `userId` is optional here because the
      submission route stores documents without it (see Conforms). */
  datatype Feedback = Feedback(
    id: ObjectId,
    userId: Option<UserId>,
    name: string,
    email: string,
    rating: int,
    comments: string,
    createdAt: int)

  /** The schema's required fields: `userId`, and the non-empty strings `name`,
      `email` and `comments`. `rating` is a required number with no bounds. */
  predicate Conforms(f: Feedback)
  {
    f.userId.Some? && f.name != "" && f.email != "" && f.comments != ""
  }

  ghost predicate DistinctIds(records: seq<Feedback>)
  {
    forall i, j :: 0 <= i < j < |records| ==> records[i].id != records[j].id
  }
}
