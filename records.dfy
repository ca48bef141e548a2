/**
 * The two record kinds of a Reddit dump (dumps/data.go). The same declarations are
 * repeated in dumps/submissions.go, dumps/comments.go and main.go.
 */
module Records {
  datatype RedditSubmission = RedditSubmission(
    id: string,
    title: string,
    author: string,
    score: int,
    numComments: int)

  /** `createdUtc` holds the created_utc field after its string/number normalisation. */
  datatype RedditComment = RedditComment(
    id: string,
    author: string,
    body: string,
    score: int,
    parentId: string,
    linkId: string,
    subreddit: string,
    createdUtc: string)
}
