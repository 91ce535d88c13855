/**
 * The records the relay reads from the platform's Graph API. A field the
 * API leaves out of its answer is `None`.
 */
module Graph {
  import opened Wrappers

  /** Answer to the comment lookup (fields id, text, username, timestamp, media). */
  datatype CommentDetails = CommentDetails(
    id: Option<string>,
    text: Option<string>,
    username: Option<string>,
    timestamp: Option<string>,
    media: Option<string>)

  /** Answer to the media lookup (fields id, caption, media_type, permalink, timestamp). */
  datatype MediaDetails = MediaDetails(
    id: Option<string>,
    caption: Option<string>,
    mediaType: Option<string>,
    permalink: Option<string>,
    timestamp: Option<string>)

  /**
   * What the Graph API answers, per identifier: the parsed record, or `None`
   * for any failure (network error, error status, empty body). The two
   * lookups are assumed to answer the same identifier the same way
   * throughout one request.
   */
  datatype GraphApi = GraphApi(
    comment: string -> Option<CommentDetails>,
    media: string -> Option<MediaDetails>)
}
