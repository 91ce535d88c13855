/** The normalized `new_comment` document the relay forwards downstream. */
module Events {
  import opened Wrappers
  import opened Graph

  const NewComment := "new_comment"

  datatype CommentPart = CommentPart(
    id: Option<string>,
    text: Option<string>,
    username: Option<string>,
    timestamp: Option<string>)

  datatype PostPart = PostPart(
    id: Option<string>,
    caption: string,
    mediaType: Option<string>,
    permalink: Option<string>,
    timestamp: Option<string>)

  datatype NormalizedEvent = NormalizedEvent(
    eventType: string,
    comment: CommentPart,
    post: PostPart,
    notificationTime: string)

  /**
   * The caption as the document carries it: JavaScript's `caption || ''`,
   * so an absent caption and an empty one both become "".
   */
  function CaptionOrEmpty(caption: Option<string>): (r: string)
    ensures r == "" <==> caption.None? || caption == Some("")
    ensures r != "" ==> caption == Some(r)
  {
    match caption
    case Some(c) => c
    case None => ""
  }

  /**
   * Builds the document from the two fetched records and the time at which
   * it is built. It always has type "new_comment"; the comment part copies
   * the comment's id, text, username and timestamp; the post part copies the
   * media's id, type, permalink and timestamp, with the caption defaulted.
   */
  function Assemble(c: CommentDetails, m: MediaDetails, now: string): (e: NormalizedEvent)
    ensures e.eventType == NewComment && e.notificationTime == now
    ensures e.comment.id == c.id && e.comment.text == c.text
    ensures e.comment.username == c.username && e.comment.timestamp == c.timestamp
    ensures e.post.id == m.id && e.post.mediaType == m.mediaType
    ensures e.post.permalink == m.permalink && e.post.timestamp == m.timestamp
    ensures e.post.caption == CaptionOrEmpty(m.caption)
  {
    NormalizedEvent(
      NewComment,
      CommentPart(c.id, c.text, c.username, c.timestamp),
      PostPart(m.id, CaptionOrEmpty(m.caption), m.mediaType, m.permalink, m.timestamp),
      now)
  }

  /**
   * What the document keeps and what it drops: two pairs of records give the
   * same document at the same time exactly when they agree on every copied
   * field and on the defaulted caption. The comment's `media` field, and the
   * difference between an absent and an empty caption, are lost.
   */
  lemma AssembleKeepsCopiedFields(c1: CommentDetails, m1: MediaDetails, c2: CommentDetails, m2: MediaDetails, now: string)
    ensures Assemble(c1, m1, now) == Assemble(c2, m2, now) <==>
      && c1.id == c2.id && c1.text == c2.text && c1.username == c2.username && c1.timestamp == c2.timestamp
      && m1.id == m2.id && m1.mediaType == m2.mediaType && m1.permalink == m2.permalink && m1.timestamp == m2.timestamp
      && CaptionOrEmpty(m1.caption) == CaptionOrEmpty(m2.caption)
  {
  }
}
