/**
 * `CommentAdmin.get_comment_preview` of comments/admin.py: the change
 * list shows at most the first 50 characters of a comment, marked with an
 * ellipsis when it was cut.
 */
module Admin {

  const PreviewLength: nat := 50
  const Ellipsis: string := "..."

  function CommentPreview(content: string): (p: string)
    ensures |content| <= PreviewLength ==> p == content
    ensures |content| > PreviewLength ==> p == content[..PreviewLength] + Ellipsis
    ensures |p| <= PreviewLength + |Ellipsis|
    ensures var n := if |content| < PreviewLength then |content| else PreviewLength;
            n <= |p| && p[..n] == content[..n]
  {
    if |content| > PreviewLength then content[..PreviewLength] + Ellipsis else content
  }

  /**
   * The preview is the content itself exactly when the content is short,
   * or is 53 characters long and already ends in the ellipsis.
   */
  lemma PreviewFixedPoints(content: string)
    ensures CommentPreview(content) == content <==>
            |content| <= PreviewLength || (|content| == PreviewLength + |Ellipsis| && content[PreviewLength..] == Ellipsis)
  {
    if |content| > PreviewLength && CommentPreview(content) == content {
      assert content[PreviewLength..] == CommentPreview(content)[PreviewLength..];
    }
    if |content| == PreviewLength + |Ellipsis| && content[PreviewLength..] == Ellipsis {
      assert content == content[..PreviewLength] + content[PreviewLength..];
    }
  }

  /** Previewing a preview changes nothing. */
  lemma PreviewIdempotent(content: string)
    ensures CommentPreview(CommentPreview(content)) == CommentPreview(content)
  {
    var p := CommentPreview(content);
    if |content| > PreviewLength {
      assert p[..PreviewLength] == content[..PreviewLength];
      assert p[PreviewLength..] == Ellipsis;
      PreviewFixedPoints(p);
    }
  }
}
