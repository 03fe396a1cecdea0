/**
 * `CommentForm` of comments/forms.py: the content field and the hidden
 * `parent_id` field, whose cleaning turns the submitted text into the
 * parent comment.
 */
module Forms {
  import opened Wrappers
  import opened Text
  import opened Models
  import opened Store

  const ParentNotFoundText: string := "Parent comment not found."
  const RequiredText: string := "This field is required."
  /** The message of the validator every character field carries against U+0000. */
  const NullCharacterText: string := "Null characters are not allowed."

  /** The submitted form data; `parentId` is `None` when the field is absent. */
  datatype CommentFormData = CommentFormData(content: string, parentId: Option<string>)

  /**
   * The `parent_id` field, then `clean_parent_id`: the character field
   * strips the submitted text first; no value, or one that is empty or all
   * whitespace, means a top-level comment; a value holding U+0000 fails the
   * field's validator; otherwise the stripped text must be an integer that is
   * the id of a stored comment, and that comment is the result, whatever its
   * page and whether or not it is deleted.
   */
  function CleanParentId(comments: seq<Comment>, raw: Option<string>): (r: Result<Option<Comment>, string>)
    ensures (raw.None? || Strip(raw.value) == "") ==> r == Success(None)
    ensures r.Failure? ==> r.error == ParentNotFoundText || r.error == NullCharacterText
    ensures r == Failure(NullCharacterText) <==> raw.Some? && Strip(raw.value) != "" && '\0' in raw.value
    ensures raw.Some? && Strip(raw.value) != "" ==>
              (r.Failure? <==> ParseInt(Strip(raw.value)).None? ||
                               FindComment(comments, ParseInt(Strip(raw.value)).value).None?)
    ensures r.Success? && r.value.Some? ==>
              raw.Some? && r.value.value in comments && ParseInt(Strip(raw.value)) == Some(r.value.value.id as int)
  {
    match raw
    case None => Success(None)
    case Some(s) =>
      var t := Strip(s);
      StripKeepsNonSpace(s, '\0');
      if t == "" then Success(None)
      else if '\0' in t then (ParseIntRejects(t, '\0'); Failure(NullCharacterText))
      else match ParseInt(t)
        case None => Failure(ParentNotFoundText)
        case Some(id) =>
          match FindComment(comments, id)
          case None => Failure(ParentNotFoundText)
          case Some(c) => Success(Some(c))
  }

  /**
   * The id the reply form writes into the hidden field (`str(parent.id)`)
   * cleans back to that comment, even when it is deleted or on another page.
   */
  lemma CleanParentIdOfStored(comments: seq<Comment>, k: nat)
    requires SequentialIds(comments)
    requires k < |comments|
    ensures CleanParentId(comments, Some(IntToString(comments[k].id))) == Success(Some(comments[k]))
  {
    IntToStringHasNoSpace(comments[k].id);
    StripFixedPoint(IntToString(comments[k].id));
    ParseIntToString(comments[k].id);
    FindById(comments, comments[k].id);
  }

  /** The content the form keeps: the submitted text, stripped. */
  function CleanContent(data: CommentFormData): (content: string)
    ensures |content| <= |data.content|
    ensures content == "" <==> forall k :: 0 <= k < |data.content| ==> IsSpace(data.content[k])
  {
    Strip(data.content)
  }

  /**
   * `form.errors`: the content is required (text that is all whitespace
   * counts as missing) and may not hold U+0000, and the parent id must clean.
   */
  function FormErrors(comments: seq<Comment>, data: CommentFormData): (errors: seq<string>)
    ensures errors == [] <==>
              CleanContent(data) != "" && '\0' !in data.content && CleanParentId(comments, data.parentId).Success?
    ensures RequiredText in errors <==> forall k :: 0 <= k < |data.content| ==> IsSpace(data.content[k])
    ensures NullCharacterText in errors <==>
              (CleanContent(data) != "" && '\0' in data.content) || CleanParentId(comments, data.parentId) == Failure(NullCharacterText)
    ensures forall e :: e in errors ==> e == RequiredText || e == NullCharacterText || e == ParentNotFoundText
  {
    StripKeepsNonSpace(data.content, '\0');
    var content := CleanContent(data);
    (if content == "" then [RequiredText] else if '\0' in content then [NullCharacterText] else [])
    + (match CleanParentId(comments, data.parentId)
       case Failure(e) => [e]
       case Success(_) => [])
  }
}
