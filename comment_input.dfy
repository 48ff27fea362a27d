/** The comment box: a text field whose submit sends the trimmed text and clears it. */
module CommentInputComponent {
  import opened Wrappers
  import opened Text

  /** What a submit of `comment` sends to `onSubmit`, if anything. */
  function Submission(comment: string): (r: Option<string>)
    ensures r.Some? <==> !AllWhitespace(comment)
    ensures r.Some? ==> r.value == Trim(comment) && r.value != [] && IsTrimmed(r.value)
  {
    var t := Trim(comment);
    if t != "" then Some(t) else None
  }

  /** Submitting what was submitted sends the same text again. */
  lemma SubmissionStable(comment: string)
    requires Submission(comment).Some?
    ensures Submission(Submission(comment).value) == Submission(comment)
  {
    TrimIdempotent(comment);
  }

  class CommentInput {
    var comment: string
    /** The texts passed to `onSubmit`, in order. */
    var submitted: seq<string>

    constructor ()
      ensures comment == "" && submitted == []
    {
      comment := "";
      submitted := [];
    }

    /** The input's `onChange`. */
    method Change(text: string)
      modifies this
      ensures comment == text && submitted == old(submitted)
    {
      comment := text;
    }

    /** The Post button is shown iff the comment is not blank. */
    function ShowsPostButton(): (shown: bool)
      reads this
      ensures shown <==> !AllWhitespace(comment)
    {
      Trim(comment) != ""
    }

    /** `handleSubmit`: a non-blank comment goes to `onSubmit` trimmed and the box is
        cleared; a blank one is kept and nothing is sent. */
    method HandleSubmit()
      modifies this
      ensures old(Submission(comment)).Some? ==>
                submitted == old(submitted) + [old(Trim(comment))] && comment == ""
      ensures old(Submission(comment)).None? ==>
                submitted == old(submitted) && comment == old(comment)
    {
      var t := Trim(comment);
      if t != "" {
        submitted := submitted + [t];
        comment := "";
      }
    }
  }
}
