/**
 * The follow-up dialog: a date and a description, handed to the caller only when both are
 * filled in, after which both fields are cleared.
 */
module FollowUp {
  import opened Wrappers

  /** What the dialog hands to its `onSubmit` callback. */
  datatype FollowUpEntry = FollowUpEntry(date: string, description: string)

  /** The submit guard `date && description`: both strings non-empty. */
  predicate CanSubmit(date: string, description: string) {
    date != "" && description != ""
  }

  /** The dialog's two fields. */
  class FollowUpDialog {
    var date: string
    var description: string

    constructor ()
      ensures date == "" && description == ""
    {
      date := "";
      description := "";
    }

    /**
     * `handleSubmit`: with both fields filled in, the values go to the callback unchanged and
     * both fields are cleared; otherwise nothing is called and nothing changes.
     */
    method HandleSubmit() returns (submitted: Option<FollowUpEntry>)
      modifies this
      ensures submitted.Some? <==> CanSubmit(old(date), old(description))
      ensures submitted.Some? ==>
        (submitted.value == FollowUpEntry(old(date), old(description))
         && date == "" && description == "")
      ensures submitted.None? ==> date == old(date) && description == old(description)
    {
      if date != "" && description != "" {
        submitted := Some(FollowUpEntry(date, description));
        date := "";
        description := "";
      } else {
        submitted := None;
      }
    }
  }
}
