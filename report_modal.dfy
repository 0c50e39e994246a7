/** The report dialog: a reason picked from a fixed list, an optional description, and a submit
    that files exactly one report and resets the form. */
module ReportModal {
  import opened UserContext

  datatype ReasonOption = ReasonOption(value: string, caption: string)

  /** `REPORT_REASONS`: the values the reason picker can hand out. */
  function ReportReasons(): (rs: seq<ReasonOption>)
    ensures |rs| == 6
  {
    [ ReasonOption("inappropriate", "Inappropriate content"),
      ReasonOption("harassment", "Harassment or bullying"),
      ReasonOption("spam", "Spam or misleading"),
      ReasonOption("privacy", "Privacy violation"),
      ReasonOption("impersonation", "Impersonation"),
      ReasonOption("other", "Other") ]
  }

  /** The submit button's enabled state: disabled exactly while no reason is picked or a
      submission is running. */
  function SubmitEnabled(reason: string, isSubmitting: bool): (enabled: bool)
    ensures !enabled <==> reason == "" || isSubmitting
  {
    reason != "" && !isSubmitting
  }

  /** Any reason the picker offers enables the button of an idle form. */
  lemma OfferedReasonsEnableSubmit()
    ensures forall k :: 0 <= k < |ReportReasons()| ==> SubmitEnabled(ReportReasons()[k].value, false)
  {
  }

  /** The dialog's form for reporting the user `userId`. */
  class ReportForm {
    const userId: int
    var reason: string
    var description: string
    var isSubmitting: bool

    constructor(userId: int)
      ensures this.userId == userId && reason == "" && description == "" && !isSubmitting
    {
      this.userId := userId;
      reason := "";
      description := "";
      isSubmitting := false;
    }

    method SetReason(s: string)
      modifies this`reason
      ensures reason == s
    {
      reason := s;
    }

    method SetDescription(s: string)
      modifies this`description
      ensures description == s
    {
      description := s;
    }

    /** `handleSubmit`. Without a reason nothing happens; otherwise `reportUser` is called once
        with the form's values, the form is reset and `onClose` is called. */
    method HandleSubmit(store: UserStore) returns (filed: seq<Report>, closed: bool)
      modifies this
      ensures old(reason) == "" ==> filed == [] && !closed && unchanged(this)
      ensures old(reason) != "" ==>
        filed == [Report(userId, old(reason), old(description))] && closed &&
        reason == "" && description == "" && !isSubmitting
    {
      if reason == "" {
        return [], false;
      }
      isSubmitting := true;
      var report := store.ReportUser(userId, reason, description);
      filed := [report];
      isSubmitting := false;
      reason := "";
      description := "";
      closed := true;
    }
  }
}
