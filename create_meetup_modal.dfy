/** The create-meetup dialog: its form fields, the two submit guards in their order, the toast
    each outcome shows, and the reset and close on success. The dialog does not save the meetup. */
module CreateMeetupModal {
  import opened Types

  /** Which branch a submit takes. */
  datatype SubmitResult = MissingInformation | MissingDate | Created(realTime: bool)

  /** The submit guards: the three text fields first, then the date, which only a scheduled
      meetup needs. The date is a timestamp when one is picked. */
  function Validate(title: string, description: string, location: string, isRealTime: bool,
                    date: Option<int>): (r: SubmitResult)
    ensures r == MissingInformation <==> title == "" || description == "" || location == ""
    ensures r == MissingDate <==> title != "" && description != "" && location != "" && !isRealTime && date.None?
    ensures r.Created? ==> r.realTime == isRealTime
  {
    if title == "" || description == "" || location == "" then MissingInformation
    else if !isRealTime && date.None? then MissingDate
    else Created(isRealTime)
  }

  /** The field check comes first: with a field empty, neither the kind of meetup nor the date
      changes the outcome. A real-time meetup never needs a date. */
  lemma FieldsCheckedBeforeDate(title: string, description: string, location: string,
                                rt1: bool, d1: Option<int>, rt2: bool, d2: Option<int>)
    ensures (title == "" || description == "" || location == "") ==>
      Validate(title, description, location, rt1, d1) == Validate(title, description, location, rt2, d2)
    ensures Validate(title, description, location, true, d1) == Validate(title, description, location, true, d2)
  {
  }

  datatype Toast = Toast(title: string, description: string, destructive: bool)

  /** The toast each outcome shows. */
  function ToastFor(r: SubmitResult): (t: Toast)
    ensures t.destructive <==> !r.Created?
  {
    match r
    case MissingInformation => Toast("Missing information", "Please fill in all required fields", true)
    case MissingDate => Toast("Missing date", "Please select a date for your scheduled meetup", true)
    case Created(realTime) =>
      Toast("Meetup created!",
            if realTime then "Your real-time meetup is now active" else "Your meetup has been scheduled", false)
  }

  /** The success toast depends on nothing but whether the meetup is real-time, and tells the
      two kinds apart. */
  lemma SuccessToastByKind(t1: string, d1: string, l1: string, o1: Option<int>,
                           t2: string, d2: string, l2: string, o2: Option<int>, rt: bool)
    requires Validate(t1, d1, l1, rt, o1).Created? && Validate(t2, d2, l2, rt, o2).Created?
    ensures ToastFor(Validate(t1, d1, l1, rt, o1)) == ToastFor(Validate(t2, d2, l2, rt, o2))
    ensures ToastFor(Created(true)) != ToastFor(Created(false))
  {
  }

  /** The dialog's form state. */
  class CreateMeetupForm {
    var title: string
    var description: string
    var date: Option<int>
    var location: string
    var isRealTime: bool

    /** A form that has never been filled in, or has just been reset. */
    predicate Blank()
      reads this
    {
      title == "" && description == "" && date.None? && location == "" && !isRealTime
    }

    constructor()
      ensures Blank()
    {
      title := "";
      description := "";
      date := None;
      location := "";
      isRealTime := false;
    }

    method SetTitle(s: string)
      modifies this`title
      ensures title == s
    {
      title := s;
    }

    method SetDescription(s: string)
      modifies this`description
      ensures description == s
    {
      description := s;
    }

    method SetLocation(s: string)
      modifies this`location
      ensures location == s
    {
      location := s;
    }

    method SetDate(d: Option<int>)
      modifies this`date
      ensures date == d
    {
      date := d;
    }

    method SetRealTime(b: bool)
      modifies this`isRealTime
      ensures isRealTime == b
    {
      isRealTime := b;
    }

    /** `handleSubmit`: a failed guard leaves every field as it was and keeps the dialog open;
        success resets every field and asks the dialog to close. */
    method HandleSubmit() returns (result: SubmitResult, closeRequested: bool)
      modifies this
      ensures result == Validate(old(title), old(description), old(location), old(isRealTime), old(date))
      ensures closeRequested <==> result.Created?
      ensures result.Created? ==> Blank()
      ensures !result.Created? ==> unchanged(this)
    {
      if title == "" || description == "" || location == "" {
        return MissingInformation, false;
      }
      if !isRealTime && date.None? {
        return MissingDate, false;
      }
      result := Created(isRealTime);
      title := "";
      description := "";
      date := None;
      location := "";
      isRealTime := false;
      closeRequested := true;
    }
  }
}
