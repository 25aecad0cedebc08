/**
 * The page shown after a meeting: a rating (3 to begin with), a comment box that must
 * not be empty, a warning shown once an empty comment was submitted, and a dialog that
 * asks for confirmation before leaving for the home page.
 */
module AfterMeeting {
  /** What the page shows. `atHome`: the page has navigated to the home page. */
  datatype Page = Page(rating: int, hasComment: bool, leaveMeetingOpen: bool, atHome: bool)

  const Initial: Page := Page(3, true, false, false)

  /** What the user can do. The comment is what the comment box holds at that moment. Cancel
      and Confirm are the two buttons of the dialog. */
  datatype Event = RatingChosen(rating: int) | SubmitPressed(comment: string) | CancelPressed | ConfirmPressed

  /** The warning under the comment box is visible. */
  predicate WarningVisible(p: Page) {
    !p.hasComment
  }

  /** The page after one event. The dialog's buttons exist only while it is open. */
  function Step(p: Page, e: Event): Page {
    match e
    case RatingChosen(r) => p.(rating := r)
    case SubmitPressed(comment) =>
      if |comment| != 0 then p.(leaveMeetingOpen := true) else p.(hasComment := false)
    case CancelPressed => if p.leaveMeetingOpen then p.(leaveMeetingOpen := false) else p
    case ConfirmPressed => if p.leaveMeetingOpen then p.(atHome := true) else p
  }

  /** The page after a sequence of events. */
  function Run(p: Page, events: seq<Event>): Page
    decreases |events|
  {
    if events == [] then p else Run(Step(p, events[0]), events[1..])
  }

  /** Submitting opens the dialog exactly when the comment is not empty, and otherwise shows
      the warning. */
  lemma SubmitMeaning(p: Page, comment: string)
    ensures Step(p, SubmitPressed(comment)).leaveMeetingOpen <==> |comment| != 0 || p.leaveMeetingOpen
    ensures WarningVisible(Step(p, SubmitPressed(comment))) <==> |comment| == 0 || WarningVisible(p)
    ensures Step(p, SubmitPressed(comment)).rating == p.rating
  {
  }

  /** No event hides the warning once it is shown. */
  lemma {:induction false} WarningStays(p: Page, events: seq<Event>)
    requires WarningVisible(p)
    ensures WarningVisible(Run(p, events))
    decreases |events|
  {
    if events != [] {
      WarningStays(Step(p, events[0]), events[1..]);
    }
  }

  /** The page reaches home only by confirming in the dialog, and the dialog opens only on a
      submit with a non-empty comment: from a page with the dialog closed, reaching home means
      some submitted comment was not empty. */
  lemma {:induction false} HomeNeedsComment(p: Page, events: seq<Event>)
    requires !p.atHome && !p.leaveMeetingOpen
    ensures Run(p, events).atHome ==> exists i :: 0 <= i < |events| && events[i].SubmitPressed? && |events[i].comment| != 0
    decreases |events|
  {
    if events != [] && Run(p, events).atHome {
      var q := Step(p, events[0]);
      if events[0].SubmitPressed? && |events[0].comment| != 0 {
        assert 0 < |events|;
      } else {
        assert !q.atHome && !q.leaveMeetingOpen;
        HomeNeedsComment(q, events[1..]);
        var i :| 0 <= i < |events[1..]| && events[1..][i].SubmitPressed? && |events[1..][i].comment| != 0;
        assert events[i + 1] == events[1..][i];
      }
    }
  }

  /** The page, as a component whose state hooks are its fields. */
  class AfterMeetingPage {
    var rating: int
    var hasComment: bool
    var leaveMeetingOpen: bool
    var atHome: bool

    function State(): Page
      reads this
    {
      Page(rating, hasComment, leaveMeetingOpen, atHome)
    }

    constructor ()
      ensures State() == Initial
    {
      rating := 3;
      hasComment := true;
      leaveMeetingOpen := false;
      atHome := false;
    }

    /** The rating component reports a choice. */
    method SetRating(r: int)
      modifies this
      ensures State() == Step(old(State()), RatingChosen(r))
    {
      rating := r;
    }

    /** `inputRequired`, the Submit button under the comment box. */
    method InputRequired(comment: string)
      modifies this
      ensures State() == Step(old(State()), SubmitPressed(comment))
    {
      if |comment| != 0 {
        leaveMeetingOpen := true;
      } else {
        hasComment := false;
      }
    }

    /** The dialog's Cancel button. */
    method Cancel()
      requires leaveMeetingOpen
      modifies this
      ensures State() == Step(old(State()), CancelPressed)
    {
      leaveMeetingOpen := false;
    }

    /** The dialog's Submit button: logs the feedback and goes home. */
    method Confirm()
      requires leaveMeetingOpen
      modifies this
      ensures State() == Step(old(State()), ConfirmPressed)
    {
      atHome := true;
    }
  }
}
