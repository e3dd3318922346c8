/** Whole visits driven through the browser's event delivery: each method
    loads a page, plays a sequence of events and reports what the visitor
    ends up with, for every choice of inputs. */
module FeedbackScenarios {
  import opened Wrappers
  import opened JsNumbers
  import opened VoteGuard
  import opened FeedbackView
  import opened FeedbackFlow

  /** Load at `loadTime`, rate, type a comment (below 5), submit at
      `submitTime`, then load the page again at `revisitTime` with what was
      stored. An unblocked visit ends on the message for the rating, stores
      only the submission time, schedules the Google redirect only for 5, and
      blocks the revisit exactly when it comes less than 30 days later. */
  method RateSubmitRevisit(stored: Option<string>, loadTime: TimeValue, rating: Rating, text: string,
                           submitTime: TimeValue, revisitTime: TimeValue, buttonText: string)
    returns (message: string, storedAfter: Option<string>, scheduled: seq<Redirect>, revisitBlocked: bool)
    ensures !AlreadyVoted(stored, loadTime) ==>
              message == ThankYouMessage(rating) &&
              storedAfter == Some(VoteRecord(submitTime)) &&
              scheduled == (if rating == MaxRating then [GoogleRedirect] else []) &&
              (revisitBlocked <==> revisitTime - submitTime < GuardWindowMs)
    ensures AlreadyVoted(stored, loadTime) ==>
              storedAfter == stored && scheduled == [] &&
              (revisitBlocked <==> AlreadyVoted(stored, revisitTime))
  {
    var page := new Controller.Load(stored, buttonText, loadTime);
    page.ClickStar(rating);
    if rating < MaxRating {
      page.InputComment(text);
    }
    page.ClickSubmit(submitTime);
    message, storedAfter, scheduled := page.thankYouMessage, page.storedVote, page.redirects;
    var next := new Controller.Load(page.storedVote, buttonText, revisitTime);
    revisitBlocked := next.alreadyVotedNotice.Some?;
    if !AlreadyVoted(stored, loadTime) {
      GuardAfterVote(submitTime, revisitTime);
    }
  }

  /** Two clicks on submit: the first disables the button, so the second
      writes nothing and schedules nothing. */
  method SubmitTwice(rating: Rating, loadTime: TimeValue, firstTime: TimeValue, secondTime: TimeValue)
    returns (storedAfterFirst: Option<string>, storedAfterSecond: Option<string>, scheduled: seq<Redirect>)
    ensures storedAfterFirst == Some(VoteRecord(firstTime))
    ensures storedAfterSecond == storedAfterFirst
    ensures |scheduled| == if rating == MaxRating then 1 else 0
  {
    var page := new Controller.Load(None, "", loadTime);
    page.ClickStar(rating);
    page.ClickSubmit(firstTime);
    storedAfterFirst := page.storedVote;
    page.ClickSubmit(secondTime);
    storedAfterSecond, scheduled := page.storedVote, page.redirects;
  }

  /** `handleSubmit` reached before any star is clicked changes nothing: no
      vote time is written and the rating section stays. */
  method SubmitWithoutRating(stored: Option<string>, loadTime: TimeValue, now: TimeValue)
    returns (storedAfter: Option<string>, thankYou: bool, scheduled: seq<Redirect>)
    ensures storedAfter == stored && !thankYou && scheduled == []
  {
    var page := new Controller.Load(stored, "", loadTime);
    page.HandleSubmit(now);
    storedAfter, thankYou, scheduled := page.storedVote, page.thankYouShown, page.redirects;
  }

  /** With nothing selected, hovering star `n` previews `n` stars and its
      label; leaving clears every star and restores the prompt. */
  method PreviewThenLeave(n: Rating, loadTime: TimeValue)
    returns (previewActive: nat, previewLabel: string, afterActive: nat, afterLabel: string)
    ensures previewActive == n && previewLabel == RatingText(n)
    ensures afterActive == 0 && afterLabel == PromptText
  {
    var page := new Controller.Load(None, "", loadTime);
    page.HoverStar(n);
    previewActive, previewLabel := CountActive(page.stars[..]), page.labelText;
    page.LeaveStars();
    afterActive, afterLabel := CountActive(page.stars[..]), page.labelText;
    ActiveStarCount(n, StarCount);
    ActiveStarCount(0, StarCount);
  }

  /** Once `selected` is clicked, hovering another star `n` changes nothing,
      and leaving draws `selected` again. */
  method HoverAfterSelection(selected: Rating, n: Rating, loadTime: TimeValue)
    returns (hoverActive: nat, hoverLabel: string, afterActive: nat, afterLabel: string)
    ensures hoverActive == selected && hoverLabel == RatingText(selected)
    ensures afterActive == selected && afterLabel == RatingText(selected)
  {
    var page := new Controller.Load(None, "", loadTime);
    page.ClickStar(selected);
    page.HoverStar(n);
    hoverActive, hoverLabel := CountActive(page.stars[..]), page.labelText;
    page.LeaveStars();
    afterActive, afterLabel := CountActive(page.stars[..]), page.labelText;
    ActiveStarCount(selected, StarCount);
  }

  /** After a submission the page is one-way: further clicks, hovers and
      keystrokes reach nothing, and the stored time and the scheduled
      redirects stay as the submission left them. */
  method NothingAfterSubmit(rating: Rating, other: Rating, text: string, loadTime: TimeValue,
                            submitTime: TimeValue, laterTime: TimeValue)
    returns (selectedAfter: int, storedAfter: Option<string>, thankYou: bool, scheduled: seq<Redirect>)
    ensures selectedAfter == rating && thankYou
    ensures storedAfter == Some(VoteRecord(submitTime))
    ensures scheduled == if rating == MaxRating then [GoogleRedirect] else []
  {
    var page := new Controller.Load(None, "", loadTime);
    page.ClickStar(rating);
    page.ClickSubmit(submitTime);
    page.ClickStar(other);
    page.HoverStar(other);
    page.LeaveStars();
    page.InputComment(text);
    page.ClickSubmit(laterTime);
    selectedAfter, storedAfter, thankYou, scheduled :=
      page.selectedRating, page.storedVote, page.thankYouShown, page.redirects;
  }
}
