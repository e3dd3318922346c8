/** The feedback flow controller: the page state the handlers of the rating
    page read and write, with one method per handler. The DOM elements become
    fields, the star list an array of "active" flags, localStorage the one
    item under `StorageKey`, and `setTimeout` a list of scheduled redirects. */
module FeedbackFlow {
  import opened Wrappers
  import opened JsNumbers
  import opened VoteGuard
  import opened FeedbackView

  /** A navigation scheduled with `setTimeout`: target URL and delay (ms). */
  datatype Redirect = Redirect(url: string, delayMs: nat)

  const GoogleRedirect: Redirect := Redirect(GoogleReviewUrl, RedirectDelayMs)

  class Controller {
    /** `selectedRating`: 0 until a star is clicked, then the clicked rating. */
    var selectedRating: int
    /** The "active" class of each star, in page order. */
    const stars: array<bool>
    /** The rating the stars and the label currently show (a preview while
        hovering, the selection otherwise). */
    ghost var shownRating: int
    var labelText: string
    var labelColour: string
    var commentVisible: bool
    /** The comment textarea's value. */
    var comment: string
    var charCount: nat
    var charCountColour: string
    var submitEnabled: bool
    var submitText: string
    var ratingSectionShown: bool
    var thankYouShown: bool
    var thankYouMessage: string
    /** Set when the rating section's content has been replaced by the
        "already voted" notice; holds the vote date it displays. */
    var alreadyVotedNotice: Option<TimeValue>
    /** The localStorage item under `StorageKey`. */
    var storedVote: Option<string>
    /** Navigations scheduled with `setTimeout`, oldest first. */
    var redirects: seq<Redirect>

    /** The display is coherent: the stars and the label show one rating,
        and once a rating is selected that is the one shown, with its colour
        and comment-box visibility. */
    ghost predicate Valid()
      reads this, stars
    {
      stars.Length == StarCount &&
      0 <= selectedRating <= MaxRating && 0 <= shownRating <= MaxRating &&
      stars[..] == StarsFor(shownRating, StarCount) &&
      labelText == LabelFor(shownRating) &&
      (selectedRating == 0 ==> labelColour == NoColour && !commentVisible && !submitEnabled) &&
      (selectedRating != 0 ==>
         shownRating == selectedRating && labelColour == LabelColour(selectedRating) &&
         commentVisible == (selectedRating < MaxRating))
    }

    /** Stars, textarea and submit button receive events: the rating section
        is displayed and its content has not been replaced by the notice. */
    predicate RatingReachable()
      reads this
    {
      ratingSectionShown && alreadyVotedNotice.None?
    }

    /** The states a visitor can reach through the browser: exactly one
        section is displayed, the thank-you section only after a submission
        that disabled the button and wrote a readable vote time, and a
        redirect is scheduled exactly once, for a submitted 5. */
    ghost predicate Reachable()
      reads this, stars
    {
      Valid() &&
      ratingSectionShown == !thankYouShown &&
      (thankYouShown ==>
         selectedRating != 0 && !submitEnabled && submitText == SendingText &&
         thankYouMessage == ThankYouMessage(selectedRating) && StoredVoteTime(storedVote).Some?) &&
      (selectedRating != 0 && !thankYouShown ==> submitEnabled) &&
      redirects == (if thankYouShown && selectedRating == MaxRating then [GoogleRedirect] else []) &&
      (alreadyVotedNotice.Some? ==> selectedRating == 0)
    }

    /** The page as served, then its `DOMContentLoaded` handler at time
        `now`: the guard check (the listeners it wires are the methods below
        that deliver events). */
    constructor Load(stored: Option<string>, buttonText: string, now: TimeValue)
      ensures Reachable() && fresh(stars)
      ensures selectedRating == 0 && shownRating == 0 && labelColour == NoColour
      ensures comment == "" && charCount == 0 && submitText == buttonText
      ensures ratingSectionShown && !thankYouShown && storedVote == stored && redirects == []
      ensures alreadyVotedNotice == if AlreadyVoted(stored, now) then StoredVoteTime(stored) else None
    {
      selectedRating := 0;
      stars := new bool[StarCount](_ => false);
      shownRating := 0;
      labelText := PromptText;
      labelColour := NoColour;
      commentVisible := false;
      comment := "";
      charCount := 0;
      charCountColour := NoColour;
      submitEnabled := false;
      submitText := buttonText;
      ratingSectionShown := true;
      thankYouShown := false;
      thankYouMessage := "";
      alreadyVotedNotice := None;
      storedVote := stored;
      redirects := [];
      new;
      assert stars[..] == StarsFor(0, StarCount);
      CheckIfAlreadyVoted(now);
    }

    /** `updateStarsDisplay`: star `i` becomes active exactly when `i < rating`. */
    method UpdateStarsDisplay(rating: int)
      modifies stars
      ensures stars[..] == StarsFor(rating, stars.Length)
    {
      for i := 0 to stars.Length
        invariant forall k :: 0 <= k < i ==> stars[k] == (k < rating)
      {
        if i < rating {
          stars[i] := true;
        } else {
          stars[i] := false;
        }
      }
    }

    /** `handleStarClick`: select `rating`, draw it, colour the label, show
        the comment box below 5, enable the submit button. */
    method HandleStarClick(rating: Rating)
      requires Valid()
      modifies this`selectedRating, this`shownRating, this`labelText, this`labelColour,
               this`commentVisible, this`submitEnabled, stars
      ensures Valid()
      ensures selectedRating == rating && submitEnabled
      ensures stars[..] == StarsFor(rating, StarCount)
      ensures labelText == RatingText(rating) && labelColour == LabelColour(rating)
      ensures commentVisible == (rating < MaxRating)
    {
      selectedRating := rating;
      UpdateStarsDisplay(rating);
      shownRating := rating;
      labelText := RatingText(rating);
      labelColour := LabelColour(rating);
      if rating < MaxRating {
        commentVisible := true;
      } else {
        commentVisible := false;
      }
      submitEnabled := true;
    }

    /** `handleStarHover`: preview `rating` while nothing is selected. */
    method HandleStarHover(rating: Rating)
      requires Valid()
      modifies this`shownRating, this`labelText, stars
      ensures Valid()
      ensures old(selectedRating) != 0 ==> unchanged(this) && unchanged(stars)
      ensures old(selectedRating) == 0 ==>
                stars[..] == StarsFor(rating, StarCount) && labelText == RatingText(rating)
    {
      if selectedRating == 0 {
        UpdateStarsDisplay(rating);
        shownRating := rating;
        labelText := RatingText(rating);
      }
    }

    /** `resetStarHover`: when the pointer leaves the stars, draw the
        selection again, or clear the stars and restore the prompt. */
    method ResetStarHover()
      requires Valid()
      modifies this`shownRating, this`labelText, this`labelColour, stars
      ensures Valid()
      ensures stars[..] == StarsFor(selectedRating, StarCount)
      ensures labelText == LabelFor(selectedRating)
      ensures selectedRating != 0 ==> labelColour == old(labelColour)
    {
      if selectedRating == 0 {
        UpdateStarsDisplay(0);
        shownRating := 0;
        labelText := PromptText;
        labelColour := NoColour;
      } else {
        UpdateStarsDisplay(selectedRating);
        shownRating := selectedRating;
      }
    }

    /** `updateCharCount`: show the comment length in UTF-16 units and colour
        it by the 400 / 450 thresholds. */
    method UpdateCharCount()
      modifies this`charCount, this`charCountColour
      ensures charCount == Utf16Length(comment)
      ensures charCountColour == CounterColour(charCount)
    {
      var count := Utf16Length(comment);
      charCount := count;
      if count > 450 {
        charCountColour := LimitColour;
      } else if count > 400 {
        charCountColour := WarningColour;
      } else {
        charCountColour := QuietColour;
      }
    }

    /** `markAsVoted`: store the current time as a decimal string. */
    method MarkAsVoted(now: TimeValue)
      modifies this`storedVote
      ensures storedVote == Some(VoteRecord(now))
    {
      storedVote := Some(NumberToString(now));
    }

    /** `showThankYouSection`: hide the rating section, show the thank-you one. */
    method ShowThankYouSection()
      modifies this`ratingSectionShown, this`thankYouShown
      ensures !ratingSectionShown && thankYouShown
    {
      ratingSectionShown := false;
      thankYouShown := true;
    }

    /** `handlePerfectRating`: the Google message, the thank-you section, and
        a redirect to the review page after the configured delay. */
    method HandlePerfectRating()
      modifies this`thankYouMessage, this`ratingSectionShown, this`thankYouShown, this`redirects
      ensures thankYouMessage == PerfectMessage
      ensures !ratingSectionShown && thankYouShown
      ensures redirects == old(redirects) + [GoogleRedirect]
    {
      thankYouMessage := PerfectMessage;
      ShowThankYouSection();
      redirects := redirects + [Redirect(GoogleReviewUrl, RedirectDelayMs)];
    }

    /** `handleLowerRating`: the default message and the thank-you section;
        the comment is neither shown nor kept, and nothing is scheduled. */
    method HandleLowerRating()
      modifies this`thankYouMessage, this`ratingSectionShown, this`thankYouShown
      ensures thankYouMessage == DefaultMessage
      ensures !ratingSectionShown && thankYouShown
    {
      thankYouMessage := DefaultMessage;
      ShowThankYouSection();
    }

    /** `handleSubmit` at time `now`: inert without a selection; otherwise
        disable the button, record the vote time and branch on 5. */
    method HandleSubmit(now: TimeValue)
      requires Valid()
      modifies this`submitEnabled, this`submitText, this`storedVote, this`thankYouMessage,
               this`ratingSectionShown, this`thankYouShown, this`redirects
      ensures Valid()
      ensures old(selectedRating) == 0 ==> unchanged(this)
      ensures selectedRating != 0 ==>
                !submitEnabled && submitText == SendingText &&
                storedVote == Some(VoteRecord(now)) &&
                !ratingSectionShown && thankYouShown &&
                thankYouMessage == ThankYouMessage(selectedRating) &&
                redirects == old(redirects) + (if selectedRating == MaxRating then [GoogleRedirect] else [])
    {
      if selectedRating == 0 {
        return;
      }
      submitEnabled := false;
      submitText := SendingText;
      MarkAsVoted(now);
      if selectedRating == MaxRating {
        HandlePerfectRating();
      } else {
        HandleLowerRating();
      }
    }

    /** `checkIfAlreadyVoted` at time `now`: replace the rating section's
        content with the notice when the stored vote is under 30 days old. */
    method CheckIfAlreadyVoted(now: TimeValue)
      modifies this`alreadyVotedNotice
      ensures alreadyVotedNotice ==
                if AlreadyVoted(storedVote, now) then StoredVoteTime(storedVote) else old(alreadyVotedNotice)
    {
      var stored := StoredVoteTime(storedVote);
      if stored.Some? {
        if now - stored.value < GuardWindowMs {
          alreadyVotedNotice := stored;
        }
      }
    }

    // Event delivery by the browser: a click, hover or keystroke reaches a
    // handler only on an element the visitor can see, and a click on the
    // submit button only while it is enabled.

    /** A click on the star carrying `rating`. */
    method ClickStar(rating: Rating)
      requires Reachable()
      modifies this`selectedRating, this`shownRating, this`labelText, this`labelColour,
               this`commentVisible, this`submitEnabled, stars
      ensures Reachable()
      ensures !old(RatingReachable()) ==> unchanged(this) && unchanged(stars)
      ensures old(RatingReachable()) ==>
                selectedRating == rating && submitEnabled && stars[..] == StarsFor(rating, StarCount) &&
                labelText == RatingText(rating) && commentVisible == (rating < MaxRating)
    {
      if RatingReachable() {
        HandleStarClick(rating);
      }
    }

    /** The pointer entering the star carrying `rating`. */
    method HoverStar(rating: Rating)
      requires Reachable()
      modifies this`shownRating, this`labelText, stars
      ensures Reachable()
      ensures !old(RatingReachable()) || old(selectedRating) != 0 ==> unchanged(this) && unchanged(stars)
      ensures old(RatingReachable()) && old(selectedRating) == 0 ==>
                stars[..] == StarsFor(rating, StarCount) && labelText == RatingText(rating)
    {
      if RatingReachable() {
        HandleStarHover(rating);
      }
    }

    /** The pointer leaving the row of stars. */
    method LeaveStars()
      requires Reachable()
      modifies this`shownRating, this`labelText, this`labelColour, stars
      ensures Reachable()
      ensures !old(RatingReachable()) ==> unchanged(this) && unchanged(stars)
      ensures old(RatingReachable()) ==>
                stars[..] == StarsFor(selectedRating, StarCount) && labelText == LabelFor(selectedRating)
    {
      if RatingReachable() {
        ResetStarHover();
      }
    }

    /** The visitor editing the comment to `text` (the box is visible only
        for ratings below 5). */
    method InputComment(text: string)
      requires Reachable()
      modifies this`comment, this`charCount, this`charCountColour
      ensures Reachable()
      ensures !(old(RatingReachable()) && commentVisible) ==> unchanged(this)
      ensures old(RatingReachable()) && commentVisible ==>
                comment == text && charCount == Utf16Length(text) && charCountColour == CounterColour(charCount)
    {
      if RatingReachable() && commentVisible {
        comment := text;
        UpdateCharCount();
      }
    }

    /** A click on the submit button at time `now`; a disabled button
        delivers nothing. */
    method ClickSubmit(now: TimeValue)
      requires Reachable()
      modifies this`submitEnabled, this`submitText, this`storedVote, this`thankYouMessage,
               this`ratingSectionShown, this`thankYouShown, this`redirects
      ensures Reachable()
      ensures !old(submitEnabled) ==> unchanged(this)
      ensures old(submitEnabled) ==>
                !submitEnabled && storedVote == Some(VoteRecord(now)) && thankYouShown &&
                thankYouMessage == ThankYouMessage(selectedRating) &&
                redirects == (if selectedRating == MaxRating then [GoogleRedirect] else [])
    {
      if submitEnabled {
        HandleSubmit(now);
        assert StoredVoteTime(storedVote) == Some(now) by {
          assert VoteRecord(now) != "";
        }
      }
    }
  }
}
