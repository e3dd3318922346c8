# Feedback flow controller of the Estérel review page

The repository is a one-page review widget for a physiotherapy practice. A
visitor taps one of five stars, may type a comment when the rating is below 5,
and submits. A 5 shows a thank-you message and schedules a redirect to the
practice's Google review form after 1500 ms. A lower rating shows a generic
thank-you message, and the comment is dropped. Submitting stores the time
under the localStorage key `esterel_avis_given`. A page load less than 30 days
after that time replaces the rating section with an "already voted" notice.

The whole logic is one controller. It appears twice in the repository:
`docs/script.js` is the published copy and `script.js` the working copy.
This project models that controller once.

- `Wrappers`: the `Option` datatype.
- `JsNumbers`: the ECMAScript number handling the guard depends on:
  - `parseInt` without a radix: leading whitespace, sign, `0x` prefix, longest digit prefix, NaN;
  - `toString` of an integer time value;
  - the time-value range that `new Date(x)` enforces (TimeClip).

  The round trip `ParseInt(NumberToString(t)) == Some(t)` is proved for every integer.
- `VoteGuard`: what `markAsVoted` writes and how `checkIfAlreadyVoted` reads it.
  Proved: the strict 30-day boundary, expiry, and fail-open on an absent, empty, unparseable or out-of-range item.
- `FeedbackView`: the constants (`CONFIG`, `ratingTexts`, `thankYouMessages`, colours) and the pure display decisions.
  These are the label, its colour, the counter colour, the thank-you message and the star-fill threshold rule.
- `FeedbackFlow`: class `Controller`. Its fields are the page state:
  - selected rating;
  - star flags as an `array<bool>`;
  - label text and colour;
  - comment box and counter;
  - submit button;
  - the two sections;
  - the notice;
  - the stored item;
  - scheduled redirects.

  There is one method per handler. Each handler states its whole new state and what it may modify. `Valid()` is the display invariant: the stars and the label show one rating, and it is the selected one once there is a selection.
  The methods `ClickStar`, `HoverStar`, `LeaveStars`, `InputComment` and `ClickSubmit` model the browser's event delivery:
  - events reach the stars and the textarea only while the rating section is displayed and has not been replaced by the notice;
  - the textarea is also reachable only while the comment box is visible;
  - a submit click is delivered only while the button is enabled. That is the code's only protection against submitting twice.

  `Reachable()` is the invariant these methods keep. Exactly one section is displayed. The thank-you section implies a disabled button and a readable stored time. Exactly one redirect is scheduled, and only after a submitted 5.
- `FeedbackScenarios`: whole visits for all inputs. They cover:
  - rate, comment, submit, then revisit;
  - a double submit;
  - a submit before any rating;
  - hover previews with and without a selection;
  - the page staying one-way after submission.

Time is a parameter (`now`) wherever the code reads the clock. A time is a `TimeValue`, an integer of at most 8.64·10^15 ms in magnitude.

## Model

| member | source | states |
|---|---|---|
| `JsNumbers.DigitPrefixLength` | docs/script.js:166 | the digits `parseInt` reads form the longest prefix made only of digits of the radix |
| `JsNumbers.ParseInt` | docs/script.js:166 | `parseInt` is NaN exactly when no digit of the chosen radix follows the leading whitespace, the sign and an optional `0x` prefix |
| `JsNumbers.NatToDecimal` | docs/script.js:178 | the decimal form of a time is a non-empty digit string without leading zeros |
| `JsNumbers.NumberToString` | docs/script.js:177-178 | the stored string is non-empty and starts with `-` exactly for a negative time |
| `JsNumbers.TimeClip` | docs/script.js:166 | `new Date(x)` is valid exactly when x is a number within ±8.64·10^15 ms, and then keeps x |
| `JsNumbers.DecimalValue` | docs/script.js:178 | the digits written for n have the value n |
| `JsNumbers.ParseIntNumberToString` | script.js:220-233 | `parseInt` of what `toString` wrote for an integer gives that integer back |
| `VoteGuard.VoteRecord` | docs/script.js:176-179 | the item `markAsVoted` stores parses back to the submission time |
| `VoteGuard.StoredVoteTime` | docs/script.js:163-166 | the vote date is TimeClip of `parseInt` of the item, absent for an absent item; the `if (hasVoted)` test for the empty string changes nothing, since `parseInt("")` is NaN |
| `VoteGuard.AlreadyVoted` | docs/script.js:162-173 | the guard never blocks on an absent, empty or unparseable item, and blocks only when a vote date exists |
| `VoteGuard.GuardAfterVote` | docs/script.js:162-179 | after a vote at t, a load at now is blocked exactly when now − t < 30 days in ms |
| `VoteGuard.GuardBoundary` | docs/script.js:168-170 | 29 days and 30 days − 1 ms after a vote block; exactly 30 days and 31 days do not |
| `VoteGuard.GuardExpiresForGood` | script.js:222-225 | a guard that blocks at a later instant also blocked at every earlier one, so once lapsed it stays lapsed |
| `VoteGuard.ParseSkipsWhiteSpaceAndSuffix` | script.js:217-220 | an item " 42ms" is read as the vote time 42 |
| `VoteGuard.ParseHexPrefix` | script.js:220 | an item "0x1A" is read as the vote time 26 |
| `VoteGuard.ParseNotANumber` | docs/script.js:165-171 | an item without digits gives an Invalid Date and never blocks |
| `VoteGuard.LongNumbersNeverBlock` | docs/script.js:166-171 | an item of 17 or more decimal digits whose first digit is not 0 is beyond the time-value range and never blocks |
| `FeedbackView.RatingText` | docs/script.js:25-31 | no rating label equals the prompt text |
| `FeedbackView.RatingTextsDistinct` | script.js:28-34 | different ratings have different labels |
| `FeedbackView.LabelFor` | docs/script.js:81-89 | the label is the prompt exactly when no star is drawn |
| `FeedbackView.LabelColour` | docs/script.js:57 | the label colour is the positive one exactly for 4 and 5, the warning one below |
| `FeedbackView.ThankYouMessage` | docs/script.js:33-36 | the message is the Google one exactly for 5, the default one below 5 |
| `FeedbackView.CounterColour` | script.js:135-141 | the counter is red above 450, amber for 401..450, grey up to 400 |
| `FeedbackView.Utf16Length` | docs/script.js:102 | the counted length lies between the number of characters and twice it, and equals it without characters outside the BMP |
| `FeedbackView.StarsFor` | docs/script.js:92 | the fill has one flag per star |
| `FeedbackView.ActiveStarCount` | docs/script.js:91-99 | the threshold rule lights exactly `rating` stars, clamped to 0..5 |
| `FeedbackView.ActiveStarsArePrefix` | script.js:116-124 | an active star has only active stars before it |
| `FeedbackFlow.Controller.Load` | docs/script.js:38-49 | a fresh page has no selection and no redirect; it shows the notice exactly when the stored vote is under 30 days old |
| `FeedbackFlow.Controller.UpdateStarsDisplay` | docs/script.js:91-99 | star i becomes active exactly when i < rating; no other state changes |
| `FeedbackFlow.Controller.HandleStarClick` | docs/script.js:51-66 | selects the rating, draws it, sets its label and colour, shows the comment box exactly below 5 and enables submit |
| `FeedbackFlow.Controller.HandleStarHover` | docs/script.js:73-79 | previews the hovered rating's stars and label when nothing is selected; changes nothing otherwise |
| `FeedbackFlow.Controller.ResetStarHover` | docs/script.js:81-89 | redraws the selection, or clears the stars, the prompt and the colour when nothing is selected |
| `FeedbackFlow.Controller.UpdateCharCount` | docs/script.js:101-112 | the counter shows the comment's length in UTF-16 units, coloured by the thresholds |
| `FeedbackFlow.Controller.MarkAsVoted` | docs/script.js:176-179 | the stored item becomes the decimal form of now |
| `FeedbackFlow.Controller.ShowThankYouSection` | docs/script.js:156-160 | hides the rating section and shows the thank-you section |
| `FeedbackFlow.Controller.HandlePerfectRating` | docs/script.js:131-138 | sets the Google message, switches sections and schedules one redirect to the review URL after 1500 ms |
| `FeedbackFlow.Controller.HandleLowerRating` | docs/script.js:140-154 | sets the default message and switches sections; schedules nothing and does not touch the stored item |
| `FeedbackFlow.Controller.HandleSubmit` | docs/script.js:114-129 | changes nothing without a selection; otherwise disables submit, stores now, switches sections, sets the message for the rating and schedules a redirect exactly for 5 |
| `FeedbackFlow.Controller.CheckIfAlreadyVoted` | docs/script.js:162-174 | sets the notice to the stored vote date exactly when the guard blocks at now |
| `FeedbackFlow.Controller.ClickStar` | script.js:51-52 | a star click acts as `handleStarClick` while the rating section is reachable and is lost otherwise |
| `FeedbackFlow.Controller.HoverStar` | script.js:53 | a hover previews only while the section is reachable and nothing is selected |
| `FeedbackFlow.Controller.LeaveStars` | script.js:57 | leaving the stars redraws the selection or the prompt while the section is reachable |
| `FeedbackFlow.Controller.InputComment` | script.js:60 | typing updates the comment and its counter only while the comment box is visible |
| `FeedbackFlow.Controller.ClickSubmit` | script.js:63 | a click on a disabled button does nothing; an enabled one submits once and keeps exactly one redirect for a 5 |
| `FeedbackScenarios.RateSubmitRevisit` | script.js:148-234 | an unblocked visit ends on the rating's message, stores only the submission time, redirects only for 5, and blocks a revisit exactly within 30 days |
| `FeedbackScenarios.SubmitTwice` | script.js:153-158 | a second submit click writes no new time and schedules no second redirect |
| `FeedbackScenarios.SubmitWithoutRating` | script.js:148-151 | submitting before any rating writes nothing, keeps the rating section and schedules nothing |
| `FeedbackScenarios.PreviewThenLeave` | script.js:98-114 | with no selection a hover lights n stars with label n, and leaving lights none and restores the prompt |
| `FeedbackScenarios.HoverAfterSelection` | docs/script.js:73-89 | after a selection a hover changes nothing, and leaving redraws the selection |
| `FeedbackScenarios.NothingAfterSubmit` | script.js:203-210 | after submission further clicks, hovers and typing change neither the rating, the stored time nor the redirects |

## The two copies

`script.js` matches `docs/script.js` line for line in its logic. Besides comments, it adds the following:

| function | docs/script.js | script.js |
|---|---|---|
| `CONFIG`, `ratingTexts`, `thankYouMessages` | 6-36 | 7-40 |
| listener wiring | 38-49 | 46-64 |
| `handleStarClick` | 51-71 | 70-96 |
| `handleStarHover`, `resetStarHover` | 73-89 | 98-114 |
| `updateStarsDisplay` | 91-99 | 116-124 |
| `updateCharCount` | 101-112 | 130-142 |
| `handleSubmit` | 114-129 | 148-168 |
| `handlePerfectRating`, `handleLowerRating` | 131-154 | 170-201 |
| `showThankYouSection` | 156-160 | 203-210 |
| `checkIfAlreadyVoted`, `markAsVoted` | 162-179 | 216-234 |
| `showAlreadyVotedMessage` | 181-205 | 236-261 |

Only `script.js` has `trackEvent`, the global error listener and `isMobile` (script.js:268-293). It also has Markdown text after script.js:296.

## Notes on the code

- `checkIfAlreadyVoted` does not stop the listener wiring that follows it in the `DOMContentLoaded` handler (docs/script.js:38-49).
  - The star listeners are attached, but to star elements the notice has already removed from the page.
  - The next line queries `.stars`, which sat inside the replaced section. The query returns null, so that call throws and the `mouseleave`, `input` and `click` listeners (docs/script.js:46-48) are never attached.
  - Either way no event reaches a handler while the notice is shown, and that is what the model delivers.
- No `localStorage` call is guarded by try/catch. A failing `setItem` would abort `handleSubmit` after it has disabled the button. The model assumes storage calls succeed (see below).

## Left out

- Element lookups: the model's fields stand for the elements.
- `navigator.vibrate`, `focus()` and `window.scrollTo`: these are device and browser side effects with no state the controller reads.
- The timer firing and the navigation itself: a scheduled redirect is recorded as a `Redirect(url, delay)` entry.
- Exceptions from `localStorage`, when storage is disabled or full: the model assumes `getItem` and `setItem` succeed.
- The floating-point day division of `checkIfAlreadyVoted`: it is replaced by the integer comparison `now − t < 2 592 000 000`. The difference `now − t` can reach 1.728·10^16, above 2^53, so it may round. The two still agree, because rounding and division are monotone and the 30-day threshold lies far inside the range where doubles represent integers exactly.
- Rounding of `parseInt` results above 2^53: these are read exactly. The verdict is the same, because every such value is beyond the time-value range either way.
- The date formatting (`toLocaleDateString`) and the markup of `showAlreadyVotedMessage`: the notice holds only the vote date it shows.
- The `console.log` calls, including the trimmed comment that `handleLowerRating` computes only for that log; `trackEvent`/`gtag`; the error listener; `isMobile`.
- The initial markup (`index.html` is not part of this model). `Controller.Load` assumes the page starts with:
  - all stars inactive;
  - the prompt label with no inline colour;
  - a hidden comment box and an empty textarea;
  - a disabled submit button;
  - the rating section shown and the thank-you section hidden.

  The button's text is a parameter.
- The stars' `data-rating` values are taken to be 1..5 (type `Rating`). A missing or non-numeric value (NaN in the source) is not modelled.
- Whitespace in `parseInt`: the model skips exactly the Unicode whitespace and line terminators ECMAScript lists. It knows no other radix than 10 and 16.
