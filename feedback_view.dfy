/** The fixed configuration and the pure display decisions of the rating
    page: the texts and colours a rating selects, the star-fill rule and the
    character-counter colour. */
module FeedbackView {

  // `CONFIG`: where a maximum rating sends the visitor, after how long, and
  // under which localStorage key the vote time is kept.
  const GoogleReviewUrl: string := "https://search.google.com/local/writereview?placeid=ChIJw1uI0e-XzhIR1dsGLSN1EFs"
  const RedirectDelayMs: nat := 1500
  const StorageKey: string := "esterel_avis_given"

  /** The page shows five stars; each carries its rating 1..5. */
  const StarCount: nat := 5
  const MaxRating: int := 5
  type Rating = n: int | 1 <= n <= 5 witness 1

  const PromptText: string := "Cliquez sur les étoiles"
  const SendingText: string := "Envoi en cours..."
  const PerfectMessage: string := "Votre avis va être publié sur Google. Merci infiniment !"
  const DefaultMessage: string := "Votre retour constructif nous aide à progresser."

  const PositiveColour: string := "#10b981"
  const WarningColour: string := "#f59e0b"
  const LimitColour: string := "#ef4444"
  const QuietColour: string := "#9ca3af"
  /** An empty inline colour: the stylesheet's own colour applies. */
  const NoColour: string := ""

  /** `ratingTexts`: the label shown for each rating. */
  function RatingText(n: Rating): (text: string)
    ensures text != PromptText
  {
    match n
    case 1 => "Très insatisfait 😞"
    case 2 => "Insatisfait 😕"
    case 3 => "Moyen 😐"
    case 4 => "Satisfait 😊"
    case 5 => "Très satisfait 🤩"
  }

  /** The label for the stars currently drawn: the prompt when none is drawn. */
  function LabelFor(shown: int): (text: string)
    requires 0 <= shown <= MaxRating
    ensures text == PromptText <==> shown == 0
  {
    if shown == 0 then PromptText else RatingText(shown)
  }

  /** Label colour after a click: positive for 4 and 5, a warning tone below. */
  function LabelColour(n: Rating): (colour: string)
    ensures colour == PositiveColour <==> n >= 4
    ensures colour == WarningColour <==> n < 4
  {
    if n >= 4 then PositiveColour else WarningColour
  }

  /** `thankYouMessages`: the Google message for 5, the default text below. */
  function ThankYouMessage(n: Rating): (message: string)
    ensures message == PerfectMessage <==> n == MaxRating
    ensures message == DefaultMessage <==> n < MaxRating
  {
    if n == MaxRating then PerfectMessage else DefaultMessage
  }

  /** Counter colour for a comment of `count` UTF-16 units: red above 450,
      amber from 401 to 450, grey up to 400. */
  function CounterColour(count: int): (colour: string)
    ensures colour == LimitColour <==> count > 450
    ensures colour == WarningColour <==> 400 < count <= 450
    ensures colour == QuietColour <==> count <= 400
  {
    if count > 450 then LimitColour else if count > 400 then WarningColour else QuietColour
  }

  /** JavaScript's `String.prototype.length`: UTF-16 code units, so a
      character outside the Basic Multilingual Plane (an emoji) counts 2. */
  function Utf16Length(s: string): (units: nat)
    ensures |s| <= units <= 2 * |s|
    ensures (forall i :: 0 <= i < |s| ==> s[i] <= '\U{FFFF}') ==> units == |s|
  {
    if s == [] then 0 else (if s[0] <= '\U{FFFF}' then 1 else 2) + Utf16Length(s[1..])
  }

  /** Star `i` (0-based) is active exactly when `i < shown`. */
  function StarsFor(shown: int, count: nat): (fill: seq<bool>)
    ensures |fill| == count
  {
    seq(count, i => i < shown)
  }

  function CountActive(fill: seq<bool>): nat {
    if fill == [] then 0 else CountActive(fill[..|fill| - 1]) + (if fill[|fill| - 1] then 1 else 0)
  }

  /** The threshold rule lights exactly `shown` stars (clamped to the star
      count): none for 0, all five for 5. */
  lemma {:induction false} ActiveStarCount(shown: int, count: nat)
    ensures CountActive(StarsFor(shown, count)) == if shown <= 0 then 0 else if shown >= count then count else shown
  {
    if count > 0 {
      assert StarsFor(shown, count)[..count - 1] == StarsFor(shown, count - 1);
      ActiveStarCount(shown, count - 1);
    }
  }

  /** The active stars always form a prefix: an active star has only active
      stars before it. */
  lemma ActiveStarsArePrefix(shown: int, count: nat, i: nat, j: nat)
    requires i <= j < count
    ensures StarsFor(shown, count)[j] ==> StarsFor(shown, count)[i]
  {
  }

  /** Distinct ratings have distinct labels, so the label identifies the
      rating it was drawn for. */
  lemma RatingTextsDistinct(a: Rating, b: Rating)
    ensures RatingText(a) == RatingText(b) ==> a == b
  {
  }
}
