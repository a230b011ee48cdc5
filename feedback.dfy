/** The feedback strings the trainer shows and the colour of the feedback box,
    chosen by substring tests in priority order. */
module Feedback {

  const GoodForm: string := "GOOD FORM"
  const TuckElbows: string := "TUCK ELBOWS"
  const GetIntoPlank: string := "GET INTO PLANK POSITION"
  const RepCounted: string := "REP COUNTED!"
  const NoBodyDetected: string := "NO BODY DETECTED"

  /** The six values the feedback variable can hold (the initial one is empty). */
  predicate Produced(s: string)
  {
    s == "" || s == GoodForm || s == TuckElbows || s == GetIntoPlank || s == RepCounted || s == NoBodyDetected
  }

  lemma DistinctMessages()
    ensures GoodForm != TuckElbows && GoodForm != GetIntoPlank && GoodForm != RepCounted
    ensures GoodForm != NoBodyDetected && TuckElbows != GetIntoPlank && TuckElbows != RepCounted
    ensures TuckElbows != NoBodyDetected && GetIntoPlank != RepCounted && GetIntoPlank != NoBodyDetected
    ensures RepCounted != NoBodyDetected
  {
    assert GoodForm[0] == 'G' && TuckElbows[0] == 'T' && GetIntoPlank[1] == 'E';
    assert RepCounted[0] == 'R' && NoBodyDetected[0] == 'N';
  }

  /** `sub` occurs in `s` starting at index `i`. */
  predicate OccursAt(s: string, sub: string, i: nat)
  {
    i + |sub| <= |s| && s[i..i + |sub|] == sub
  }

  /** Python's `sub in s` on strings. */
  predicate Contains(s: string, sub: string)
  {
    exists i: nat :: i <= |s| && OccursAt(s, sub, i)
  }

  /** A box colour, in OpenCV's blue-green-red order. */
  datatype Colour = Bgr(b: int, g: int, r: int)

  const TuckColour: Colour := Bgr(0, 0, 255)
  const GoodColour: Colour := Bgr(0, 150, 0)
  const CountedColour: Colour := Bgr(200, 100, 0)
  const DetectedColour: Colour := Bgr(0, 165, 255)
  const DefaultColour: Colour := Bgr(128, 0, 0)

  /** The feedback box colour: the first of "TUCK ELBOWS", "GOOD", "COUNTED" and
      "DETECTED" found in the feedback picks it, otherwise the default. */
  function FeedbackColour(feedback: string): Colour
  {
    if Contains(feedback, "TUCK ELBOWS") then TuckColour
    else if Contains(feedback, "GOOD") then GoodColour
    else if Contains(feedback, "COUNTED") then CountedColour
    else if Contains(feedback, "DETECTED") then DetectedColour
    else DefaultColour
  }

  /** A string lacking one of the characters of `sub` cannot contain `sub`. */
  lemma MissingCharExcludes(s: string, sub: string, k: nat)
    requires k < |sub| && sub[k] !in s
    ensures !Contains(s, sub)
  {
  }

  lemma TuckElbowsColour()
    ensures FeedbackColour(TuckElbows) == TuckColour
  {
    assert OccursAt(TuckElbows, "TUCK ELBOWS", 0);
  }

  lemma GoodFormColour()
    ensures FeedbackColour(GoodForm) == GoodColour
  {
    assert OccursAt(GoodForm, "GOOD", 0);
  }

  lemma RepCountedColour()
    ensures FeedbackColour(RepCounted) == CountedColour
  {
    // neither 'K' (of "TUCK ELBOWS") nor 'G' (of "GOOD") occurs in "REP COUNTED!"
    MissingCharExcludes(RepCounted, "TUCK ELBOWS", 3);
    MissingCharExcludes(RepCounted, "GOOD", 0);
    assert OccursAt(RepCounted, "COUNTED", 4);
  }

  lemma NoBodyDetectedColour()
    ensures FeedbackColour(NoBodyDetected) == DetectedColour
  {
    // "NO BODY DETECTED" has no 'K', 'G' or 'U'
    MissingCharExcludes(NoBodyDetected, "TUCK ELBOWS", 3);
    MissingCharExcludes(NoBodyDetected, "GOOD", 0);
    MissingCharExcludes(NoBodyDetected, "COUNTED", 2);
    assert OccursAt(NoBodyDetected, "DETECTED", 8);
  }

  lemma GetIntoPlankColour()
    ensures FeedbackColour(GetIntoPlank) == DefaultColour
  {
    // "GET INTO PLANK POSITION" has no 'U' and no 'D'
    MissingCharExcludes(GetIntoPlank, "TUCK ELBOWS", 1);
    MissingCharExcludes(GetIntoPlank, "GOOD", 3);
    MissingCharExcludes(GetIntoPlank, "COUNTED", 2);
    MissingCharExcludes(GetIntoPlank, "DETECTED", 0);
  }

  /** The colour of every feedback string the trainer can produce. The plank
      prompt and the initial empty feedback match no keyword and get the default. */
  lemma ProducedColours()
    ensures FeedbackColour(TuckElbows) == TuckColour
    ensures FeedbackColour(GoodForm) == GoodColour
    ensures FeedbackColour(RepCounted) == CountedColour
    ensures FeedbackColour(NoBodyDetected) == DetectedColour
    ensures FeedbackColour(GetIntoPlank) == DefaultColour
    ensures FeedbackColour("") == DefaultColour
  {
    TuckElbowsColour();
    GoodFormColour();
    RepCountedColour();
    NoBodyDetectedColour();
    GetIntoPlankColour();
  }

  /** The substring tests give TUCK ELBOWS priority over GOOD: a feedback holding
      both keywords is coloured as a tuck warning. */
  lemma TuckTakesPriority(feedback: string)
    requires Contains(feedback, "TUCK ELBOWS")
    ensures FeedbackColour(feedback) == TuckColour
  {
  }

  /** The five colours are pairwise distinct, so each keyword is told apart on screen. */
  lemma ProducedColoursDistinguish(s: string, t: string)
    requires Produced(s) && Produced(t)
    requires FeedbackColour(s) == FeedbackColour(t)
    ensures s == t || (FeedbackColour(s) == DefaultColour && (s == "" || s == GetIntoPlank) && (t == "" || t == GetIntoPlank))
  {
    ProducedColours();
    DistinctMessages();
  }
}
