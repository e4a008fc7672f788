/**
 * The release rule of both swipe decks: a horizontal drag of more than 120
 * points either way completes a swipe; anything shorter springs back.
 * Drag distances are whole numbers here.
 */
module Gesture {

  const SwipeThreshold: int := 120

  datatype Release = SwipeRight | SwipeLeft | SpringBack

  /** `onPanResponderRelease`: which of the three branches a drag of `dx` takes. */
  function Classify(dx: int): (r: Release)
    ensures r == SwipeRight <==> dx > SwipeThreshold
    ensures r == SwipeLeft <==> dx < -SwipeThreshold
    ensures r == SpringBack <==> -SwipeThreshold <= dx <= SwipeThreshold
  {
    if dx > SwipeThreshold then SwipeRight
    else if dx < -SwipeThreshold then SwipeLeft
    else SpringBack
  }

  /** The same gesture seen in a mirror. */
  function Mirror(g: Release): Release
  {
    match g
    case SwipeRight => SwipeLeft
    case SwipeLeft => SwipeRight
    case SpringBack => SpringBack
  }

  /** The rule is symmetric: dragging the other way gives the mirrored branch. */
  lemma ClassifyMirror(dx: int)
    ensures Classify(-dx) == Mirror(Classify(dx))
  {
  }

  /** A drag completes a swipe exactly when it is longer than the threshold. */
  lemma CompletesIffBeyondThreshold(dx: int)
    ensures Classify(dx) != SpringBack <==> (dx > SwipeThreshold || -dx > SwipeThreshold)
    ensures Classify(SwipeThreshold) == SpringBack && Classify(-SwipeThreshold) == SpringBack
  {
  }
}
