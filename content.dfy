/** The read-only content store: the structural part of the intro and
    dialogue segment records. Narrative text and markup classes are not
    modelled; only the fields the progression engine reads are kept. */
module Content {

  /** The `timer` field of a segment, handed to `setTimeout` as it is.
      The content mixes numbers (`4000`) and strings (`'8000'`, `''`) and
      the engine applies no default, so the delay is kept opaque. */
  datatype Delay = Millis(ms: int) | Text(raw: string)

  /** One intro segment: a narrator line shown for `timer` before it fades. */
  datatype IntroSegment = IntroSegment(timer: Delay)

  /** One dialogue segment. `hasButton` selects between waiting for the
      continue button and a timed advance; `lingerP` greys the person's
      line when the continue button is clicked. */
  datatype DialogueSegment = DialogueSegment(hasButton: bool, lingerP: bool, timer: Delay)
}
