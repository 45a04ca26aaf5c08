/** Client runs of the engine, proved from the event methods' contracts alone. */
module Scenarios {
  import opened Content
  import opened Animate
  import opened Engine
  import opened Progression

  /** A page with one intro segment and a timed dialogue segment followed
      by a button segment: the begin click and lead-in show intro segment 0;
      its fade hands over to the dialogue; once the dialogue timer fires,
      the first paragraph's completion does not advance and the second's
      advances to the button segment, which waits for a click. */
  method TimedSegmentWaitsForBothFades(delay: Delay) returns (afterOne: nat, afterTwo: nat, waitsForClick: bool)
    ensures afterOne == 0 && afterTwo == 1 && waitsForClick
  {
    var timed := DialogueSegment(false, false, delay);
    var button := DialogueSegment(true, true, Text(""));
    var s := new Story([IntroSegment(delay)], [timed, button]);
    var h1 := new Element({});
    var person := new Element({});
    var narrator := new Element({});
    s.Begin();
    s.LeadInElapses();
    assert s.storyTimer == Some(IntroTimer(0, delay));
    s.TimerElapses(h1, []);
    assert s.listener == IntroFade(0);
    assert IntroDecision(1, |s.intro|) == IntroToDialogue;
    s.AnimationEnds();
    assert DialogueDecision(0, s.dialogue) == TimedAdvance(timed);
    assert s.storyTimer == Some(DialogueTimer(delay));
    s.TimerElapses(h1, [person, narrator]);
    assert s.listener == FadeJoin(2, 0);
    s.AnimationEnds();
    afterOne := s.contentS1Index;
    s.AnimationEnds();
    afterTwo := s.contentS1Index;
    waitsForClick := s.listener == ContinueButton(button) && s.storyTimer == None;
  }

  /** A button segment is never advanced by a timer or an animation event,
      only by the continue click; past the last segment the story ends. */
  method ButtonSegmentWaitsForClick(lingers: bool) returns (beforeClick: nat, afterClick: nat, ended: bool, greyed: bool)
    ensures beforeClick == 0 && afterClick == 1 && ended
    ensures greyed == lingers
  {
    var button := DialogueSegment(true, lingers, Text(""));
    var s := new Story([], [button]);
    var h1 := new Element({});
    var person := new Element({});
    s.Begin();
    s.LeadInElapses();
    assert DialogueDecision(0, s.dialogue) == AwaitContinue(button);
    s.TimerElapses(h1, [person]);
    s.AnimationEnds();
    beforeClick := s.contentS1Index;
    s.ContinueClick(person);
    afterClick := s.contentS1Index;
    ended := s.section == End;
    greyed := "fade-text" in person.classes;
  }

  /** Past the last segment nothing is re-rendered: the continue button of
      a final button segment stays live, and each further click raises the
      dialogue index again. */
  method ContinueStaysLiveAtEnd() returns (afterFirst: nat, afterSecond: nat, ended: bool)
    ensures afterFirst == 1 && afterSecond == 2 && ended
  {
    var button := DialogueSegment(true, false, Text(""));
    var s := new Story([], [button]);
    var person := new Element({});
    s.Begin();
    s.LeadInElapses();
    assert DialogueDecision(0, s.dialogue) == AwaitContinue(button);
    s.ContinueClick(person);
    afterFirst := s.contentS1Index;
    s.ContinueClick(person);
    afterSecond := s.contentS1Index;
    ended := s.section == End;
  }

  /** A final timed segment advances into End exactly once: completion
      reports that arrive after the join has fired do not advance again. */
  method LastTimedSegmentAdvancesOnce(delay: Delay) returns (afterJoin: nat, afterExtra: nat, ended: bool)
    ensures afterJoin == 1 && afterExtra == 1 && ended
  {
    var timed := DialogueSegment(false, false, delay);
    var s := new Story([], [timed]);
    var h1 := new Element({});
    var person := new Element({});
    var narrator := new Element({});
    s.Begin();
    s.LeadInElapses();
    assert DialogueDecision(0, s.dialogue) == TimedAdvance(timed);
    s.TimerElapses(h1, [person, narrator]);
    s.AnimationEnds();
    s.AnimationEnds();
    afterJoin := s.contentS1Index;
    s.AnimationEnds();
    s.AnimationEnds();
    afterExtra := s.contentS1Index;
    ended := s.section == End;
  }

  /** The lead-in reads the intro index only when it fires, so an arrow
      key pressed during the lead-in moves where the intro starts. */
  method LeadInReadsIndexWhenItFires(delay: Delay) returns (startsAt: Shown, pending: Option<Timer>)
    ensures startsAt == IntroSeg(1) && pending == Some(IntroTimer(1, delay))
  {
    var s := new Story([IntroSegment(Text("")), IntroSegment(delay)], [DialogueSegment(true, false, Text(""))]);
    s.Begin();
    s.KeyDown("ArrowRight");
    assert IntroDecision(1, |s.intro|) == IntroShow(1);
    s.LeadInElapses();
    startsAt := s.shown;
    pending := s.storyTimer;
  }
}
