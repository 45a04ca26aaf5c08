/** The story progression engine of main.js: the closure variables of the
    page script become the fields of one `Story` object, and each browser
    event that reaches the script becomes one method. */
module Engine {
  import opened Content
  import opened Animate
  import opened Progression

  datatype Option<T> = None | Some(value: T)

  /** Which part of the story the page is in. */
  datatype Section = Landing | Intro | Dialogue | End

  /** What the `main` region shows, reduced to the segment it renders. */
  datatype Shown = LandingPage | Blank | IntroSeg(at: nat) | DialogueSeg(at: nat)

  /** The callback held by `storyTimer`. */
  datatype Timer =
    | IntroTimer(at: nat, delay: Delay)   // fades intro segment `at`, then shows the next one
    | DialogueTimer(delay: Delay)          // fades the dialogue paragraphs, then advances

  /** The single live handler attached to what `main` shows. Every render
      replaces the content of `main`, and with it the handlers on the old
      elements, so at most one of these is live at a time. */
  datatype Listener =
    | NoListener
    | IntroFade(at: nat)                         // `animationend` on the intro heading
    | ContinueButton(seg: DialogueSegment)       // click on the continue button
    | FadeJoin(total: nat, completed: nat)       // `animationend` on each faded paragraph

  class Story {
    const intro: seq<IntroSegment>
    const dialogue: seq<DialogueSegment>

    var currentIndex: int
    var contentS1Index: nat
    var storyTimer: Option<Timer>
    var timerEnd: bool
    /** The lead-in timeout started by the begin button; it is not kept in `storyTimer`. */
    var leadInPending: bool
    var section: Section
    var shown: Shown
    var listener: Listener

    /** The engine invariant: the section agrees with the dialogue index,
        a pending timer always belongs to what is on screen, no handler is
        live beside it, and `timerEnd` is only ever raised inside a timer
        callback. */
    ghost predicate Valid()
      reads this
    {
      Placed() && Wired()
    }

    /** The section agrees with the dialogue index. */
    ghost predicate Placed()
      reads this
    {
      && (section == Dialogue ==> contentS1Index < |dialogue|)
      && (section == End ==> contentS1Index >= |dialogue|)
    }

    /** Everything in the invariant but `Placed`: it survives a change of
        the dialogue index while no timer is pending. */
    ghost predicate Wired()
      reads this
    {
      && |dialogue| > 0
      && !timerEnd
      && (shown.IntroSeg? ==> shown.at < |intro|)
      && (shown.DialogueSeg? ==> shown.at < |dialogue|)
      && (storyTimer.Some? ==> listener == NoListener)
      && (storyTimer.Some? && storyTimer.value.IntroTimer? ==>
            var i := storyTimer.value.at;
            i < |intro| && storyTimer.value.delay == intro[i].timer
            && section == Intro && shown == IntroSeg(i))
      && (storyTimer.Some? && storyTimer.value.DialogueTimer? ==>
            section == Dialogue && shown == DialogueSeg(contentS1Index)
            && !dialogue[contentS1Index].hasButton
            && storyTimer.value.delay == dialogue[contentS1Index].timer)
      && (listener.ContinueButton? ==> listener.seg.hasButton)
    }

    /** The state `init_DialogueSection` leaves for the current dialogue index. */
    ghost predicate AtDialogueStep()
      reads this
    {
      match DialogueDecision(contentS1Index, dialogue)
      case ToEnd => section == End && storyTimer == None
      case AwaitContinue(s) =>
        section == Dialogue && shown == DialogueSeg(contentS1Index)
        && listener == ContinueButton(s) && storyTimer == None
      case TimedAdvance(s) =>
        section == Dialogue && shown == DialogueSeg(contentS1Index)
        && listener == NoListener && storyTimer == Some(DialogueTimer(s.timer))
    }

    /** The page as loaded: the landing page, both indices at zero, no timer. */
    constructor (intro: seq<IntroSegment>, dialogue: seq<DialogueSegment>)
      requires |dialogue| > 0
      ensures Valid()
      ensures this.intro == intro && this.dialogue == dialogue
      ensures section == Landing && shown == LandingPage && listener == NoListener
      ensures currentIndex == 0 && contentS1Index == 0
      ensures storyTimer == None && !timerEnd && !leadInPending
    {
      this.intro := intro;
      this.dialogue := dialogue;
      currentIndex := 0;
      contentS1Index := 0;
      storyTimer := None;
      timerEnd := false;
      leadInPending := false;
      section := Landing;
      shown := LandingPage;
      listener := NoListener;
    }

    /** `fadeOut(element, t)`: edits one element's class list and lowers `timerEnd` when `t` holds. */
    method FadeOut(e: Element, t: bool)
      modifies e, this`timerEnd
      ensures e.classes == FadeOutClasses(old(e.classes), t)
      ensures timerEnd == (if t then false else old(timerEnd))
    {
      e.classes := e.classes + {AnimatedClass, FadeInClass};
      if t {
        e.classes := e.classes - {FadeInClass};
        e.classes := e.classes + {FadeOutClass, SlowClass};
        timerEnd := false;
      }
    }

    /** The `forEach` of the timed dialogue: raise `timerEnd` and fade each
        paragraph in turn. An element listed twice ends up faded once. */
    method FadeAll(ps: seq<Element>)
      modifies ps, this`timerEnd
      ensures forall j :: 0 <= j < |ps| ==> ps[j].classes == FadeOutClasses(old(ps[j].classes), true)
      ensures timerEnd == (if |ps| == 0 then old(timerEnd) else false)
    {
      var i := 0;
      while i < |ps|
        invariant 0 <= i <= |ps|
        invariant forall j :: 0 <= j < |ps| ==>
          ps[j].classes == if ps[j] in ps[..i] then FadeOutClasses(old(ps[j].classes), true) else old(ps[j].classes)
        invariant timerEnd == (if i == 0 then old(timerEnd) else false)
      {
        var e := ps[i];
        if e in ps[..i] {
          FadeOutIdempotent(old(e.classes), true);
        }
        timerEnd := true;
        FadeOut(e, timerEnd);
        assert ps[..i + 1] == ps[..i] + [e];
        i := i + 1;
      }
      assert ps[..i] == ps;
    }

    /** `init_DialogueSection`: the bounds check first; past the end the
        story is over (`endStory` does not exist, so nothing is re-rendered
        and what is on screen stays); otherwise the segment is rendered and
        either the continue button or a timed advance is set up. */
    method Dispatch()
      requires Wired() && storyTimer == None
      modifies this
      ensures Valid() && AtDialogueStep()
      ensures section == End ==> shown == old(shown) && listener == old(listener)
      ensures currentIndex == old(currentIndex) && contentS1Index == old(contentS1Index)
      ensures leadInPending == old(leadInPending) && timerEnd == old(timerEnd)
    {
      match DialogueDecision(contentS1Index, dialogue)
      case ToEnd =>
        section := End;
      case AwaitContinue(s) =>
        section := Dialogue;
        shown := DialogueSeg(contentS1Index);
        listener := ContinueButton(s);
      case TimedAdvance(s) =>
        section := Dialogue;
        shown := DialogueSeg(contentS1Index);
        listener := NoListener;
        storyTimer := Some(DialogueTimer(s.timer));
    }

    /** `update_dialogue`: exactly one step forward, then dispatch again. */
    method UpdateDialogue()
      requires Valid() && storyTimer == None
      modifies this
      ensures Valid() && AtDialogueStep()
      ensures contentS1Index == old(contentS1Index) + 1
      ensures section == End ==> shown == old(shown) && listener == old(listener)
      ensures currentIndex == old(currentIndex) && leadInPending == old(leadInPending)
    {
      contentS1Index := contentS1Index + 1;
      Dispatch();
    }

    /** `displayIntroStoryContent(index)`: clear the pending timer, then
        either hand over to the dialogue or show the segment and store the
        one timer that will fade it. */
    method DisplayIntro(index: int)
      requires Valid()
      modifies this
      ensures Valid()
      ensures currentIndex == old(currentIndex) && contentS1Index == old(contentS1Index)
      ensures leadInPending == old(leadInPending)
      ensures match IntroDecision(index, |intro|)
        case IntroFault =>
          storyTimer == None && section == old(section) && shown == old(shown) && listener == old(listener)
        case IntroToDialogue =>
          AtDialogueStep() && (section == End ==> shown == old(shown) && listener == old(listener))
        case IntroShow(i) =>
          section == Intro && shown == IntroSeg(i) && listener == NoListener
          && storyTimer == Some(IntroTimer(i, intro[i].timer))
    {
      storyTimer := None;
      match IntroDecision(index, |intro|)
      case IntroFault =>
      case IntroToDialogue =>
        Dispatch();
      case IntroShow(i) =>
        section := Intro;
        shown := IntroSeg(i);
        listener := NoListener;
        storyTimer := Some(IntroTimer(i, intro[i].timer));
    }

    /** Click on the begin button, which only the landing page shows: empty
        the page, reset the intro index and start the lead-in timeout. */
    method Begin()
      requires Valid()
      modifies this
      ensures Valid()
      ensures old(shown) != LandingPage ==> unchanged(this)
      ensures old(shown) == LandingPage ==>
        currentIndex == 0 && leadInPending && shown == Blank && listener == NoListener
        && section == old(section) && storyTimer == old(storyTimer) && contentS1Index == old(contentS1Index)
    {
      if shown == LandingPage {
        shown := Blank;
        listener := NoListener;
        currentIndex := 0;
        leadInPending := true;
      }
    }

    /** The lead-in timeout elapses: show the intro at `currentIndex`. */
    method LeadInElapses()
      requires Valid()
      modifies this
      ensures Valid()
      ensures !old(leadInPending) ==> unchanged(this)
      ensures old(leadInPending) ==> !leadInPending
      ensures currentIndex == old(currentIndex) && contentS1Index == old(contentS1Index)
      ensures old(leadInPending) && old(currentIndex) == 0 && |intro| > 0 ==>
        section == Intro && shown == IntroSeg(0) && listener == NoListener
        && storyTimer == Some(IntroTimer(0, intro[0].timer))
      ensures old(leadInPending) ==>
        match IntroDecision(old(currentIndex), |intro|)
        case IntroFault =>
          storyTimer == None && section == old(section) && shown == old(shown) && listener == old(listener)
        case IntroToDialogue =>
          AtDialogueStep() && (section == End ==> shown == old(shown) && listener == old(listener))
        case IntroShow(i) =>
          section == Intro && shown == IntroSeg(i) && listener == NoListener
          && storyTimer == Some(IntroTimer(i, intro[i].timer))
    {
      if leadInPending {
        leadInPending := false;
        DisplayIntro(currentIndex);
      }
    }

    /** The pending `storyTimer` callback runs. An intro timer fades the
        heading and waits for its `animationend`; a dialogue timer fades
        every paragraph and starts counting their completions from zero. */
    method TimerElapses(h1: Element, ps: seq<Element>)
      requires Valid()
      modifies this, h1, ps
      ensures Valid()
      ensures storyTimer == None
      ensures section == old(section) && shown == old(shown)
      ensures currentIndex == old(currentIndex) && contentS1Index == old(contentS1Index)
      ensures leadInPending == old(leadInPending)
      ensures old(storyTimer) == None ==>
        listener == old(listener) && h1.classes == old(h1.classes)
        && forall j :: 0 <= j < |ps| ==> ps[j].classes == old(ps[j].classes)
      ensures old(storyTimer).Some? && old(storyTimer).value.IntroTimer? ==>
        listener == IntroFade(old(storyTimer).value.at)
        && h1.classes == FadeOutClasses(old(h1.classes), true)
        && forall j :: 0 <= j < |ps| && ps[j] != h1 ==> ps[j].classes == old(ps[j].classes)
      ensures old(storyTimer).Some? && old(storyTimer).value.DialogueTimer? ==>
        listener == FadeJoin(|ps|, 0)
        && (forall j :: 0 <= j < |ps| ==> ps[j].classes == FadeOutClasses(old(ps[j].classes), true))
        && (h1 !in ps ==> h1.classes == old(h1.classes))
    {
      match storyTimer
      case None =>
      case Some(IntroTimer(i, _)) =>
        storyTimer := None;
        timerEnd := true;
        FadeOut(h1, timerEnd);
        listener := IntroFade(i);
      case Some(DialogueTimer(_)) =>
        storyTimer := None;
        FadeAll(ps);
        listener := FadeJoin(|ps|, 0);
    }

    /** An `animationend` reaches the live handler. The intro heading's
        handler shows the next intro segment; a paragraph's handler counts
        one completion and advances the dialogue when the count reaches the
        number of faded paragraphs. */
    method AnimationEnds()
      requires Valid()
      modifies this
      ensures Valid()
      ensures currentIndex == old(currentIndex) && leadInPending == old(leadInPending)
      ensures !old(listener).IntroFade? && !old(listener).FadeJoin? ==> unchanged(this)
      ensures old(listener).IntroFade? ==>
        contentS1Index == old(contentS1Index)
        && match IntroDecision(old(listener).at + 1, |intro|)
           case IntroFault => false
           case IntroToDialogue =>
             AtDialogueStep() && (section == End ==> shown == old(shown) && listener == old(listener))
           case IntroShow(i) =>
             section == Intro && shown == IntroSeg(i) && listener == NoListener
             && storyTimer == Some(IntroTimer(i, intro[i].timer))
      ensures old(listener).FadeJoin? && JoinFires(old(listener).total, old(listener).completed) ==>
        contentS1Index == old(contentS1Index) + 1 && AtDialogueStep()
        && (section == End ==>
              shown == old(shown) && listener == FadeJoin(old(listener).total, old(listener).total))
      ensures old(listener).FadeJoin? && !JoinFires(old(listener).total, old(listener).completed) ==>
        listener == FadeJoin(old(listener).total, old(listener).completed + 1)
        && contentS1Index == old(contentS1Index) && section == old(section)
        && shown == old(shown) && storyTimer == old(storyTimer)
    {
      match listener
      case IntroFade(i) =>
        DisplayIntro(i + 1);
      case FadeJoin(total, completed) =>
        listener := FadeJoin(total, completed + 1);
        if completed + 1 == total {
          UpdateDialogue();
        }
      case _ =>
    }

    /** Click on the continue button: grey the person's line when the
        segment asks it to linger, then advance synchronously. */
    method ContinueClick(person: Element)
      requires Valid()
      modifies this, person
      ensures Valid()
      ensures currentIndex == old(currentIndex) && leadInPending == old(leadInPending)
      ensures !old(listener).ContinueButton? ==> unchanged(this) && unchanged(person)
      ensures old(listener).ContinueButton? ==>
        contentS1Index == old(contentS1Index) + 1 && AtDialogueStep()
        && (section == End ==> shown == old(shown) && listener == old(listener))
        && person.classes == (if old(listener).seg.lingerP then old(person.classes) + {"fade-text"} else old(person.classes))
    {
      match listener
      case ContinueButton(seg) =>
        if seg.lingerP {
          person.classes := person.classes + {"fade-text"};
        }
        UpdateDialogue();
      case _ =>
    }

    /** The `keydown` handler. The arrow keys move `currentIndex` without
        bounds. `d` and `a` clear the timer, step the dialogue index with a
        clamp, empty the page and dispatch again. */
    method KeyDown(key: string)
      requires Valid()
      modifies this
      ensures Valid()
      ensures leadInPending == old(leadInPending)
      ensures key == "ArrowRight" ==> currentIndex == old(currentIndex) + 1
      ensures key == "ArrowLeft" ==> currentIndex == old(currentIndex) - 1
      ensures key == "ArrowRight" || key == "ArrowLeft" ==>
        contentS1Index == old(contentS1Index) && storyTimer == old(storyTimer) && listener == old(listener)
        && section == old(section) && shown == old(shown)
      ensures key == "d" ==>
        currentIndex == old(currentIndex) && contentS1Index == StepForward(old(contentS1Index), |dialogue|)
        && section == Dialogue && AtDialogueStep()
      ensures key == "a" ==>
        currentIndex == old(currentIndex) && contentS1Index == StepBack(old(contentS1Index))
        && AtDialogueStep() && (section == End ==> shown == Blank && listener == NoListener)
      ensures key == "a" && old(contentS1Index) <= |dialogue| ==> section == Dialogue
      ensures key != "ArrowRight" && key != "ArrowLeft" && key != "d" && key != "a" ==> unchanged(this)
    {
      if key == "ArrowRight" {
        currentIndex := currentIndex + 1;
      } else if key == "ArrowLeft" {
        currentIndex := currentIndex - 1;
      } else if key == "d" {
        storyTimer := None;
        contentS1Index := StepForward(contentS1Index, |dialogue|);
        shown := Blank;
        listener := NoListener;
        Dispatch();
      } else if key == "a" {
        storyTimer := None;
        contentS1Index := StepBack(contentS1Index);
        shown := Blank;
        listener := NoListener;
        Dispatch();
      }
    }
  }
}
