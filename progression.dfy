/** The decisions the story engine takes at each step, as pure functions:
    where an intro step leads, how a dialogue index is dispatched, the
    clamped debug stepping and the count-based join over fade-outs. */
module Progression {
  import opened Content

  /** What `displayIntroStoryContent(index)` does after clearing the timer. */
  datatype IntroStep =
    | IntroFault          // a negative index reads an undefined segment and the handler throws
    | IntroToDialogue     // past the intro: hand over to the dialogue section
    | IntroShow(at: nat)  // render intro segment `at` and schedule its fade

  function IntroDecision(index: int, length: nat): (r: IntroStep)
    ensures r == IntroToDialogue <==> index >= length
    ensures r == IntroFault <==> index < 0
    ensures r.IntroShow? ==> r.at == index && r.at < length
  {
    if index >= length then IntroToDialogue
    else if index < 0 then IntroFault
    else IntroShow(index)
  }

  /** What `init_DialogueSection` does for the current dialogue index. */
  datatype DialogueStep =
    | ToEnd
    | AwaitContinue(seg: DialogueSegment)
    | TimedAdvance(seg: DialogueSegment)

  /** The bounds check comes before any access to the content. Exactly one
      of the two segment branches is taken inside the bounds. */
  function DialogueDecision(index: nat, dialogue: seq<DialogueSegment>): (r: DialogueStep)
    ensures r.ToEnd? <==> index >= |dialogue|
    ensures r.AwaitContinue? <==> index < |dialogue| && dialogue[index].hasButton
    ensures r.TimedAdvance? <==> index < |dialogue| && !dialogue[index].hasButton
    ensures !r.ToEnd? ==> r.seg == dialogue[index]
  {
    if index >= |dialogue| then ToEnd
    else if dialogue[index].hasButton then AwaitContinue(dialogue[index])
    else TimedAdvance(dialogue[index])
  }

  /** Debug key `d`: one step forward, clamped to the last segment. */
  function StepForward(index: nat, length: nat): (r: nat)
    requires length >= 1
    ensures r < length
    ensures index + 1 < length ==> r == index + 1
    ensures index + 1 >= length ==> r == length - 1
  {
    var next := index + 1;
    if next >= length then length - 1 else next
  }

  /** Debug key `a`: one step back, clamped to the first segment. */
  function StepBack(index: nat): (r: nat)
    ensures r <= index
    ensures index >= 1 ==> r == index - 1
    ensures index == 0 ==> r == 0
  {
    var prev := index as int - 1;
    if prev < 0 then 0 else prev
  }

  /** The index after pressing `d` k times. */
  function ForwardTimes(index: nat, length: nat, k: nat): nat
    requires length >= 1
  {
    if k == 0 then index else StepForward(ForwardTimes(index, length, k - 1), length)
  }

  /** The index after pressing `a` k times. */
  function BackTimes(index: nat, k: nat): nat
  {
    if k == 0 then index else StepBack(BackTimes(index, k - 1))
  }

  /** Repeated `d` presses from inside the dialogue walk forward one segment
      at a time and then stay on the last one: they never leave the content. */
  lemma {:induction false} ForwardTimesClamps(index: nat, length: nat, k: nat)
    requires index < length
    ensures ForwardTimes(index, length, k) == if index + k < length then index + k else length - 1
  {
    if k > 0 {
      ForwardTimesClamps(index, length, k - 1);
    }
  }

  /** Repeated `a` presses walk back one segment at a time and stay on the first. */
  lemma {:induction false} BackTimesClamps(index: nat, k: nat)
    ensures BackTimes(index, k) == if k <= index then index - k else 0
  {
    if k > 0 {
      BackTimesClamps(index, k - 1);
    }
  }

  /** The test the completion handler of a timed dialogue makes after
      counting one more finished fade: advance when the count reaches the
      number of paragraphs that were faded. */
  predicate JoinFires(total: nat, completedBefore: nat)
  {
    completedBefore + 1 == total
  }

  /** How many times the join advances the dialogue over `events`
      completion reports, counted from zero. */
  function Advances(total: nat, events: nat): nat
  {
    if events == 0 then 0
    else Advances(total, events - 1) + (if JoinFires(total, events - 1) then 1 else 0)
  }

  /** The join never advances before every paragraph has reported, and
      advances exactly once once they all have, whatever the order. With
      no paragraph at all it never advances. */
  lemma {:induction false} AdvancesExactlyOnce(total: nat, events: nat)
    ensures Advances(total, events) == if 1 <= total <= events then 1 else 0
  {
    if events > 0 {
      AdvancesExactlyOnce(total, events - 1);
    }
  }
}
