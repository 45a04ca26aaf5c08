# The Egg: story progression engine

A Dafny model of the progression engine in `main.js` of the interactive
story "The Egg". The page script keeps its state in closure variables:
the intro position `currentIndex`, the dialogue position `contentS1Index`,
the single timer slot `storyTimer` and the `timerEnd` flag. Browser
events drive it: the begin click, timer callbacks, `animationend` on
faded elements, the continue click and the debug keys.

The model keeps that shape. The class `Engine.Story` holds those
variables as fields, plus four more:
- the section the story is in (Landing, Intro, Dialogue, End);
- what the `main` region shows, reduced to a segment index;
- the one event handler live on what is shown;
- the lead-in timeout of the begin button, which the source does not
  keep in `storyTimer`.

Each event is one method. Its contract gives the new state in terms of
the old one, and every method preserves the invariant `Valid()`. The
invariant says:
- the section agrees with the dialogue index;
- a pending timer belongs to the segment on screen, and no handler is
  live beside it, so a timer is never overwritten while pending;
- `timerEnd` is false between events.

The decisions are pure functions in `Progression`, with lemmas:
- where an intro step leads;
- how a dialogue index is dispatched;
- the clamped debug steps;
- the count-based join over paragraph fade-outs.

`Animate.FadeOutClasses` gives the class-list edit that `fadeOut` makes.
Content arrays are read-only sequences of records that keep only the
fields the engine reads (`hasButton`, `lingerP`, `timer`).

Behaviour of the script worth noting:
- A timed dialogue with no paragraph on screen never advances. Its join
  waits for a count of zero, which no completion reaches.
- `endStory` does not exist, so reaching the end re-renders nothing. The
  handler that was live on the last screen stays live. A continue button
  left there keeps raising the dialogue index past the end on each click.
  For that reason, debug `a` returns into the dialogue only from an index
  at most the dialogue length.
- The timer delay is passed on as given, with no default.

## Model

| member | source | states |
|---|---|---|
| Engine.Story.constructor | main.js:5-9 | the page starts on the landing page with both indices 0, no timer pending and `timerEnd` false |
| Engine.Story.Begin | main.js:107-114 | a begin click on the landing page empties the page, resets the intro index to 0 and starts the lead-in; elsewhere it changes nothing |
| Engine.Story.LeadInElapses | main.js:115-121 | the lead-in shows the intro at the intro index as it is when the timeout fires, with DisplayIntro's three outcomes (fault, hand-off, show with one timer); after a begin with no arrow key, intro segment 0 |
| Engine.Story.DisplayIntro | main.js:125-187 | the pending timer is cleared first; an index at or past the intro length hands over to the dialogue and renders no intro; otherwise segment `index` is shown and exactly one timer, for that segment, is pending |
| Progression.IntroDecision | main.js:134-143 | the intro step goes to the dialogue exactly when the index reaches the intro length; a negative index is a fault; otherwise segment `index` is shown |
| Engine.Story.TimerElapses | main.js:265-299 | the pending timer's callback runs once and the slot empties: an intro timer fades the heading and waits for its end; a dialogue timer fades every paragraph and starts counting completions from zero; with no timer nothing changes |
| Engine.Story.FadeAll | main.js:273-296 | every paragraph listed ends up faded out exactly as one `fadeOut(p, true)` leaves it, even if listed twice; `timerEnd` ends false |
| Engine.Story.FadeOut | main.js:189-207 | the element's classes become `FadeOutClasses` of the old ones, and `timerEnd` is lowered when the fade-out flag is set |
| Animate.FadeOutClasses | main.js:189-207 | with the flag, the classes contain animated, fade-out and slow but not fade-in; without it only animated and fade-in are added; no other class changes |
| Animate.FadeOutIdempotent | main.js:189-207 | fading an element twice leaves the same classes as fading it once |
| Engine.Story.Dispatch | main.js:212-236 | the bounds check comes before any read of the content; past the end the story is at End and nothing is re-rendered; a button segment waits for a continue click with no timer; any other segment stores one timed advance |
| Progression.DialogueDecision | main.js:217-235 | End exactly when the index reaches the dialogue length; inside the bounds exactly one of the button and timed branches, on the segment at that index |
| Engine.Story.UpdateDialogue | main.js:305-342 | the dialogue index grows by exactly one and is dispatched again; the intro index and lead-in are untouched |
| Engine.Story.ContinueClick | main.js:250-258 | a click on a live continue button greys the person line when the segment lingers and advances one segment; when that reaches End the screen and the button stay as they were; with no button nothing changes |
| Engine.Story.AnimationEnds | main.js:177-183 | the intro heading's fade end shows the next intro step; a paragraph's fade end counts one completion and advances the dialogue exactly when the count reaches the number of faded paragraphs; when an advance reaches End the screen stays and the join's count stays at its total |
| Progression.AdvancesExactlyOnce | main.js:273-293 | over any number of completion reports the join advances never before all paragraphs have reported and exactly once after they have |
| Engine.Story.KeyDown | main.js:345-397 | arrows move the intro index by one without bounds; `d` and `a` clear the timer, step the dialogue index with a clamp and dispatch; `d` never reaches End, nor does `a` from an index at most the dialogue length |
| Progression.StepForward | main.js:366-370 | `d` steps one forward and clamps to the last segment, so the index is always inside the dialogue |
| Progression.StepBack | main.js:385-389 | `a` steps one back and clamps to the first segment |
| Progression.ForwardTimesClamps | main.js:359-376 | k presses of `d` from inside the dialogue land on index + k, or the last segment once that is passed |
| Progression.BackTimesClamps | main.js:378-396 | k presses of `a` land on index - k, or the first segment once that is passed |
| Scenarios.TimedSegmentWaitsForBothFades | main.js:261-299 | begin, lead-in, intro fade, then a timed dialogue with two paragraphs: the first completion does not advance, the second advances to the next segment |
| Scenarios.ContinueStaysLiveAtEnd | main.js:219-258 | at End the last continue button stays live: a second click raises the dialogue index to 2 and the story stays at End |
| Scenarios.LastTimedSegmentAdvancesOnce | main.js:282-293 | a final timed segment advances into End once; completion reports after the join fired leave the index at 1 |
| Scenarios.LeadInReadsIndexWhenItFires | main.js:115-121 | an ArrowRight during the lead-in makes the intro start at segment 1, with that segment's timer pending |
| Scenarios.ButtonSegmentWaitsForClick | main.js:225-258 | a button segment is not advanced by timer or animation events, only by the continue click, which greys a lingering person line |

## Left out

- Markup and rendering (`$('main').html`, `prepend`, `empty`, the flash animation): reduced to "which segment is shown" and "the page was emptied".
- Wall-clock time and the event loop: a timer is a pending slot fired by an explicit event. Animation completion is an explicit event. Delays are opaque values.
- Which elements the DOM queries return (`querySelector('h1')`, `querySelectorAll('p')`, `$('.person')`): these are parameters of the timer event and the continue click. The continue click greys one person element, the one passed in, where the source greys every `.person` element.
- Engine.Story.Begin: the begin button is taken to be part of the landing markup that the click itself empties, so only the first click acts. The page markup is not part of this model.
- Engine.Story.LeadInElapses: a negative intro index makes the source throw on an undefined segment after the timer is cleared. The model clears the timer and stops there.
- Engine.Story.constructor: requires a non-empty dialogue. The content array is a fixed four-entry constant, and with an empty one the `d` clamp yields -1 and the script throws.
- Console logging, the narrative text and style classes of the segments, and the unused `increment` variable.
- The question interlude, the scroll interlude and restart. The script has no code for them.
- main-ar.js is an earlier, broken draft and is not part of this model.
