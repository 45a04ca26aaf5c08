/** The fade transition that `fadeOut` applies to one element's class list. */
module Animate {

  const AnimatedClass := "animate__animated"
  const FadeInClass := "animate__fadeIn"
  const FadeOutClass := "animate__fadeOut"
  const SlowClass := "animate__slow"

  /** A displayed element; only its class list is modelled. */
  class Element {
    var classes: set<string>

    constructor (classes: set<string>)
      ensures this.classes == classes
    {
      this.classes := classes;
    }
  }

  /** The class list after `fadeOut(element, t)`: the fade-in classes are
      always added; when `t` holds the fade-in is then swapped for a slow
      fade-out. No other class is touched. */
  function FadeOutClasses(c: set<string>, t: bool): (r: set<string>)
    ensures AnimatedClass in r
    ensures t ==> FadeOutClass in r && SlowClass in r && FadeInClass !in r
    ensures !t ==> FadeInClass in r && c <= r && r - c <= {AnimatedClass, FadeInClass}
    ensures forall x :: x != AnimatedClass && x != FadeInClass && x != FadeOutClass && x != SlowClass ==> (x in r <==> x in c)
  {
    var started := c + {AnimatedClass, FadeInClass};
    if t then started - {FadeInClass} + {FadeOutClass, SlowClass} else started
  }

  /** Applying the transition twice leaves the same class list as applying it once. */
  lemma FadeOutIdempotent(c: set<string>, t: bool)
    ensures FadeOutClasses(FadeOutClasses(c, t), t) == FadeOutClasses(c, t)
  {
  }
}
