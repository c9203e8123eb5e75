/** Lamport stamps: the total order that decides field conflicts, and the clocks that issue them. */
module Lamport {
  import opened Common
  import opened Bytes
  import opened Proto

  datatype Stamp = Stamp(counter: nat, actor: Wallet)

  /** The derived order: by counter, then by actor. */
  predicate Before(a: Stamp, b: Stamp)
  {
    a.counter < b.counter || (a.counter == b.counter && Less(a.actor.bytes, b.actor.bytes))
  }

  lemma BeforeTotal(a: Stamp, b: Stamp)
    ensures a == b || Before(a, b) || Before(b, a)
    ensures !(Before(a, b) && Before(b, a)) && !Before(a, a)
    ensures a.counter < b.counter ==> Before(a, b)
    ensures a.counter == b.counter && Less(a.actor.bytes, b.actor.bytes) ==> Before(a, b)
  {
    LessTotal(a.actor.bytes, b.actor.bytes);
    LessIrreflexive(a.actor.bytes);
    if Less(a.actor.bytes, b.actor.bytes) && Less(b.actor.bytes, a.actor.bytes) {
      LessTransitive(a.actor.bytes, b.actor.bytes, a.actor.bytes);
    }
  }

  lemma BeforeTransitive(a: Stamp, b: Stamp, c: Stamp)
    requires Before(a, b) && Before(b, c)
    ensures Before(a, c)
  {
    if a.counter == b.counter == c.counter { LessTransitive(a.actor.bytes, b.actor.bytes, c.actor.bytes); }
  }

  /** The counter after a tick; a release build wraps at the top of `u64`. */
  function Ticked(counter: nat): nat
  {
    (counter + 1) % (U64_MAX + 1)
  }

  function Observed(counter: nat, stamp: Stamp): nat
  {
    if stamp.counter > counter then stamp.counter else counter
  }

  /** A tick moves past everything observed, exactly when no observed counter is the largest one. */
  lemma TickExceedsObserved(counter: nat, stamp: Stamp, actor: Wallet)
    requires counter <= U64_MAX && stamp.counter <= U64_MAX
    ensures var next := Ticked(Observed(counter, stamp));
            (next > counter && Before(stamp, Stamp(next, actor))) <==> (counter < U64_MAX && stamp.counter < U64_MAX)
  {
    if counter < U64_MAX && stamp.counter < U64_MAX {
      assert Ticked(Observed(counter, stamp)) == Observed(counter, stamp) + 1;
    }
  }

  class LamportClock {
    var counter: nat
    const actor: Wallet

    constructor (a: Wallet)
      ensures counter == 0 && actor == a
    {
      counter, actor := 0, a;
    }

    method Tick() returns (stamp: Stamp)
      modifies this
      ensures counter == Ticked(old(counter)) && stamp == Stamp(counter, actor)
      ensures old(counter) < U64_MAX ==> stamp.counter == old(counter) + 1
    {
      counter := (counter + 1) % (U64_MAX + 1);
      stamp := Stamp(counter, actor);
    }

    method Observe(other: Stamp)
      modifies this
      ensures counter == Observed(old(counter), other)
      ensures counter >= old(counter) && counter >= other.counter
    {
      if other.counter > counter {
        counter := other.counter;
      }
    }
  }
}
