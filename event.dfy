/**
 * The one-shot event box of data/Event.kt: a payload that is handed out by the
 * first `consumeContent()` and never again.
 */
module Events {
  import opened Wrappers

  /** What one `consumeContent()` returns, given the `hasBeenHandled` it finds. */
  function Step<T>(handled: bool, content: T): (r: Option<T>)
    ensures r.Some? <==> !handled
    ensures r.Some? ==> r.value == content
  {
    if handled then None else Some(content)
  }

  /** The results of `n` consecutive `consumeContent()` calls on a box whose flag is `handled`. */
  function Consumes<T>(handled: bool, content: T, n: nat): (rs: seq<Option<T>>)
    ensures |rs| == n
    decreases n
  {
    if n == 0 then [] else [Step(handled, content)] + Consumes(true, content, n - 1)
  }

  /** How many of the results carry the payload. */
  function Deliveries<T>(rs: seq<Option<T>>): nat {
    if rs == [] then 0 else (if rs[0].Some? then 1 else 0) + Deliveries(rs[1..])
  }

  /** Once handled, every further consume returns null. */
  lemma {:induction false} HandledStaysEmpty<T>(content: T, n: nat)
    ensures forall i :: 0 <= i < n ==> Consumes(true, content, n)[i] == None
    ensures Deliveries(Consumes(true, content, n)) == 0
  {
    if n > 0 {
      HandledStaysEmpty(content, n - 1);
      var rs := Consumes(true, content, n);
      assert rs[1..] == Consumes(true, content, n - 1);
      forall i | 0 <= i < n ensures rs[i] == None {
        if i > 0 { assert rs[i] == Consumes(true, content, n - 1)[i - 1]; }
      }
    }
  }

  /** Across any n >= 1 consumes of a fresh box, exactly the first returns the payload. */
  lemma {:induction false} ExactlyOnce<T>(content: T, n: nat)
    requires n >= 1
    ensures Consumes(false, content, n)[0] == Some(content)
    ensures forall i :: 1 <= i < n ==> Consumes(false, content, n)[i] == None
    ensures Deliveries(Consumes(false, content, n)) == 1
  {
    var rs := Consumes(false, content, n);
    HandledStaysEmpty(content, n - 1);
    assert rs[1..] == Consumes(true, content, n - 1);
    forall i | 1 <= i < n ensures rs[i] == None {
      assert rs[i] == Consumes(true, content, n - 1)[i - 1];
    }
  }

  /** `open class Event<out T>(val content: T)`; `deliveries` counts the consumes that returned `content`. */
  class Event<T> {
    const content: T
    var hasBeenHandled: bool
    ghost var deliveries: nat

    /** Delivered at most once, and the flag records whether it was. */
    ghost predicate Valid()
      reads this
    {
      deliveries <= 1 && (hasBeenHandled <==> deliveries == 1)
    }

    constructor (content: T)
      ensures Valid()
      ensures this.content == content && !hasBeenHandled && deliveries == 0
    {
      this.content := content;
      hasBeenHandled := false;
      deliveries := 0;
    }

    method ConsumeContent() returns (r: Option<T>)
      requires Valid()
      modifies this
      ensures Valid()
      ensures r == Step(old(hasBeenHandled), content)
      ensures hasBeenHandled
      ensures deliveries == old(deliveries) + (if r.Some? then 1 else 0)
    {
      if hasBeenHandled {
        r := None;
      } else {
        hasBeenHandled := true;
        deliveries := deliveries + 1;
        r := Some(content);
      }
    }
  }

  /** A client: two consumes of a new box give the payload, then null, whatever the payload. */
  method ConsumeTwice<T>(payload: T) returns (first: Option<T>, second: Option<T>)
    ensures first == Some(payload) && second == None
    ensures [first, second] == Consumes(false, payload, 2)
  {
    var e := new Event(payload);
    first := e.ConsumeContent();
    second := e.ConsumeContent();
    assert e.content == payload && e.deliveries == 1;
  }
}
