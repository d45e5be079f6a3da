/**
 * The playground's counter: one process-wide integer cell (`globalCounter`)
 * that `updateCounter(change)` moves by `change` and `resetCounter()` sets back to
 * zero. Each update paints the number green when it is positive and red otherwise,
 * and logs a message saying whether the counter increased or decreased, and by how
 * much. The element lookups and the painting itself are not modelled; the colour
 * chosen and the message text are returned instead.
 */
module Counter {
  import opened Wrappers
  import Decimal

  /** The three colours the counter element can be given. */
  datatype Color = Green | Red | Neutral

  /** The CSS colour each choice writes. */
  function Css(c: Color): (s: string)
    ensures |s| == 7 && s[0] == '#'
    ensures forall i :: 1 <= i < |s| ==> s[i] in "0123456789abcdef"
  {
    match c
    case Green => "#2ecc71"
    case Red => "#e74c3c"
    case Neutral => "#4a5568"
  }

  /** validatePositiveNumber: strictly positive; zero is not positive. */
  predicate IsPositive(n: int) {
    n > 0
  }

  /** The colour an update paints: it depends on the new value only through `IsPositive`. */
  function ValueColor(value: int): Color {
    if IsPositive(value) then Green else Red
  }

  /** Math.abs on an integer. */
  function Abs(x: int): (r: nat)
    ensures r == x || r == -x
  {
    if x < 0 then -x else x
  }

  /** The two verbs a change message can use, and their common frame. */
  const Up := "increased"
  const Down := "decreased"
  const Lead := "Counter "
  const By := " by "
  const Increased := Lead + Up + By
  const Decreased := Lead + Down + By

  /** The message `updateCounter` logs for `change`. */
  function ChangeMessage(change: int): (m: string)
    ensures |m| > |Increased|
  {
    (if change > 0 then Increased else Decreased) + Decimal.NatToString(Abs(change))
  }

  /** What a change message says: the direction word and the amount. */
  datatype Reading = Reading(increased: bool, amount: nat)

  /** Reads a change message back; `None` for any other text. */
  function ReadMessage(m: string): Option<Reading> {
    if |m| <= |Increased| then None
    else
      var head, tail := m[..|Increased|], m[|Increased|..];
      if head != Increased && head != Decreased then None
      else
        match Decimal.ReadNat(tail)
        case None => None
        case Some(n) => Some(Reading(head == Increased, n))
  }

  /**
   * A change message says "increased" exactly when the change is positive (so a
   * change of zero reads "decreased by 0") and gives the magnitude of the change.
   */
  lemma MessageMeaning(change: int)
    ensures ReadMessage(ChangeMessage(change)) == Some(Reading(change > 0, Abs(change)))
  {
    var m := ChangeMessage(change);
    var digits := Decimal.NatToString(Abs(change));
    var head := if change > 0 then Increased else Decreased;
    assert |Decreased| == |Increased|;
    assert Increased != Decreased by {
      assert Increased[|Lead|] == 'i' && Decreased[|Lead|] == 'd';
    }
    assert m == head + digits;
    assert m[..|Increased|] == head;
    assert m[|Increased|..] == digits;
    Decimal.ReadNatToString(Abs(change));
  }

  /** Different changes always log different messages. */
  lemma ChangeMessageInjective(a: int, b: int)
    ensures ChangeMessage(a) == ChangeMessage(b) <==> a == b
  {
    MessageMeaning(a);
    MessageMeaning(b);
  }

  lemma ZeroChangeReadsDecreased()
    ensures ChangeMessage(0) == "Counter decreased by 0"
  {
  }

  /** The counter cell `globalCounter`. */
  class Cell {
    var value: int

    constructor ()
      ensures value == 0
    {
      value := 0;
    }

    /** updateCounter(change): the new value, its colour and the logged message. */
    method Update(change: int) returns (color: Color, message: string)
      modifies this
      ensures value == old(value) + change
      ensures color == ValueColor(value)
      ensures color == Green <==> value > 0
      ensures color == Red <==> value <= 0
      ensures message == ChangeMessage(change)
    {
      value := value + change;
      color := ValueColor(value);
      message := ChangeMessage(change);
    }

    /** resetCounter(): back to zero, painted in the neutral colour. */
    method Reset() returns (color: Color)
      modifies this
      ensures value == 0
      ensures color == Neutral
    {
      value := 0;
      color := Neutral;
    }
  }
}
