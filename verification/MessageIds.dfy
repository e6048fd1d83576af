/** The printed form of message IDs. */
module MessageIds {
  import opened Queue
  import opened Text

  function Printed(id: MessageId): string {
    DecNat(id.millis) + ['-'] + DecNat(id.serial)
  }

  /** Pending entries, acknowledgements and claim counts are keyed by the printed ID. */
  lemma PrintedIdsDiffer(a: MessageId, b: MessageId)
    requires Printed(a) == Printed(b)
    ensures a == b
  {
    DecNatRoundTrip(a.millis);
    DecNatRoundTrip(b.millis);
    assert !IsDigit('-');
    PrefixUpTo(DecNat(a.millis), DecNat(a.serial), DecNat(b.millis), DecNat(b.serial), '-');
    DecNatInjective(a.millis, b.millis);
    DecNatInjective(a.serial, b.serial);
  }
}
