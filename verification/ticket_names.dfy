/** Ticket identity by name: ticket number `n` is registered under `NAME ++ decimal(n)`,
    and a claim compares the registered name, with its NUL padding removed, against
    the name of the winning number. */
module TicketNames {
  import opened Decimal

  /** The fixed prefix of every ticket name. */
  const NAME: string := "Token Lottery Ticket #"

  const NUL: char := 0 as char

  predicate NulFree(s: string) {
    forall i :: 0 <= i < |s| ==> s[i] != NUL
  }

  /** The metadata name given to ticket `n` when it is bought. */
  function TicketName(n: nat): (name: string)
    ensures |name| > |NAME| && name[..|NAME|] == NAME
    ensures NulFree(name)
  {
    NAME + Digits(n)
  }

  /** `s.replace("\u{0}", "")`: every NUL character removed, the rest kept in order. */
  function StripNul(s: string): (r: string)
    ensures NulFree(r)
    ensures |r| <= |s|
    ensures multiset(r) == multiset(s)[NUL := 0]
  {
    if |s| == 0 then []
    else
      assert s == [s[0]] + s[1..];
      if s[0] == NUL then StripNul(s[1..])
      else [s[0]] + StripNul(s[1..])
  }

  /** `n` NUL characters, the padding the metadata registry may leave after a name. */
  function Padding(n: nat): (p: string)
    ensures |p| == n
    ensures forall i :: 0 <= i < n ==> p[i] == NUL
  {
    seq(n, _ => NUL)
  }

  /** A string without NUL characters is left as it is. */
  lemma {:induction false} StripNulFree(s: string)
    requires NulFree(s)
    ensures StripNul(s) == s
    decreases |s|
  {
    if |s| > 0 {
      StripNulFree(s[1..]);
    }
  }

  /** Stripping distributes over concatenation. */
  lemma {:induction false} StripNulAppend(a: string, b: string)
    ensures StripNul(a + b) == StripNul(a) + StripNul(b)
    decreases |a|
  {
    if |a| > 0 {
      assert (a + b)[1..] == a[1..] + b;
      StripNulAppend(a[1..], b);
    } else {
      assert a + b == b;
    }
  }

  /** Stripping twice is stripping once. */
  lemma StripNulIdempotent(s: string)
    ensures StripNul(StripNul(s)) == StripNul(s)
  {
    StripNulFree(StripNul(s));
  }

  /** Padding vanishes: a padded ticket name strips back to the ticket name. */
  lemma StripPaddedName(n: nat, pad: nat)
    ensures StripNul(TicketName(n) + Padding(pad)) == TicketName(n)
  {
    StripNulAppend(TicketName(n), Padding(pad));
    StripNulFree(TicketName(n));
    StripNulOfPadding(pad);
  }

  lemma {:induction false} StripNulOfPadding(pad: nat)
    ensures StripNul(Padding(pad)) == []
    decreases pad
  {
    if pad > 0 {
      assert Padding(pad)[1..] == Padding(pad - 1);
      StripNulOfPadding(pad - 1);
    }
  }

  /** Ticket names identify ticket numbers: two names agree exactly when the numbers do. */
  lemma TicketNameInjective(a: nat, b: nat)
    ensures TicketName(a) == TicketName(b) <==> a == b
  {
    if TicketName(a) == TicketName(b) {
      assert Digits(a) == TicketName(a)[|NAME|..];
      assert Digits(b) == TicketName(b)[|NAME|..];
      DigitsInjective(a, b);
    }
  }

  /** The name test `claim_prize` applies to the registered metadata name. */
  predicate NameMatches(metadataName: string, winner: nat) {
    StripNul(metadataName) == TicketName(winner)
  }

  /** The registered, possibly padded, name of ticket `n` passes the claim's name test
      for winner `w` exactly when `n == w`. */
  lemma PaddedNameMatches(n: nat, pad: nat, w: nat)
    ensures NameMatches(TicketName(n) + Padding(pad), w) <==> n == w
  {
    StripPaddedName(n, pad);
    TicketNameInjective(n, w);
  }
}
