/**
 The shape of ticket strings: the pattern `^[A-Z]{2,3}-[0-9]{10,}-[a-zA-Z0-9]{N}$`
 that every presented ticket must match, and the generator that builds
 `PREFIX-<epoch seconds>-<random tail>`. The random tail and the clock are inputs.
 */
module TicketString {

  /** Length of the random tail (the CAS_TICKET_RAND_LEN setting, default 32). */
  const TicketRandLen: nat := 32

  /** Smallest epoch value whose decimal rendering has ten digits. */
  const TenDigitEpoch: nat := 1_000_000_000

  /** Prefix of a proxy-granting ticket IOU; six letters long. */
  const IouPrefix: string := "PGTIOU"

  predicate IsUpper(c: char) { 'A' <= c <= 'Z' }

  predicate IsDigit(c: char) { '0' <= c <= '9' }

  predicate IsAlnum(c: char) { IsUpper(c) || 'a' <= c <= 'z' || IsDigit(c) }

  predicate AllUpper(s: string) { forall i :: 0 <= i < |s| ==> IsUpper(s[i]) }

  predicate AllDigits(s: string) { forall i :: 0 <= i < |s| ==> IsDigit(s[i]) }

  predicate AllAlnum(s: string) { forall i :: 0 <= i < |s| ==> IsAlnum(s[i]) }

  /** `[A-Z]{2,3}` */
  predicate IsPrefix(p: string) { 2 <= |p| <= 3 && AllUpper(p) }

  /** `[0-9]{10,}` */
  predicate IsEpoch(d: string) { |d| >= 10 && AllDigits(d) }

  /** `[a-zA-Z0-9]{n}` */
  predicate IsRandom(r: string, n: nat) { |r| == n && AllAlnum(r) }

  /** The three fields joined by dashes. */
  function Join(p: string, d: string, r: string): string
  {
    p + "-" + d + "-" + r
  }

  /** The three fields of a joined string sit where the separators put them. */
  lemma JoinFields(p: string, d: string, r: string)
    ensures var s := Join(p, d, r);
            && |s| == |p| + |d| + |r| + 2
            && s[..|p|] == p && s[|p|] == '-'
            && s[|s| - |r|..] == r && s[|s| - |r| - 1] == '-'
            && s[|p| + 1..|s| - |r| - 1] == d
  {
    var s := Join(p, d, r);
    assert s[|p| + 1..|s| - |r| - 1] == d by {
      forall i | 0 <= i < |d| ensures s[|p| + 1 + i] == d[i] { }
    }
  }

  /** `[A-Z]{2,3}-[0-9]{10,}`, the part before the last dash. */
  predicate HeadMatches(h: string)
  {
    || (|h| > 2 && h[2] == '-' && IsPrefix(h[..2]) && IsEpoch(h[3..]))
    || (|h| > 3 && h[3] == '-' && IsPrefix(h[..3]) && IsEpoch(h[4..]))
  }

  /**
   A full, anchored match of the ticket pattern with an `n`-character tail.
   The tail admits no dash, so it is exactly the last `n` characters.
   */
  predicate Matches(s: string, n: nat)
  {
    && |s| > n
    && s[|s| - n - 1] == '-'
    && IsRandom(s[|s| - n..], n)
    && HeadMatches(s[..|s| - n - 1])
  }

  /** The relational model's TICKET_RE. */
  predicate TicketRe(s: string)
  {
    Matches(s, TicketRandLen)
  }

  /**
   TICKET_RE.match as the code calls it: Python's `$` also matches just
   before a single trailing newline, so one extra '\n' is accepted.
   */
  predicate MatchesAsWritten(s: string, n: nat)
  {
    || Matches(s, n)
    || (|s| > 0 && s[|s| - 1] == '\n' && Matches(s[..|s| - 1], n))
  }

  /**
   The tail length is part of the grammar: no string matches the pattern at
   two different tail lengths, because the dash that ends the head of the
   shorter-tailed reading lies inside the alphanumeric tail of the other.
   */
  lemma TailLengthsDisjoint(s: string, n: nat, m: nat)
    requires n != m
    ensures !(Matches(s, n) && Matches(s, m))
  {
  }

  /** Every well-formed set of fields joins into a matching string. */
  lemma JoinMatches(p: string, d: string, r: string, n: nat)
    requires IsPrefix(p) && IsEpoch(d) && IsRandom(r, n)
    ensures Matches(Join(p, d, r), n)
  {
    var s := Join(p, d, r);
    var h := p + "-" + d;
    assert s == h + "-" + r;
    assert s[|s| - n..] == r;
    assert s[..|s| - n - 1] == h;
    if |p| == 2 {
      assert h[..2] == p && h[3..] == d;
    } else {
      assert h[..3] == p && h[4..] == d;
    }
  }

  /** Every matching string splits into well-formed fields. */
  lemma MatchSplits(s: string, n: nat) returns (p: string, d: string, r: string)
    requires Matches(s, n)
    ensures s == Join(p, d, r) && IsPrefix(p) && IsEpoch(d) && IsRandom(r, n)
  {
    r := s[|s| - n..];
    var h := s[..|s| - n - 1];
    var k := if |h| > 2 && h[2] == '-' && IsPrefix(h[..2]) && IsEpoch(h[3..]) then 2 else 3;
    p := h[..k];
    d := h[k + 1..];
    assert h == p + "-" + d;
    assert s == h + "-" + r;
  }

  /** The matcher recognises exactly the language of the ticket grammar. */
  lemma MatchesIffGrammar(s: string, n: nat)
    ensures Matches(s, n) <==>
      exists p, d, r :: s == Join(p, d, r) && IsPrefix(p) && IsEpoch(d) && IsRandom(r, n)
  {
    if Matches(s, n) {
      var p, d, r := MatchSplits(s, n);
    }
    if exists p, d, r :: s == Join(p, d, r) && IsPrefix(p) && IsEpoch(d) && IsRandom(r, n) {
      var p, d, r :| s == Join(p, d, r) && IsPrefix(p) && IsEpoch(d) && IsRandom(r, n);
      JoinMatches(p, d, r, n);
    }
  }

  /**
   When the middle field is all digits and the tail has the configured length,
   a match forces the prefix to be 2-3 capitals, the digits to number at least
   ten and the tail to be alphanumeric.
   */
  lemma JoinMatchesOnlyIf(p: string, d: string, r: string, n: nat)
    requires AllDigits(d) && |r| == n
    requires Matches(Join(p, d, r), n)
    ensures IsPrefix(p) && IsEpoch(d) && IsRandom(r, n)
  {
    var s := Join(p, d, r);
    var h := p + "-" + d;
    assert s == h + "-" + r;
    assert s[|s| - n..] == r;
    assert s[..|s| - n - 1] == h;
    assert h[|p|] == '-';
    if |h| > 2 && h[2] == '-' && IsPrefix(h[..2]) && IsEpoch(h[3..]) {
      assert |p| == 2;
      assert h[..2] == p && h[3..] == d;
    } else {
      assert |p| == 3;
      assert h[..3] == p && h[4..] == d;
    }
  }

  /** An IOU string never matches the ticket pattern, whatever the clock and tail. */
  lemma IouNeverMatches(now: nat, tail: string, n: nat)
    ensures !Matches(Join(IouPrefix, Decimal(now), tail), n)
  {
    var s := Join(IouPrefix, Decimal(now), tail);
    assert s[2] == 'T' && s[3] == 'I';
    if |s| > n {
      var h := s[..|s| - n - 1];
      assert |h| > 2 ==> h[2] == 'T';
      assert |h| > 3 ==> h[3] == 'I';
    }
  }

  /** A valid ticket string followed by a newline passes the code's check but is not a ticket string. */
  lemma TrailingNewlineSlipsThrough(s: string, n: nat)
    requires Matches(s, n)
    ensures MatchesAsWritten(s + "\n", n)
    ensures !Matches(s + "\n", n)
  {
    var t := s + "\n";
    assert t[..|t| - 1] == s;
    if |t| > n && n > 0 {
      assert t[|t| - n..][n - 1] == '\n';
    }
  }

  // Decimal rendering of the epoch seconds (`%d`).

  function DigitChar(d: nat): char
    requires d < 10
  {
    ('0' as int + d) as char
  }

  function DigitValue(c: char): nat
    requires IsDigit(c)
  {
    c as int - '0' as int
  }

  /** `"%d" % n` for a non-negative n: no sign and no leading zeros. */
  function Decimal(n: nat): (s: string)
    ensures |s| >= 1 && AllDigits(s)
    ensures |s| > 1 ==> s[0] != '0'
    decreases n
  {
    if n < 10 then [DigitChar(n)] else Decimal(n / 10) + [DigitChar(n % 10)]
  }

  /** The number a string of digits denotes. */
  function DecimalValue(s: string): nat
    requires AllDigits(s)
    decreases |s|
  {
    if |s| == 0 then 0 else DecimalValue(s[..|s| - 1]) * 10 + DigitValue(s[|s| - 1])
  }

  function Pow10(k: nat): (r: nat)
    ensures r >= 1
  {
    if k == 0 then 1 else 10 * Pow10(k - 1)
  }

  /** Reading the rendered digits back gives the number. */
  lemma {:induction false} DecimalRoundTrip(n: nat)
    ensures DecimalValue(Decimal(n)) == n
    decreases n
  {
    if n >= 10 {
      DecimalRoundTrip(n / 10);
      var s := Decimal(n);
      assert s[..|s| - 1] == Decimal(n / 10);
    }
  }

  /** The rendering has more than k digits exactly when n >= 10^k. */
  lemma {:induction false} DecimalLength(n: nat, k: nat)
    requires k >= 1
    ensures |Decimal(n)| > k <==> n >= Pow10(k)
    decreases n
  {
    if n < 10 {
      assert Pow10(k) == 10 * Pow10(k - 1);
    } else if k == 1 {
      assert Pow10(1) == 10;
    } else {
      DecimalLength(n / 10, k - 1);
      assert Pow10(k) == 10 * Pow10(k - 1);
    }
  }

  /** The epoch field has at least ten digits exactly from 10^9 seconds on. */
  lemma TenDigitsFrom(n: nat)
    ensures |Decimal(n)| >= 10 <==> n >= TenDigitEpoch
  {
    DecimalLength(n, 9);
    assert Pow10(9) == TenDigitEpoch by {
      assert Pow10(3) == 1000;
      assert Pow10(6) == 1000 * Pow10(3);
    }
  }

  /**
   The generated string `prefix-<now>-<tail>` with a tail of the configured
   length matches the pattern exactly when the prefix is 2-3 capitals, the
   clock has reached 10^9 seconds and the tail is alphanumeric.
   */
  lemma GeneratedMatchesIff(prefix: string, now: nat, tail: string)
    requires |tail| == TicketRandLen
    ensures TicketRe(Join(prefix, Decimal(now), tail)) <==>
      IsPrefix(prefix) && now >= TenDigitEpoch && AllAlnum(tail)
  {
    TenDigitsFrom(now);
    if TicketRe(Join(prefix, Decimal(now), tail)) {
      JoinMatchesOnlyIf(prefix, Decimal(now), tail, TicketRandLen);
    }
    if IsPrefix(prefix) && now >= TenDigitEpoch && AllAlnum(tail) {
      JoinMatches(prefix, Decimal(now), tail, TicketRandLen);
    }
  }
}
