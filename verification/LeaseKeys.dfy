/** The string under which a lease is cached, `id:position`, and its inverse. */
module LeaseKeys {
  import opened Wrappers

  function Digit(d: nat): char
    requires d < 10
  {
    "0123456789"[d]
  }

  function PrintNat(n: nat): string {
    if n < 10 then [Digit(n)] else PrintNat(n / 10) + [Digit(n % 10)]
  }

  /** Decimal text of a signed position. */
  function Print(n: int): string {
    if n < 0 then "-" + PrintNat(-n) else PrintNat(n)
  }

  function LeaseKey(id: string, position: int): string {
    id + ":" + Print(position)
  }

  function DigitValue(c: char): nat {
    if '0' <= c <= '9' then c as int - '0' as int else 0
  }

  function ParseNat(s: string): nat {
    if s == "" then 0 else 10 * ParseNat(s[..|s| - 1]) + DigitValue(s[|s| - 1])
  }

  function Parse(s: string): int {
    if s != "" && s[0] == '-' then 0 - ParseNat(s[1..]) else ParseNat(s)
  }

  /** Splits at the last colon, so colons inside the id do no harm. */
  function SplitKey(s: string): Option<(string, string)> {
    if s == "" then None
    else if s[|s| - 1] == ':' then Some((s[..|s| - 1], ""))
    else match SplitKey(s[..|s| - 1])
      case None => None
      case Some(parts) => Some((parts.0, parts.1 + [s[|s| - 1]]))
  }

  lemma DigitRoundTrip(s: string, d: nat)
    requires d < 10
    ensures ParseNat(s + [Digit(d)]) == 10 * ParseNat(s) + d
    ensures Digit(d) != '-' && Digit(d) != ':'
  {
    var t := s + [Digit(d)];
    assert t[..|t| - 1] == s && t[|t| - 1] == Digit(d);
    DigitHasItsValue(d);
  }

  lemma DigitHasItsValue(d: nat)
    requires d < 10
    ensures DigitValue(Digit(d)) == d
    ensures Digit(d) != '-' && Digit(d) != ':'
  {
    assert Digit(d) == ('0' as int + d) as char;
  }

  lemma {:induction false} PrintNatRoundTrip(n: nat)
    ensures ParseNat(PrintNat(n)) == n
    ensures PrintNat(n) != "" && PrintNat(n)[0] != '-' && ':' !in PrintNat(n)
  {
    if n < 10 {
      DigitRoundTrip("", n);
      assert "" + [Digit(n)] == PrintNat(n);
    } else {
      PrintNatRoundTrip(n / 10);
      DigitRoundTrip(PrintNat(n / 10), n % 10);
    }
  }

  lemma PrintRoundTrip(n: int)
    ensures Parse(Print(n)) == n && ':' !in Print(n)
  {
    PrintNatRoundTrip(if n < 0 then -n else n);
    if n < 0 {
      assert Print(n)[1..] == PrintNat(-n);
    }
  }

  lemma {:induction false} SplitAtLastColon(id: string, tail: string)
    requires ':' !in tail
    ensures SplitKey(id + ":" + tail) == Some((id, tail))
  {
    var s := id + ":" + tail;
    if tail == "" {
      assert s[..|s| - 1] == id;
    } else {
      var rest := tail[..|tail| - 1];
      assert s[..|s| - 1] == id + ":" + rest;
      SplitAtLastColon(id, rest);
      assert rest + [s[|s| - 1]] == tail;
    }
  }

  /** Splitting at the last colon recovers every id, colons included, and every position. */
  lemma LeaseKeyRoundTrip(id: string, position: int)
    ensures var parts := SplitKey(LeaseKey(id, position));
            parts.Some? && parts.value.0 == id && Parse(parts.value.1) == position
  {
    PrintRoundTrip(position);
    SplitAtLastColon(id, Print(position));
  }

  /** No two (workflow, position) pairs share a cache slot. */
  lemma LeaseKeyDeterminesPlace(id: string, p: int, id': string, p': int)
    requires LeaseKey(id, p) == LeaseKey(id', p')
    ensures id == id' && p == p'
  {
    LeaseKeyRoundTrip(id, p);
    LeaseKeyRoundTrip(id', p');
  }
}
