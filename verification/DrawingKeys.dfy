/**
 * Drawing ids: "matchId:memberId:round" printed by the server and split and
 * parsed again when final scores are read back out of the totals record.
 */
module DrawingKeys {
  import opened Collections

  datatype DrawingKey = DrawingKey(matchId: nat, memberId: nat, round: nat)

  function Digit(d: nat): char
    requires d < 10
  {
    '0' + d as char
  }

  predicate IsDigit(c: char) {
    '0' <= c <= '9'
  }

  function Decimal(n: nat): (s: string)
    ensures s != "" && forall c | c in s :: IsDigit(c)
  {
    if n < 10 then [Digit(n)] else Decimal(n / 10) + [Digit(n % 10)]
  }

  function DigitsValue(s: string): nat
    requires forall c | c in s :: IsDigit(c)
  {
    if s == "" then 0
    else
      var last := s[|s| - 1];
      assert IsDigit(last);
      10 * DigitsValue(s[..|s| - 1]) + (last as int - '0' as int)
  }

  /** `Number(text)` on digit strings; the empty text reads as 0; None stands for NaN. */
  function Number(s: string): Option<nat> {
    if forall c | c in s :: IsDigit(c) then Some(DigitsValue(s)) else None
  }

  /** `text.split(':')` */
  function Split(s: string): (parts: seq<string>)
    ensures |parts| > 0
  {
    if s == "" then [""]
    else
      var rest := Split(s[1..]);
      if s[0] == ':' then [""] + rest else [[s[0]] + rest[0]] + rest[1..]
  }

  function DrawingId(k: DrawingKey): string {
    Decimal(k.matchId) + ":" + Decimal(k.memberId) + ":" + Decimal(k.round)
  }

  /** Reading an id the way the final scores do: three parts, each a number. */
  function ParseDrawingId(id: string): Option<DrawingKey> {
    var parts := Split(id);
    if |parts| != 3 then None
    else
      var (m, rm, r) := (Number(parts[0]), Number(parts[1]), Number(parts[2]));
      if m.Some? && rm.Some? && r.Some? then Some(DrawingKey(m.value, rm.value, r.value)) else None
  }

  /** The text is exactly what the server prints for the key it parses to. */
  predicate Prints(id: string, k: DrawingKey) {
    ParseDrawingId(id) == Some(k) && id == DrawingId(k)
  }

  lemma {:induction false} DecimalParses(n: nat)
    ensures Number(Decimal(n)) == Some(n)
    decreases n
  {
    if n >= 10 {
      DecimalParses(n / 10);
      var s := Decimal(n);
      assert s[..|s| - 1] == Decimal(n / 10);
    } else {
      assert Decimal(n) == [Digit(n)] && [Digit(n)][..0] == "";
      assert DigitsValue("") == 0;
    }
  }

  lemma {:induction false} SplitPlain(a: string)
    requires ':' !in a
    ensures Split(a) == [a]
    decreases |a|
  {
    if a != "" {
      SplitPlain(a[1..]);
      assert [a[0]] + a[1..] == a;
    }
  }

  lemma {:induction false} SplitFirst(a: string, b: string)
    requires ':' !in a
    ensures Split(a + ":" + b) == [a] + Split(b)
    decreases |a|
  {
    var s := a + ":" + b;
    if a == "" {
      assert s[1..] == b;
    } else {
      SplitFirst(a[1..], b);
      assert s[1..] == a[1..] + ":" + b;
      assert [a[0]] + a[1..] == a;
    }
  }

  /** Every id the server prints reads back as the same three numbers. */
  lemma IdRoundTrip(k: DrawingKey)
    ensures ParseDrawingId(DrawingId(k)) == Some(k)
  {
    var (a, b, c) := (Decimal(k.matchId), Decimal(k.memberId), Decimal(k.round));
    assert DrawingId(k) == a + ":" + (b + ":" + c);
    SplitFirst(a, b + ":" + c);
    SplitFirst(b, c);
    SplitPlain(c);
    assert Split(DrawingId(k)) == [a, b, c];
    DecimalParses(k.matchId);
    DecimalParses(k.memberId);
    DecimalParses(k.round);
  }

  lemma IdsDiffer()
    ensures forall k, l: DrawingKey | DrawingId(k) == DrawingId(l) :: k == l
    ensures forall k :: ParseDrawingId(DrawingId(k)) == Some(k)
  {
    forall k ensures ParseDrawingId(DrawingId(k)) == Some(k) {
      IdRoundTrip(k);
    }
  }
}
