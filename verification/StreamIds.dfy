/**
 Redis stream ids as text, "<ms>-<seq>" or "<ms>": what is accepted from a client, and how two of them compare.
 Ids are read into 64-bit numbers, and a number too large for that is read as the largest one. Redis itself has ids
 whose two numbers go up to 2^64 - 1, so the comparison can differ from its order, but only where two different numbers
 are read alike; ids that Redis makes from its clock are far below that.
 The comparison is nevertheless always an order, that of one number for each id.
 */
module StreamIds {
  import opened Decimal

  const MAX_ID_LENGTH: nat := 40
  const MAX_INT64: nat := 0x7FFF_FFFF_FFFF_FFFF

  /** strings.Cut at the first dash. */
  function Dash(id: string): (n: nat)
    ensures n <= |id|
    ensures n < |id| ==> id[n] == '-'
    ensures forall i :: 0 <= i < n ==> id[i] != '-'
  {
    if id == "" || id[0] == '-' then 0 else 1 + Dash(id[1..])
  }

  predicate IsValidStreamID(id: string) {
    var n := Dash(id);
    && id != "" && |id| <= MAX_ID_LENGTH
    && AllDigits(id[..n])
    && (n < |id| ==> AllDigits(id[n + 1..]))
  }

  /** strconv.ParseInt with its error ignored: out of range it saturates, and it reads anything malformed as 0. */
  function ParseInt(s: string): (v: nat)
    ensures v <= MAX_INT64
  {
    if !AllDigits(s) then 0 else if Read(s) > MAX_INT64 then MAX_INT64 else Read(s)
  }

  function SplitStreamID(id: string): (nat, nat) {
    var n := Dash(id);
    (ParseInt(id[..n]), if n < |id| then ParseInt(id[n + 1..]) else 0)
  }

  function CompareStreamIDs(a: string, b: string): int {
    var (aMs, aSeq) := SplitStreamID(a);
    var (bMs, bSeq) := SplitStreamID(b);
    if aMs < bMs then -1
    else if aMs > bMs then 1
    else if aSeq < bSeq then -1
    else if aSeq > bSeq then 1
    else 0
  }

  // What ids mean to Redis.

  /** The two numbers of a valid id, as large as they are written. A missing sequence number is 0. */
  function Parts(id: string): (nat, nat)
    requires IsValidStreamID(id)
  {
    var n := Dash(id);
    (Read(id[..n]), if n < |id| then Read(id[n + 1..]) else 0)
  }

  function Sign(a: int, b: int): int {
    if a < b then -1 else if a > b then 1 else 0
  }

  function Order(a: (nat, nat), b: (nat, nat)): int {
    if a.0 != b.0 then Sign(a.0, b.0) else Sign(a.1, b.1)
  }

  function Clamp(x: nat): nat {
    if x > MAX_INT64 then MAX_INT64 else x
  }

  /** The accepted ids are exactly the one or two runs of digits, joined by a dash, of at most 40 characters. */
  lemma ValidIff(id: string)
    ensures IsValidStreamID(id) <==>
            && |id| <= MAX_ID_LENGTH
            && (AllDigits(id) || exists i :: 0 <= i < |id| && id[i] == '-' && AllDigits(id[..i]) && AllDigits(id[i + 1..]))
  {
    var n := Dash(id);
    if n == |id| {
      assert id[..n] == id;
    }
    if AllDigits(id) {
      assert n < |id| ==> IsDigit(id[n]);
    }
    if i :| 0 <= i < |id| && id[i] == '-' && AllDigits(id[..i]) && AllDigits(id[i + 1..]) {
      assert forall k :: 0 <= k < i ==> IsDigit(id[..i][k]);
      assert n == i;
    }
  }

  lemma SplitIsClamped(id: string)
    requires IsValidStreamID(id)
    ensures SplitStreamID(id) == (Clamp(Parts(id).0), Clamp(Parts(id).1))
  {
  }

  /** Two different numbers that int64 cannot tell apart. */
  predicate Collide(x: nat, y: nat) {
    x != y && x >= MAX_INT64 && y >= MAX_INT64
  }

  /**
   The comparison agrees with Redis exactly when saturation does not get in the way: the milliseconds do not collide,
   or the sequence numbers happen to compare the same way, and equal milliseconds come with sequence numbers that do
   not collide.
   */
  lemma CompareAgreesIff(a: string, b: string)
    requires IsValidStreamID(a) && IsValidStreamID(b)
    ensures var (p, q) := (Parts(a), Parts(b));
            CompareStreamIDs(a, b) == Order(p, q) <==>
              if Collide(p.0, q.0) then Sign(Clamp(p.1), Clamp(q.1)) == Sign(p.0, q.0)
              else p.0 == q.0 ==> !Collide(p.1, q.1)
  {
    SplitIsClamped(a);
    SplitIsClamped(b);
    hide IsValidStreamID, Parts, SplitStreamID;
  }

  /** One number for an id below 2^63, as the order of ids is used in the replay. */
  function Rank(id: string): nat
    requires IsValidStreamID(id)
  {
    Clamp(Parts(id).0) * (MAX_INT64 + 1) + Clamp(Parts(id).1)
  }

  /** The comparison is the order of these numbers, so it is a total order of ids and skipping is a comparison. */
  lemma CompareIsRank(a: string, b: string)
    requires IsValidStreamID(a) && IsValidStreamID(b)
    ensures CompareStreamIDs(a, b) == Sign(Rank(a), Rank(b))
  {
    SplitIsClamped(a);
    SplitIsClamped(b);
    hide IsValidStreamID, Parts, SplitStreamID;
    var (p, q) := (Parts(a), Parts(b));
    LexicographicRank(Clamp(p.0), Clamp(p.1), Clamp(q.0), Clamp(q.1));
  }

  lemma LexicographicRank(a: nat, b: nat, c: nat, d: nat)
    requires b <= MAX_INT64 && d <= MAX_INT64
    ensures Sign(a * (MAX_INT64 + 1) + b, c * (MAX_INT64 + 1) + d) == if a != c then Sign(a, c) else Sign(b, d)
  {
  }

  lemma DashAfter(s: string, rest: string)
    requires forall i :: 0 <= i < |s| ==> IsDigit(s[i])
    ensures Dash(s + "-" + rest) == |s|
  {
    var t := s + "-" + rest;
    assert forall i :: 0 <= i < |s| ==> t[i] == s[i];
    assert t[|s|] == '-';
  }

  lemma NineteenDigits(n: nat)
    requires n <= MAX_INT64
    ensures |Print(n)| <= 19
  {
    assert Pow10(5) == 100000;
    assert Pow10(10) == 100000 * Pow10(5);
    assert Pow10(15) == 100000 * Pow10(10);
    assert Pow10(19) == 10000 * Pow10(15);
    hide Print;
    PrintLength(n, 19);
  }

  /** An id that Redis prints is valid, reads back as its two numbers, and compares as they do, below 2^63. */
  lemma SplitPrint(ms: nat, sequence: nat)
    requires ms <= MAX_INT64 && sequence <= MAX_INT64
    ensures var id := Print(ms) + "-" + Print(sequence);
            IsValidStreamID(id) && SplitStreamID(id) == (ms, sequence) && Parts(id) == (ms, sequence)
  {
    var m, q := Print(ms), Print(sequence);
    var id := m + "-" + q;
    ReadPrint(ms);
    ReadPrint(sequence);
    DashAfter(m, q);
    NineteenDigits(ms);
    NineteenDigits(sequence);
    hide Print, Read;
    assert id[..|m|] == m && id[|m| + 1..] == q;
  }

  /** Read without being checked, a part that is no number counts as 0. */
  lemma MalformedIsZero(id: string)
    ensures !AllDigits(id[..Dash(id)]) ==> SplitStreamID(id).0 == 0
    ensures Dash(id) == |id| || !AllDigits(id[Dash(id) + 1..]) ==> SplitStreamID(id).1 == 0
  {
  }
}
