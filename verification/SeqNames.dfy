/** Decimal numbers in names: how a sequential znode gets its number, and how the number is read
    back. */
module SeqNames {
  import opened Wrappers

  const MAX_INT := 0x7FFF_FFFF_FFFF_FFFF
  const MIN_INT := -0x8000_0000_0000_0000

  /** 64-bit overflow. */
  function Wrap(n: int): (r: int)
    ensures MIN_INT <= r <= MAX_INT
    ensures MIN_INT <= n <= MAX_INT ==> r == n
  {
    (n - MIN_INT) % 0x1_0000_0000_0000_0000 + MIN_INT
  }

  predicate IsDigit(c: char) {
    '0' <= c <= '9'
  }

  function DigitChar(d: nat): (c: char)
    requires d < 10
    ensures IsDigit(c) && DigitValue(c) == d
  {
    '0' + d as char
  }

  function DigitValue(c: char): (d: nat)
    requires IsDigit(c)
    ensures d < 10
  {
    (c as int) - ('0' as int)
  }

  function Digits(n: nat): (s: string)
    ensures s != []
  {
    if n < 10 then [DigitChar(n)] else Digits(n / 10) + [DigitChar(n % 10)]
  }

  function Itoa(n: int): string {
    if n < 0 then "-" + Digits(-n) else Digits(n)
  }

  predicate AllDigits(s: string) {
    s == [] || (IsDigit(s[|s| - 1]) && AllDigits(s[..|s| - 1]))
  }

  function Value(s: string): nat
    requires AllDigits(s)
  {
    if s == [] then 0 else Value(s[..|s| - 1]) * 10 + DigitValue(s[|s| - 1])
  }

  /** Accepts an optional sign and decimal digits whose value fits 64 bits. */
  function Atoi(s: string): Option<int> {
    var signed := s != [] && (s[0] == '-' || s[0] == '+');
    var body := if signed then s[1..] else s;
    if body == [] || !AllDigits(body) then None
    else
      var v: int := Value(body);
      var n := if signed && s[0] == '-' then -v else v;
      if MIN_INT <= n <= MAX_INT then Some(n) else None
  }

  lemma {:induction false} DigitsRoundTrip(n: nat)
    ensures AllDigits(Digits(n)) && Value(Digits(n)) == n && IsDigit(Digits(n)[0])
  {
    var s := Digits(n);
    if n < 10 {
      assert s[..0] == [];
    } else {
      DigitsRoundTrip(n / 10);
      assert s[..|s| - 1] == Digits(n / 10);
    }
  }

  /** Numbers are printed without leading zeros. */
  lemma {:induction false} NoLeadingZero(n: nat)
    ensures n > 0 ==> Digits(n)[0] != '0'
    ensures Digits(n)[0] == '0' ==> Digits(n) == "0"
  {
    if n >= 10 { NoLeadingZero(n / 10); }
  }

  lemma {:induction false} DigitsUnique(s: string)
    requires s != [] && AllDigits(s) && (s[0] != '0' || s == "0")
    ensures Digits(Value(s)) == s && (s[0] != '0' ==> Value(s) > 0)
  {
    if |s| > 1 {
      var init := s[..|s| - 1];
      DigitsUnique(init);
      assert s == init + [s[|s| - 1]];
    } else {
      assert s == [s[0]] && s[..0] == [];
    }
  }

  /** A number without plus sign and leading zeros. */
  predicate Canonical(t: string) {
    var body := if t != [] && t[0] == '-' then t[1..] else t;
    t == "0" || (body != [] && AllDigits(body) && body[0] != '0')
  }

  lemma {:induction false} FirstIsDigit(s: string)
    requires AllDigits(s) && s != []
    ensures IsDigit(s[0])
  {
    if |s| > 1 { FirstIsDigit(s[..|s| - 1]); }
  }

  lemma ReadCanonical(t: string)
    requires Canonical(t) && Atoi(t).Some?
    ensures t == Itoa(Atoi(t).value)
  {
    var negative := t[0] == '-';
    var body := if negative then t[1..] else t;
    assert "0"[..0] == [] && AllDigits("0");
    FirstIsDigit(body);
    DigitsUnique(body);
    var v: int := Value(body);
    assert Atoi(t).value == if negative then -v else v;
    hide Atoi, Digits, AllDigits;
    if negative { assert t == "-" + body; }
  }

  /** A number is printed as the one canonical text that reads back as it. */
  lemma PrintedCanonically(n: int, t: string)
    requires MIN_INT <= n <= MAX_INT
    ensures Canonical(Itoa(n))
    ensures Canonical(t) && Atoi(t) == Some(n) ==> t == Itoa(n)
  {
    var digits := if n < 0 then -n else n;
    NoLeadingZero(digits);
    DigitsRoundTrip(digits);
    hide Atoi, Digits, AllDigits, Value;
    if n < 0 { assert Itoa(n)[1..] == Digits(-n); }
    if Canonical(t) && Atoi(t) == Some(n) { ReadCanonical(t); }
  }

  /** Reading back a printed number. */
  lemma AtoiItoa(n: int)
    requires MIN_INT <= n <= MAX_INT
    ensures Atoi(Itoa(n)) == Some(n)
  {
    DigitsRoundTrip(if n < 0 then -n else n);
    if n < 0 {
      assert Itoa(n)[1..] == Digits(-n);
    }
  }

  predicate Free(s: string, c: char) {
    s == [] || (s[|s| - 1] != c && Free(s[..|s| - 1], c))
  }

  /** The last occurrence, or -1 if there is none. */
  function LastIndex(s: string, c: char): (i: int)
    ensures -1 <= i < |s| && (i >= 0 ==> s[i] == c)
    ensures forall j :: i < j < |s| ==> s[j] != c
  {
    if s == [] then -1 else if s[|s| - 1] == c then |s| - 1 else LastIndex(s[..|s| - 1], c)
  }

  lemma {:induction false} LastIndexAfter(a: string, c: char, b: string)
    requires Free(b, c)
    ensures LastIndex(a + [c] + b, c) == |a|
  {
    hide *;
    var s := a + [c] + b;
    LastIndexStep(s, c);
    FreeStep(b, c);
    if b != [] {
      assert s[..|s| - 1] == a + [c] + b[..|b| - 1];
      LastIndexAfter(a, c, b[..|b| - 1]);
    }
  }

  lemma LastIndexStep(s: string, c: char)
    ensures s != [] ==> LastIndex(s, c) == if s[|s| - 1] == c then |s| - 1 else LastIndex(s[..|s| - 1], c)
  {
    hide Free;
  }

  lemma FreeStep(s: string, c: char)
    ensures s != [] ==> (Free(s, c) <==> s[|s| - 1] != c && Free(s[..|s| - 1], c))
  {
  }

  lemma {:induction false} DigitsFree(s: string, c: char)
    requires AllDigits(s) && !IsDigit(c)
    ensures Free(s, c)
  {
    if s != [] { DigitsFree(s[..|s| - 1], c); }
  }

  lemma {:induction false} FreeAppend(a: string, b: string, c: char)
    ensures Free(a + b, c) <==> Free(a, c) && Free(b, c)
  {
    if b == [] {
      assert a + b == a;
    } else {
      assert (a + b)[..|a + b| - 1] == a + b[..|b| - 1];
      FreeAppend(a, b[..|b| - 1], c);
    }
  }

  /** What Atoi accepts contains no underscore. */
  lemma AtoiFree(s: string)
    requires Atoi(s).Some?
    ensures Free(s, '_')
  {
    if s[0] == '-' || s[0] == '+' {
      DigitsFree(s[1..], '_');
      assert s == [s[0]] + s[1..];
      assert [s[0]][..0] == [];
      FreeAppend([s[0]], s[1..], '_');
    } else {
      DigitsFree(s, '_');
    }
  }

  lemma ItoaFree(n: int)
    ensures Free(Itoa(n), '_')
  {
    DigitsRoundTrip(if n < 0 then -n else n);
    DigitsFree(Digits(if n < 0 then -n else n), '_');
    if n < 0 {
      assert "-"[..0] == [];
      FreeAppend("-", Digits(-n), '_');
    }
  }

  // ---- Sequential names ----

  /** The number of a sibling that continues `base` with an underscore, if it is one. */
  function NumberOf(sibling: string, base: string): Option<int> {
    var index := LastIndex(sibling, '_');
    if index == -1 || sibling[..index] != base then None else Atoi(sibling[index + 1..])
  }

  function Numbered(base: string, n: int): string {
    base + "_" + Itoa(n)
  }

  /** The largest number among the siblings of a base name, and 0. */
  function MaxSeq(siblings: seq<string>, base: string): (m: int)
    ensures 0 <= m
  {
    if siblings == [] then 0
    else
      var m := MaxSeq(siblings[..|siblings| - 1], base);
      match NumberOf(siblings[|siblings| - 1], base)
      case None => m
      case Some(k) => if k > m then k else m
  }

  /** The name of the next sequential child; the increment can overflow. */
  function NextName(siblings: seq<string>, base: string): string {
    Numbered(base, Wrap(MaxSeq(siblings, base) + 1))
  }

  method SeqName(siblings: seq<string>, base: string) returns (name: string)
    ensures name == NextName(siblings, base)
  {
    hide Atoi, LastIndex, Itoa;
    var maxseq := 0;
    for i := 0 to |siblings|
      invariant maxseq == MaxSeq(siblings[..i], base)
    {
      assert siblings[..i + 1][..i] == siblings[..i];
      var sibling := siblings[i];
      var index := LastIndex(sibling, '_');
      if index == -1 {
        continue;
      }
      if sibling[..index] == base {
        var seqNum := Atoi(sibling[index + 1..]);
        if seqNum.None? {
          continue;
        }
        if seqNum.value > maxseq {
          maxseq := seqNum.value;
        }
      }
    }
    assert siblings[..|siblings|] == siblings;
    name := base + "_" + Itoa(Wrap(maxseq + 1));
  }

  /** The number of a generated name reads back, whatever the base name contains. */
  lemma NumberOfNumbered(base: string, n: int)
    requires MIN_INT <= n <= MAX_INT
    ensures NumberOf(Numbered(base, n), base) == Some(n)
  {
    hide Itoa, Atoi, LastIndex, Free;
    var s := Numbered(base, n);
    ItoaFree(n);
    assert "_" == ['_'];
    LastIndexAfter(base, '_', Itoa(n));
    assert s[..|base|] == base && s[|base| + 1..] == Itoa(n);
    AtoiItoa(n);
  }

  lemma {:induction false} MaxSeqBounds(siblings: seq<string>, base: string)
    ensures MaxSeq(siblings, base) <= MAX_INT
    ensures forall s <- siblings :: NumberOf(s, base).Some? ==> NumberOf(s, base).value <= MaxSeq(siblings, base)
    ensures MaxSeq(siblings, base) > 0 ==> exists s <- siblings :: NumberOf(s, base) == Some(MaxSeq(siblings, base))
  {
    if siblings != [] {
      var init, last := siblings[..|siblings| - 1], siblings[|siblings| - 1];
      MaxSeqBounds(init, base);
      assert siblings == init + [last];
      if MaxSeq(init, base) > 0 {
        var s :| s in init && NumberOf(s, base) == Some(MaxSeq(init, base));
        assert s in siblings;
      }
    }
  }

  /** A sequential name is new among its siblings and numbered above all of them, exactly as long
      as the largest 64-bit number is not taken. */
  lemma SequentialIsFresh(siblings: seq<string>, base: string)
    ensures var name, n := NextName(siblings, base), NumberOf(NextName(siblings, base), base);
            && n.Some?
            && (MaxSeq(siblings, base) < MAX_INT <==>
                 name !in siblings && (forall s <- siblings :: NumberOf(s, base).Some? ==> NumberOf(s, base).value < n.value)
                 && n.value > 0)
  {
    hide MaxSeq, NumberOf, Numbered;
    var m, name := MaxSeq(siblings, base), NextName(siblings, base);
    MaxSeqBounds(siblings, base);
    NumberOfNumbered(base, Wrap(m + 1));
    assert m == MAX_INT ==> Wrap(m + 1) == MIN_INT;
  }

  /** Names created one after another. */
  function FirstNames(base: string, n: nat): (names: seq<string>)
    ensures |names| == n
  {
    if n == 0 then [] else FirstNames(base, n - 1) + [Numbered(base, n)]
  }

  /** Sequential creates without deletes, among siblings not numbered for this base, give contiguous
      numbers from 1. */
  lemma {:induction false} ContiguousNames(others: seq<string>, base: string, n: nat)
    requires MaxSeq(others, base) == 0 && n < MAX_INT
    ensures MaxSeq(others + FirstNames(base, n), base) == n
    ensures NextName(others + FirstNames(base, n), base) == Numbered(base, n + 1)
  {
    hide NumberOf, Numbered, MaxSeq;
    if n == 0 {
      assert others + [] == others;
    } else {
      ContiguousNames(others, base, n - 1);
      NumberOfNumbered(base, n);
      OneMoreSibling(others + FirstNames(base, n - 1), Numbered(base, n), base);
      assert others + FirstNames(base, n) == others + FirstNames(base, n - 1) + [Numbered(base, n)];
    }
  }

  lemma OneMoreSibling(siblings: seq<string>, name: string, base: string)
    ensures MaxSeq(siblings + [name], base) ==
      var m, n := MaxSeq(siblings, base), NumberOf(name, base);
      if n.Some? && n.value > m then n.value else m
  {
    assert (siblings + [name])[..|siblings|] == siblings;
  }
}
