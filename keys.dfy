/** The keys of the store's single bucket: `strconv.Itoa(id)` per chapter, and one summary key. */
module Keys {

  /** The key holding the whole summary collection. */
  const SummaryKey: string := "chapters_summary"

  predicate IsDigit(c: char) { '0' <= c <= '9' }

  function DigitChar(d: nat): (c: char)
    requires d < 10
    ensures IsDigit(c)
  {
    ((('0' as int) + d) as char)
  }

  function DigitValue(c: char): int { (c as int) - ('0' as int) }

  /** The decimal digits of `n`, most significant first, without leading zeros. */
  function Digits(n: nat): (s: string)
    ensures |s| > 0
    ensures forall i :: 0 <= i < |s| ==> IsDigit(s[i])
    decreases n
  {
    if n < 10 then [DigitChar(n)] else Digits(n / 10) + [DigitChar(n % 10)]
  }

  /** Go's `strconv.Itoa`: the decimal form of `i`, with a leading '-' when negative. */
  function Itoa(i: int): (s: string)
    ensures |s| > 0 && (s[0] == '-' <==> i < 0)
    ensures forall k :: 0 < k < |s| ==> IsDigit(s[k])
    ensures IsDigit(s[0]) || s[0] == '-'
  {
    if i < 0 then "-" + Digits(-i) else Digits(i)
  }

  /** Reads a string of decimal digits back as a number. */
  function ParseDigits(s: string): int
  {
    if s == [] then 0 else ParseDigits(s[..|s| - 1]) * 10 + DigitValue(s[|s| - 1])
  }

  /** The inverse of Itoa on its image (Go's `strconv.Atoi`, without its error cases). */
  function Atoi(s: string): int
  {
    if |s| > 0 && s[0] == '-' then -ParseDigits(s[1..]) else ParseDigits(s)
  }

  lemma {:induction false} ParseDigitsOfDigits(n: nat)
    ensures ParseDigits(Digits(n)) == n
    decreases n
  {
    if n >= 10 {
      var s := Digits(n);
      assert s == Digits(n / 10) + [DigitChar(n % 10)];
      assert s[..|s| - 1] == Digits(n / 10);
      ParseDigitsOfDigits(n / 10);
    }
  }

  /** Atoi undoes Itoa for every integer. */
  lemma AtoiOfItoa(i: int)
    ensures Atoi(Itoa(i)) == i
  {
    if i < 0 {
      assert Itoa(i)[1..] == Digits(-i);
      ParseDigitsOfDigits(-i);
    } else {
      ParseDigitsOfDigits(i);
    }
  }

  /** Distinct ids have distinct decimal forms. */
  lemma ItoaInjective(i: int, j: int)
    ensures Itoa(i) == Itoa(j) <==> i == j
  {
    AtoiOfItoa(i);
    AtoiOfItoa(j);
  }

  /** The key of chapter `id`; it never collides with the summary key. */
  function ChapterKey(id: int): (k: string)
    ensures k != SummaryKey
  {
    assert SummaryKey[0] == 'c';
    Itoa(id)
  }

  /** Two chapters share a key only when they share an id. */
  lemma ChapterKeyInjective(i: int, j: int)
    ensures ChapterKey(i) == ChapterKey(j) <==> i == j
  {
    ItoaInjective(i, j);
  }
}
