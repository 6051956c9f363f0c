/**
 * Sale-number generation: a string as long as a fixed 58-character alphabet,
 * built one character at a time by sampling that alphabet. The random source
 * is an oracle: the sequence of indices it draws, one per character.
 */
module SaleNumber {

  /**
   * The alphabet sampled, written as its three runs: `a`..`y`, the ten
   * digits, then `a`..`w` again. It has no `z`, and `a`..`w` occur twice.
   */
  const Alphabet: string := "abcdefghijklmnopqrstuvwxy" + "1234567890" + "abcdefghijklmnopqrstuvw"

  /** The characters a sale number may contain: `a`..`y` and the ten digits. */
  predicate IsSaleNumberChar(c: char) {
    ('a' <= c <= 'y') || ('0' <= c <= '9')
  }

  /** Indices the random source can produce: each one picks a character. */
  predicate ValidIndices(indices: seq<nat>) {
    forall k :: 0 <= k < |indices| ==> indices[k] < |Alphabet|
  }

  /** The sale number drawn by the given indices, one character per index. */
  function SaleNumberOf(indices: seq<nat>): string
    requires ValidIndices(indices)
  {
    seq(|indices|, k requires 0 <= k < |indices| => Alphabet[indices[k]])
  }

  /**
   * The loop of the generator: one draw per character of the alphabet,
   * appending the chosen character each time.
   */
  method GenerateSaleNumber(indices: seq<nat>) returns (saleNumber: string)
    requires |indices| == |Alphabet| && ValidIndices(indices)
    ensures |saleNumber| == |Alphabet| == 58
    ensures forall k :: 0 <= k < |saleNumber| ==> saleNumber[k] == Alphabet[indices[k]]
    ensures saleNumber == SaleNumberOf(indices)
  {
    saleNumber := "";
    var i := 0;
    while i < |Alphabet|
      invariant 0 <= i <= |Alphabet|
      invariant |saleNumber| == i
      invariant forall k :: 0 <= k < i ==> saleNumber[k] == Alphabet[indices[k]]
    {
      var randomIndex := indices[i];
      saleNumber := saleNumber + [Alphabet[randomIndex]];
      i := i + 1;
    }
  }

  /** Every character of the alphabet is a lower-case letter `a`..`y` or a digit. */
  lemma AlphabetChars(k: nat)
    requires k < |Alphabet|
    ensures IsSaleNumberChar(Alphabet[k])
    ensures Alphabet[k] != 'z'
  {
  }

  /** A sale number holds only `a`..`y` and digits: never `z`, never upper case. */
  lemma SaleNumberCharset(indices: seq<nat>)
    requires ValidIndices(indices)
    ensures |SaleNumberOf(indices)| == |indices|
    ensures forall k :: 0 <= k < |indices| ==> IsSaleNumberChar(SaleNumberOf(indices)[k])
    ensures 'z' !in SaleNumberOf(indices)
    ensures forall c :: 'A' <= c <= 'Z' ==> c !in SaleNumberOf(indices)
  {
  }

  /**
   * Nothing makes sale numbers unique: the generator is a function of its
   * draws, and since the alphabet repeats letters even two different draws
   * can spell the same number (index 0 and index 35 are both `a`).
   */
  lemma DifferentDrawsSameNumber()
    ensures var zeros := seq(58, k => 0);
            var thirtyFives := seq(58, k => 35);
            ValidIndices(zeros) && ValidIndices(thirtyFives) && zeros != thirtyFives &&
            SaleNumberOf(zeros) == SaleNumberOf(thirtyFives)
  {
    var zeros := seq(58, k => 0);
    var thirtyFives := seq(58, k => 35);
    assert zeros[0] != thirtyFives[0];
    assert Alphabet[0] == "abcdefghijklmnopqrstuvwxy"[0];
    assert Alphabet[35] == "abcdefghijklmnopqrstuvw"[0];
  }
}
