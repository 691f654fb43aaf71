/** The content block every filler file receives: `size_in_mb` mebibytes of
    characters drawn from the ASCII letters and digits (app.py:13-15). The
    random choices are a parameter `draw`: the i-th character is the
    alphabet entry `draw(i)` selects. */
module RandomText {

  /** Python's `string.ascii_letters + string.digits`. */
  const Alphabet: string := "abcdefghijklmnopqrstuvwxyzABCDEFGHIJKLMNOPQRSTUVWXYZ0123456789"

  const BytesPerMb: nat := 1024 * 1024

  /** `random.choices(..., k=n)` draws nothing when `n` is not positive. */
  function BlockLength(sizeInMb: int): nat
  {
    if sizeInMb > 0 then sizeInMb * BytesPerMb else 0
  }

  function GenerateRandomText(sizeInMb: int, draw: nat -> nat): (text: string)
    ensures |text| == BlockLength(sizeInMb)
    ensures forall i :: 0 <= i < |text| ==> text[i] in Alphabet
  {
    seq(BlockLength(sizeInMb), (i: int) requires 0 <= i => Alphabet[draw(i) % |Alphabet|])
  }

  ghost function AlphabetIndex(c: char): (k: nat)
    requires c in Alphabet
    ensures k < |Alphabet| && Alphabet[k] == c
  {
    var k :| 0 <= k < |Alphabet| && Alphabet[k] == c; k
  }

  /** The model constrains nothing but length and alphabet: every alphanumeric
      string of the right length is the block for some sequence of draws. */
  lemma AnyBlockCanBeGenerated(sizeInMb: int, text: string)
    requires |text| == BlockLength(sizeInMb)
    requires forall i :: 0 <= i < |text| ==> text[i] in Alphabet
    ensures exists draw: nat -> nat :: GenerateRandomText(sizeInMb, draw) == text
  {
    var draw := (i: nat) => if i < |text| then AlphabetIndex(text[i]) else 0;
    var generated := GenerateRandomText(sizeInMb, draw);
    forall i | 0 <= i < |text|
      ensures generated[i] == text[i]
    {
      var k := AlphabetIndex(text[i]);
      SmallRemainder(k, |Alphabet|);
      assert generated[i] == Alphabet[draw(i) % |Alphabet|];
    }
    assert generated == text;
  }

  lemma SmallRemainder(k: nat, n: nat)
    requires k < n
    ensures k % n == k
  {
  }
}
