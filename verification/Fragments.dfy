/** Names as the kernel's trace carries them: bytes in the words of records, the low byte first. */
module Fragments {
  import opened Basics

  /** The low `n` bytes of a word, least significant first. */
  function LowBytes(value: nat, n: nat): (bytes: Text)
    ensures |bytes| == n
  {
    if n == 0 then [] else [value % 256] + LowBytes(value / 256, n - 1)
  }

  function WordBytes(word: Word): (bytes: Text)
    ensures |bytes| == 8
  {
    LowBytes(word, 8)
  }

  function Bytes(words: seq<Word>): (bytes: Text)
    ensures |bytes| == 8 * |words|
  {
    if words == [] then [] else WordBytes(words[0]) + Bytes(words[1..])
  }

  /** The bytes before the first NUL, or all of them. */
  function UntilNul(bytes: Text): (name: Text)
    ensures 0 !in name
  {
    if bytes == [] || bytes[0] == 0 then [] else [bytes[0]] + UntilNul(bytes[1..])
  }

  function Decoded(words: seq<Word>): Text {
    UntilNul(Bytes(words))
  }

  // ---- What the kernel does: pack a name into words, and words into records ----

  function Pow256(n: nat): (p: nat)
    ensures p >= 1
  {
    if n == 0 then 1 else 256 * Pow256(n - 1)
  }

  /** Bytes as one little-endian number. */
  function Number(bytes: Text): (value: nat)
    ensures value < Pow256(|bytes|)
  {
    if bytes == [] then 0 else bytes[0] + 256 * Number(bytes[1..])
  }

  function PackWord(bytes: Text): (word: Word)
    requires |bytes| == 8
  {
    EightBytesFit();
    Number(bytes)
  }

  lemma EightBytesFit()
    ensures Pow256(8) == TWO_TO_64
  {
    assert Pow256(4) == 0x1_0000_0000;
    assert Pow256(6) == 0x1_0000_0000_0000;
  }

  function Padding(n: nat): (bytes: Text)
    ensures |bytes| == n && forall i | 0 <= i < n :: bytes[i] == 0
  {
    seq(n, i => 0)
  }

  /** A name in exactly `words` words, padded with NULs. */
  function Pack(name: Text, words: nat): (packed: seq<Word>)
    requires |name| <= 8 * words
    ensures |packed| == words
    decreases words
  {
    if words == 0 then []
    else if |name| >= 8 then [PackWord(name[..8])] + Pack(name[8..], words - 1)
    else [PackWord(name + Padding(8 - |name|))] + Pack([], words - 1)
  }

  lemma {:induction false} LowBytesOfNumber(bytes: Text)
    ensures LowBytes(Number(bytes), |bytes|) == bytes
  {
    if bytes != [] {
      LowBytesOfNumber(bytes[1..]);
      assert [bytes[0]] + bytes[1..] == bytes;
      assert Number(bytes) / 256 == Number(bytes[1..]);
    }
  }

  lemma {:induction false} BytesOfPack(name: Text, words: nat)
    requires |name| <= 8 * words
    ensures Bytes(Pack(name, words)) == name + Padding(8 * words - |name|)
    decreases words
  {
    if words > 0 {
      var chunk, rest := if |name| >= 8 then name[..8] else name + Padding(8 - |name|),
                         if |name| >= 8 then name[8..] else [];
      LowBytesOfNumber(chunk);
      BytesOfPack(rest, words - 1);
      assert Pack(name, words)[1..] == Pack(rest, words - 1);
      assert chunk + (rest + Padding(8 * (words - 1) - |rest|)) == name + Padding(8 * words - |name|);
    }
  }

  lemma {:induction false} UntilNulOfPadded(name: Text, n: nat)
    requires 0 !in name
    ensures UntilNul(name + Padding(n)) == name
  {
    if name != [] {
      UntilNulOfPadded(name[1..], n);
      assert (name + Padding(n))[1..] == name[1..] + Padding(n);
    }
  }

  /** A NUL-free name comes back exactly, even when it fills its words and nothing ends it. */
  lemma DecodedPack(name: Text, words: nat)
    requires 0 !in name && |name| <= 8 * words
    ensures Decoded(Pack(name, words)) == name
  {
    BytesOfPack(name, words);
    UntilNulOfPadded(name, 8 * words - |name|);
  }

  // ---- The loop of the recorder ----

  lemma {:induction false} BytesConcat(a: seq<Word>, b: seq<Word>)
    ensures Bytes(a + b) == Bytes(a) + Bytes(b)
  {
    if a == [] {
      assert a + b == b;
    } else {
      BytesConcat(a[1..], b);
      assert (a + b)[1..] == a[1..] + b;
      ConcatAssociates(WordBytes(a[0]), Bytes(a[1..]), Bytes(b));
    }
  }

  lemma {:induction false} UntilNulIs(bytes: Text, end: nat)
    requires end <= |bytes| && 0 !in bytes[..end] && (end < |bytes| ==> bytes[end] == 0)
    ensures UntilNul(bytes) == bytes[..end]
  {
    if end > 0 {
      assert bytes[1..][..end - 1] == bytes[..end][1..];
      UntilNulIs(bytes[1..], end - 1);
      assert bytes[..end] == [bytes[0]] + bytes[1..][..end - 1];
    }
  }

  method DecodeString(words: seq<Word>) returns (name: Text)
    ensures name == Decoded(words)
  {
    var bytes: Text := [];
    var i := 0;
    while i < |words|
      invariant 0 <= i <= |words|
      invariant bytes == Bytes(words[..i])
    {
      bytes := bytes + WordBytes(words[i]);
      BytesConcat(words[..i], [words[i]]);
      assert Bytes([words[i]]) == WordBytes(words[i]) + Bytes([]);
      assert words[..i + 1] == words[..i] + [words[i]];
      i := i + 1;
    }
    assert words[..|words|] == words;
    var end := 0;
    while end < |bytes| && bytes[end] != 0
      invariant 0 <= end <= |bytes|
      invariant 0 !in bytes[..end]
    {
      assert bytes[..end + 1] == bytes[..end] + [bytes[end]];
      end := end + 1;
    }
    UntilNulIs(bytes, end);
    name := bytes[..end];
  }
}
