/**
 * Splitting a reply for a transport that limits message length: a reply
 * longer than 4000 characters is cut into consecutive 4000-character
 * slices (the last one shorter); any other reply is sent as it is.
 */
module Chunker {
  import opened Text

  /** Longest part the bot sends (Telegram's own limit is 4096). */
  const MaxLength: nat := 4000

  function Min(a: int, b: int): int {
    if a <= b then a else b
  }

  /** `len(range(0, n, 4000))`. */
  function PartCount(n: nat): nat {
    (n + 3999) / 4000
  }

  /** `[s[i:i+4000] for i in range(0, len(s), 4000)]`. */
  function Slices(s: string): (parts: seq<string>)
    ensures forall i :: 0 <= i < |parts| ==> 0 < |parts[i]| <= MaxLength
    ensures forall i :: 0 <= i < |parts| - 1 ==> |parts[i]| == MaxLength
  {
    seq(PartCount(|s|), i requires 0 <= i < PartCount(|s|) => s[i * 4000 .. Min(i * 4000 + 4000, |s|)])
  }

  /** The number of parts is the ceiling of `|s| / 4000`: just enough
      4000-character parts to hold `s`. */
  lemma PartCountIsCeiling(n: nat)
    ensures n == 0 ==> PartCount(n) == 0
    ensures n > 0 ==> (PartCount(n) - 1) * MaxLength < n <= PartCount(n) * MaxLength
  {
  }

  /** Slice `i` of a long text is slice `i - 1` of the text without its
      first 4000 characters. */
  lemma SliceShift(s: string, i: nat)
    requires |s| > MaxLength && 0 < i < PartCount(|s|)
    ensures i - 1 < |Slices(s[MaxLength..])|
    ensures Slices(s[MaxLength..])[i - 1] == Slices(s)[i]
  {
    var rest := s[MaxLength..];
    var lo, hi := i * 4000, Min(i * 4000 + 4000, |s|);
    assert (i - 1) * 4000 == lo - 4000;
    assert Min((i - 1) * 4000 + 4000, |rest|) == hi - 4000;
    assert rest[lo - 4000 .. hi - 4000] == s[lo .. hi];
  }

  /** The first slice, then the slices of the rest. */
  lemma SlicesUnfold(s: string)
    requires |s| > MaxLength
    ensures Slices(s) == [s[..MaxLength]] + Slices(s[MaxLength..])
  {
    var rest := s[MaxLength..];
    assert PartCount(|s|) == PartCount(|rest|) + 1;
    var a, b := Slices(s), [s[..MaxLength]] + Slices(rest);
    assert |a| == |b|;
    forall i | 0 <= i < |a| ensures a[i] == b[i] {
      if i == 0 {
        assert a[0] == s[0..4000];
      } else {
        SliceShift(s, i);
      }
    }
  }

  /** Gluing the slices back together gives the text exactly. */
  lemma {:induction false} SlicesConcat(s: string)
    ensures Concat(Slices(s)) == s
    decreases |s|
  {
    if |s| == 0 {
      assert Slices(s) == [];
    } else if |s| <= MaxLength {
      assert PartCount(|s|) == 1;
      assert |Slices(s)| == 1 && Slices(s)[0] == s[0..|s|];
      assert s[0..|s|] == s;
      assert Slices(s) == [s];
      assert Concat([s]) == s + Concat([]);
    } else {
      SlicesUnfold(s);
      SlicesConcat(s[MaxLength..]);
      assert ([s[..MaxLength]] + Slices(s[MaxLength..]))[1..] == Slices(s[MaxLength..]);
    }
  }

  /** The parts the bot sends for `text`. */
  function Chunk(text: string): (parts: seq<string>)
    ensures |parts| >= 1
    ensures |parts| > 1 ==> forall i :: 0 <= i < |parts| ==> |parts[i]| <= MaxLength
    ensures forall i :: 0 <= i < |parts| ==> (parts[i] == [] <==> text == [])
  {
    if |text| > MaxLength then Slices(text) else [text]
  }

  /** A text of at most 4000 characters, exactly 4000 included, is sent
      unchanged as one part. */
  lemma ChunkShort(text: string)
    requires |text| <= MaxLength
    ensures Chunk(text) == [text]
  {
  }

  /** A longer text is split into ceil(|text| / 4000) parts, at least two,
      every part at most 4000 long and all but the last exactly 4000. */
  lemma ChunkLong(text: string)
    requires |text| > MaxLength
    ensures var parts := Chunk(text);
            && |parts| == PartCount(|text|) >= 2
            && (|parts| - 1) * MaxLength < |text| <= |parts| * MaxLength
            && (forall i :: 0 <= i < |parts| ==> 0 < |parts[i]| <= MaxLength)
            && (forall i :: 0 <= i < |parts| - 1 ==> |parts[i]| == MaxLength)
  {
    PartCountIsCeiling(|text|);
  }

  /** In every case the parts, in order, reproduce the text exactly. */
  lemma ChunkConcat(text: string)
    ensures Concat(Chunk(text)) == text
  {
    if |text| > MaxLength {
      SlicesConcat(text);
    } else {
      assert Concat([text]) == text + Concat([]);
    }
  }
}
