/** The echo request's checksum (ops/fifo-lab/node.py): two folds of a plain sum against the one's-complement sum
    of section 1 of RFC 1071.
 */
module Checksum {
  type Byte = x: int | 0 <= x < 0x100
  type Word = x: int | 0 <= x < 0x1_0000

  /** The big-endian 16-bit words of an even number of bytes. */
  function Words(data: seq<Byte>): (words: seq<Word>)
    requires |data| % 2 == 0
    ensures |words| == |data| / 2
    ensures forall k :: 0 <= k < |words| ==> words[k] == WordAt(data, k)
  {
    seq(|data| / 2, k requires 0 <= k < |data| / 2 => WordAt(data, k))
  }

  function WordAt(data: seq<Byte>, k: nat): Word
    requires 2 * k + 1 < |data|
  {
    var high: int := data[2 * k];
    high * 0x100 + data[2 * k + 1]
  }

  function Sum(words: seq<Word>): nat {
    if words == [] then 0 else Sum(words[..|words| - 1]) + words[|words| - 1]
  }

  function Fold(x: nat): nat {
    x % 0x1_0000 + x / 0x1_0000
  }

  // ----- The reference: addition with end-around carry

  function AddCarry(a: Word, b: Word): Word {
    var s: int := a as int + b;
    if s < 0x1_0000 then s else s - 0xFFFF
  }

  function OnesSum(words: seq<Word>): Word {
    if words == [] then 0 else AddCarry(OnesSum(words[..|words| - 1]), words[|words| - 1])
  }

  /** Congruent sums that vanish together: what a word determines uniquely. */
  predicate Represents(w: int, x: int) {
    0 <= w < 0x1_0000 && 0 <= x && (x - w) % 0xFFFF == 0 && (w == 0 <==> x == 0)
  }

  lemma RepresentsOne(v: int, w: int, x: int)
    requires Represents(v, x) && Represents(w, x)
    ensures v == w
  {
    MultiplesDiffer(x - v, x - w);
  }

  lemma MultiplesDiffer(a: int, b: int)
    requires a % 0xFFFF == 0 && b % 0xFFFF == 0
    ensures (a - b) % 0xFFFF == 0 && (a + b) % 0xFFFF == 0
  {
    var m, n := a / 0xFFFF, b / 0xFFFF;
    assert a == m * 0xFFFF && b == n * 0xFFFF;
    Multiple(m - n);
    Multiple(m + n);
  }

  lemma Multiple(q: int)
    ensures q * 0xFFFF % 0xFFFF == 0
  {
  }

  lemma CarryRepresents(v: int, x: int, b: Word)
    requires Represents(v, x)
    ensures Represents(AddCarry(v, b), x + b)
  {
    var r := AddCarry(v, b);
    if r != v + b {
      MultiplesDiffer(x - v, 0xFFFF);
    }
  }

  lemma {:induction false} OnesSumRepresents(words: seq<Word>)
    ensures Represents(OnesSum(words), Sum(words))
    decreases |words|
  {
    if words != [] {
      OnesSumRepresents(words[..|words| - 1]);
      CarryRepresents(OnesSum(words[..|words| - 1]), Sum(words[..|words| - 1]), words[|words| - 1]);
    }
  }

  lemma FoldIsCongruent(x: nat)
    ensures (x - Fold(x)) % 0xFFFF == 0 && (Fold(x) == 0 <==> x == 0)
  {
    var q := x / 0x1_0000;
    assert x == q * 0x1_0000 + x % 0x1_0000;
    assert x - Fold(x) == q * 0xFFFF;
  }

  lemma {:induction false} SumIsBounded(words: seq<Word>)
    ensures Sum(words) <= |words| * 0xFFFF
    decreases |words|
  {
    if words != [] {
      SumIsBounded(words[..|words| - 1]);
    }
  }

  /** For up to 65536 words two folds leave one word, and it is the one's-complement sum. */
  lemma TwoFoldsSuffice(words: seq<Word>)
    requires |words| <= 0x1_0000
    ensures Fold(Fold(Sum(words))) == OnesSum(words)
  {
    var x := Sum(words);
    SumIsBounded(words);
    assert x <= 0x1_0000 * 0xFFFF;
    assert Fold(x) <= 0xFFFF + 0xFFFF;
    var y := Fold(Fold(x));
    FoldIsCongruent(x);
    FoldIsCongruent(Fold(x));
    MultiplesDiffer(x - Fold(x), Fold(x) - y);
    OnesSumRepresents(words);
    RepresentsOne(y, OnesSum(words), x);
  }

  // ----- Inserting the complement

  lemma {:induction false} SumOfUpdate(words: seq<Word>, k: nat, w: Word)
    requires k < |words|
    ensures Sum(words[k := w]) == Sum(words) - words[k] + w
    decreases |words|
  {
    var less := words[..|words| - 1];
    if k < |words| - 1 {
      SumOfUpdate(less, k, w);
      assert words[k := w][..|words| - 1] == less[k := w];
    } else {
      assert words[k := w][..|words| - 1] == less;
    }
  }

  lemma ComplementCancels(words: seq<Word>, k: nat)
    requires k < |words| && words[k] == 0
    ensures OnesSum(words[k := 0xFFFF - OnesSum(words)]) == 0xFFFF
  {
    var c := OnesSum(words);
    var w: Word := 0xFFFF - c;
    SumOfUpdate(words, k, w);
    OnesSumRepresents(words);
    OnesSumRepresents(words[k := w]);
    MultiplesDiffer(Sum(words) - c, 0xFFFF);
    assert Sum(words[k := w]) == (Sum(words) - c) + 0xFFFF;
    RepresentsOne(0xFFFF, OnesSum(words[k := w]), Sum(words[k := w]));
  }

  // ----- The program

  method SumWords(words: seq<Word>) returns (total: nat)
    ensures total == Sum(words)
  {
    total := 0;
    assert words[..0] == [];
    for k := 0 to |words|
      invariant total == Sum(words[..k])
    {
      assert words[..k + 1][..k] == words[..k];
      total := total + words[k];
    }
    assert words[..|words|] == words;
  }

  /** Fills the zeroed checksum field, bytes 2 and 3; the message then sums to 0xFFFF. */
  method Insert(data: seq<Byte>) returns (filled: seq<Byte>)
    requires |data| % 2 == 0 && 4 <= |data| <= 0x2_0000
    requires data[2] == data[3] == 0
    ensures |filled| == |data| && filled[..2] == data[..2] && filled[4..] == data[4..]
    ensures WordAt(filled, 1) == 0xFFFF - OnesSum(Words(data))
    ensures OnesSum(Words(filled)) == 0xFFFF
  {
    hide Fold, OnesSum, Sum;
    var words := Words(data);
    var checksum := SumWords(words);
    checksum := Fold(checksum);
    checksum := Fold(checksum);
    TwoFoldsSuffice(words);
    var field: Word := 0xFFFF - checksum;
    filled := data[..2] + [field / 0x100, field % 0x100] + data[4..];
    ComplementCancels(words, 1);
    SameOtherWords(data, filled);
    assert Words(filled) == words[1 := field];
  }

  lemma SameOtherWords(data: seq<Byte>, filled: seq<Byte>)
    requires |data| == |filled| && |data| % 2 == 0 && 4 <= |data|
    requires filled[..2] == data[..2] && filled[4..] == data[4..]
    ensures forall k :: 0 <= k < |data| / 2 && k != 1 ==> Words(filled)[k] == Words(data)[k]
  {
    forall k | 0 <= k < |data| / 2 && k != 1 ensures Words(filled)[k] == Words(data)[k] {
      if k == 0 {
        assert filled[0] == filled[..2][0] && filled[1] == filled[..2][1];
        assert data[0] == data[..2][0] && data[1] == data[..2][1];
      } else {
        assert filled[2 * k] == filled[4..][2 * k - 4] && filled[2 * k + 1] == filled[4..][2 * k - 3];
        assert data[2 * k] == data[4..][2 * k - 4] && data[2 * k + 1] == data[4..][2 * k - 3];
      }
    }
  }

  /** Type 8 (echo request), code 0, a zeroed checksum, an identifier and a sequence number, then a payload. */
  function EchoRequest(id: Word, sequence: Word, payload: seq<Byte>): seq<Byte> {
    [8, 0, 0, 0, id / 0x100, id % 0x100, sequence / 0x100, sequence % 0x100] + payload
  }

  /** The request as it is sent; the sequence number wraps at 16 bits and the payload of the lab has 18 bytes. */
  method Ping(id: Word, last: Word, payload: seq<Byte>) returns (sequence: Word, data: seq<Byte>)
    requires |payload| == 18
    ensures sequence == (last + 1) % 0x1_0000
    ensures |data| == 26 && OnesSum(Words(data)) == 0xFFFF
    ensures data[..2] == [8, 0] && data[4..] == EchoRequest(id, sequence, payload)[4..]
  {
    sequence := (last as int + 1) % 0x1_0000;
    var request := EchoRequest(id, sequence, payload);
    assert request[..2] == [8, 0];
    data := Insert(request);
  }
}
