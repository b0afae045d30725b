/** A stream cut into chunks, shared by the modules that read one. */
module Chunks {
  function Join<T>(chunks: seq<seq<T>>): seq<T> {
    if chunks == [] then [] else Join(chunks[..|chunks| - 1]) + chunks[|chunks| - 1]
  }

  lemma {:induction false} JoinSplits<T>(chunks: seq<seq<T>>, k: nat)
    requires k <= |chunks|
    ensures Join(chunks) == Join(chunks[..k]) + Join(chunks[k..])
    decreases |chunks| - k
  {
    if k == |chunks| {
      assert chunks[..k] == chunks && Join(chunks[k..]) == [];
    } else {
      var less, last := chunks[..|chunks| - 1], chunks[|chunks| - 1];
      JoinSplits(less, k);
      assert less[..k] == chunks[..k] && less[k..] == chunks[k..][..|chunks| - 1 - k];
      assert Join(chunks[..k]) + (Join(less[k..]) + last) == Join(chunks[..k]) + Join(less[k..]) + last;
    }
  }

  lemma JoinPrefix<T>(chunks: seq<seq<T>>, k: nat)
    requires k <= |chunks|
    ensures Join(chunks[..k]) <= Join(chunks)
  {
    JoinSplits(chunks, k);
  }
}
