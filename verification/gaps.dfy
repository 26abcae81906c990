/** Positions in a stream, to say of the bytes that left which of the bytes that arrived they are. */
module Gaps {

  function Interval(start: nat, length: nat): (r: seq<nat>)
    ensures |r| == length && forall i :: 0 <= i < length ==> r[i] == start + i
  {
    seq(length, i requires 0 <= i < length => start + i)
  }

  /** What left is the front of what arrived. */
  ghost predicate NoGap(offsets: seq<nat>) {
    forall k :: 0 <= k < |offsets| ==> offsets[k] == k
  }

  lemma NoGapAppend(before: seq<nat>, start: nat, length: nat)
    ensures NoGap(before + Interval(start, length)) <==> NoGap(before) && (length > 0 ==> |before| == start)
  {
    var all := before + Interval(start, length);
    if NoGap(all) {
      forall k | 0 <= k < |before| ensures before[k] == k {
        assert all[k] == before[k];
      }
      if length > 0 {
        assert all[|before|] == start;
      }
    }
  }

  /** Each byte sent is the byte of the input at its offset. */
  ghost predicate Located<B>(sent: seq<B>, offsets: seq<nat>, input: seq<B>) {
    && |offsets| == |sent|
    && forall k :: 0 <= k < |offsets| ==> offsets[k] < |input| && input[offsets[k]] == sent[k]
  }

  /** Sending the first n bytes of a payload that arrived last. */
  lemma LocatedAppend<B>(sent: seq<B>, offsets: seq<nat>, input: seq<B>, payload: seq<B>, n: nat)
    requires Located(sent, offsets, input) && n <= |payload|
    ensures Located(sent + payload[..n], offsets + Interval(|input|, n), input + payload)
  {
  }

  lemma NoGapMeansPrefix<B>(sent: seq<B>, offsets: seq<nat>, input: seq<B>)
    requires Located(sent, offsets, input) && NoGap(offsets)
    ensures sent <= input
  {
    assert forall k :: 0 <= k < |sent| ==> offsets[k] == k && sent[k] == input[k];
    if |sent| > 0 {
      assert offsets[|sent| - 1] < |input|;
    }
  }
}
