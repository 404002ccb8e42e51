/**
 * The set-score normalizer of the BJK scoreboard: each player's list of set
 * scores is turned into exactly three display slots by appending three zeros
 * and keeping the first three entries. Values pass through uninterpreted
 * (negative scores are not rejected).
 */
module ScoreNormalizer {

  /** Number of set columns the scoreboard always shows. */
  const SetSlots: nat := 3

  /** The value a missing set slot shows. */
  const EmptySlot: int := 0

  /** The row shown for a player whose score list is absent. */
  const DefaultScore: seq<int> := [0, 0, 0]

  /** A sequence of `n` empty slots. */
  function Zeros(n: nat): seq<int>
  {
    seq(n, _ => EmptySlot)
  }

  /**
   * The spread-and-slice expression: the scores followed by three zeros,
   * cut to the first three entries. Slot `i` shows the `i`-th score when
   * there is one and an empty slot otherwise.
   */
  function Normalize(s: seq<int>): (r: seq<int>)
    ensures |r| == SetSlots
    ensures forall i :: 0 <= i < SetSlots ==> r[i] == (if i < |s| then s[i] else EmptySlot)
  {
    (s + [EmptySlot, EmptySlot, EmptySlot])[..SetSlots]
  }

  /**
   * An independent reference definition of "the first `n` slots of a list
   * padded on the right with zeros", built one slot at a time.
   */
  function PadOrTruncate(s: seq<int>, n: nat): (r: seq<int>)
    decreases n
  {
    if n == 0 then []
    else if s == [] then [EmptySlot] + PadOrTruncate([], n - 1)
    else [s[0]] + PadOrTruncate(s[1..], n - 1)
  }

  /** Slot by slot, the reference definition shows a score or an empty slot. */
  lemma {:induction false} PadOrTruncateSlots(s: seq<int>, n: nat)
    ensures |PadOrTruncate(s, n)| == n
    ensures forall i :: 0 <= i < n ==> PadOrTruncate(s, n)[i] == (if i < |s| then s[i] else EmptySlot)
    decreases n
  {
    if n > 0 {
      var rest := if s == [] then [] else s[1..];
      PadOrTruncateSlots(rest, n - 1);
    }
  }

  /** The spread-and-slice expression agrees with the reference definition. */
  lemma NormalizeIsPadOrTruncate(s: seq<int>)
    ensures Normalize(s) == PadOrTruncate(s, SetSlots)
  {
  }

  /** A list of at most three scores is padded on the right with zeros. */
  lemma NormalizePadsShort(s: seq<int>)
    requires |s| <= SetSlots
    ensures Normalize(s) == s + Zeros(SetSlots - |s|)
  {
  }

  /** A list of at least three scores keeps its first three, in order. */
  lemma NormalizeTruncatesLong(s: seq<int>)
    requires |s| >= SetSlots
    ensures Normalize(s) == s[..SetSlots]
  {
  }

  /** A row is left unchanged exactly when it already has three slots. */
  lemma NormalizeFixedPoints(s: seq<int>)
    ensures Normalize(s) == s <==> |s| == SetSlots
  {
  }

  /** Normalizing a normalized row returns it unchanged. */
  lemma NormalizeIdempotent(s: seq<int>)
    ensures Normalize(Normalize(s)) == Normalize(s)
  {
  }

  /** The empty list and the default row both show three empty slots. */
  lemma NormalizeDefaults()
    ensures Normalize([]) == DefaultScore
    ensures Normalize(DefaultScore) == DefaultScore
  {
  }

  /** The two worked examples: a short row is padded, a long one cut. */
  lemma NormalizeExamples()
    ensures Normalize([4, 1]) == [4, 1, 0]
    ensures Normalize([6, 3, 7, 2]) == [6, 3, 7]
  {
  }
}
