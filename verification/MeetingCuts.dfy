/**
 Where a meeting answer is cut, told without the search: behind the last sentence that
 is long enough, with the quotes and brackets that close it; by length only if there is
 no such place.
 */
module MeetingCuts {
  import opened MeetingAnswer

  /** A sentence ends at `cut`: behind the mark at `i` and all closing quotes and brackets there is room for. */
  ghost predicate EndsSentence(runes: string, i: nat, cut: nat, limit: nat) {
    && i < limit && i < cut <= |runes| && cut <= limit + 8 && Terminator(runes[i])
    && (forall k :: i < k < cut ==> Closer(runes[k]))
    && (cut < |runes| && cut < limit + 8 ==> !Closer(runes[cut]))
  }

  /** The answer may be cut here. */
  ghost predicate MayCut(runes: string, cut: nat) {
    var limit := if |runes| > 600 then 600 else |runes|;
    cut >= 80 && exists i: nat :: EndsSentence(runes, i, cut, limit)
  }

  lemma {:induction false} CloserEndStops(runes: string, end: nat, bound: nat)
    requires end <= |runes| && end <= bound
    ensures var e := CloserEnd(runes, end, bound); e < |runes| && e < bound ==> !Closer(runes[e])
    decreases |runes| - end
  {
    if end < |runes| && end < bound && Closer(runes[end]) {
      CloserEndStops(runes, end + 1, bound);
    }
  }

  lemma {:induction false} CloserEndIs(runes: string, end: nat, bound: nat, cut: nat)
    requires end <= cut <= |runes| && cut <= bound && forall k :: end <= k < cut ==> Closer(runes[k])
    requires cut < |runes| && cut < bound ==> !Closer(runes[cut])
    ensures CloserEnd(runes, end, bound) == cut
    decreases |runes| - end
  {
    if end < cut {
      CloserEndIs(runes, end + 1, bound, cut);
    }
  }

  /** The search finds for a mark exactly the end of its sentence. */
  lemma SentenceEndIs(runes: string, i: nat, cut: nat, limit: nat)
    requires limit <= |runes|
    ensures EndsSentence(runes, i, cut, limit) <==>
            i < limit && Terminator(runes[i]) && cut == SentenceEnd(runes, i, limit)
  {
    if i < limit {
      var end := SentenceEnd(runes, i, limit);
      CloserEndStops(runes, i + 1, limit + CLOSER_SLACK);
      forall k | i < k < end ensures Closer(runes[k]) {
        ClosersOnly(runes, i + 1, limit + CLOSER_SLACK, k);
      }
      if EndsSentence(runes, i, cut, limit) {
        CloserEndIs(runes, i + 1, limit + CLOSER_SLACK, cut);
      }
    }
  }

  lemma {:induction false} LastCutEnds(runes: string, limit: nat, n: nat)
    requires n <= limit <= |runes|
    ensures var cut := LastCut(runes, limit, n);
            cut > 0 ==> cut >= 80 && exists i: nat :: EndsSentence(runes, i, cut, limit)
  {
    if n == 0 {
    } else if Cuttable(runes, n - 1, limit) {
      SentenceEndIs(runes, n - 1, SentenceEnd(runes, n - 1, limit), limit);
    } else {
      LastCutEnds(runes, limit, n - 1);
    }
  }

  /**
   The next chunk ends at the last place where a sentence of the first 600 runes ends, 80
   runes or more from the start.  Without one it has 600 runes if there are that many, or,
   at the end of the answer, all that is left; otherwise nothing is cut.
   */
  lemma NextCutIs(runes: string, final: bool)
    ensures var cut := NextCut(runes, final);
            && (forall other: nat :: MayCut(runes, other) ==> MayCut(runes, cut) && other <= cut)
            && ((forall other: nat :: !MayCut(runes, other)) ==>
                  cut == if |runes| >= 600 then 600 else if final then |runes| else 0)
  {
    var limit := if |runes| > 600 then 600 else |runes|;
    LastCutEnds(runes, limit, limit);
    forall other: nat | MayCut(runes, other) ensures LastCut(runes, limit, limit) >= other {
      var i: nat :| EndsSentence(runes, i, other, limit);
      SentenceEndIs(runes, i, other, limit);
      LastCutIsGreatest(runes, limit, limit, i);
    }
    assert LastCut(runes, limit, limit) > 0 ==> MayCut(runes, LastCut(runes, limit, limit));
  }

  /** A live answer is cut when a timer fires, once, at that place; before that it only grows. */
  lemma LiveSplitIs(runes: string, ready: bool)
    ensures var (chunks, rest) := Split(runes, ready, false);
            if ready && (|runes| >= 600 || exists cut: nat :: MayCut(runes, cut))
            then |chunks| == 1 && chunks[0] + rest == runes && |chunks[0]| == NextCut(runes, false) && chunks[0] != ""
            else chunks == [] && rest == runes
  {
    NextCutIs(runes, false);
    if cut: nat :| MayCut(runes, cut) {
      assert |runes| >= 80;
    }
    var cut := NextCut(runes, false);
    assert runes[..cut] + runes[cut..] == runes;
  }
}
