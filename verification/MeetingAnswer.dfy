/**
 A meeting answer is spoken while it is still being written: the accumulated text
 is cut at sentence ends into chunks of bounded size.  Nothing may be lost,
 repeated or reordered, whatever the interleaving of text events and timer ticks.
 */
module MeetingAnswer {

  const MIN_RUNES: nat := 80
  const MAX_RUNES: nat := 600
  const CLOSER_SLACK: nat := 8

  predicate Terminator(c: char) {
    || c == '。' || c == '！' || c == '？' || c == '；'
    || c == '.' || c == '!' || c == '?' || c == ';' || c == '\n'
  }

  predicate Closer(c: char) {
    || c == '"' || c == '\'' || c == '”' || c == '’' || c == '」' || c == '』' || c == '）'
    || c == '》' || c == '】' || c == '〕' || c == '〉' || c == ']' || c == '}'
  }

  // ---------------------------------------------------------------- where to cut

  /** Quotes and brackets right behind a sentence stay with it, up to `bound`. */
  function CloserEnd(runes: string, end: nat, bound: nat): (e: nat)
    requires end <= |runes| && end <= bound
    ensures end <= e <= |runes| && e <= bound
    decreases |runes| - end
  {
    if end < |runes| && end < bound && Closer(runes[end]) then CloserEnd(runes, end + 1, bound) else end
  }

  /** End of the sentence whose terminator is at `i`. */
  function SentenceEnd(runes: string, i: nat, limit: nat): (e: nat)
    requires i < |runes| && i < limit
    ensures i < e <= |runes| && e <= limit + CLOSER_SLACK
  {
    CloserEnd(runes, i + 1, limit + CLOSER_SLACK)
  }

  /** A place to cut: a sentence end that is not too early. */
  predicate Cuttable(runes: string, i: nat, limit: nat)
    requires i < |runes| && i < limit
  {
    Terminator(runes[i]) && SentenceEnd(runes, i, limit) >= MIN_RUNES
  }

  /** The place to cut found among the first `n` runes, the last one winning; 0 if there is none. */
  function LastCut(runes: string, limit: nat, n: nat): (cut: nat)
    requires n <= |runes| && n <= limit
    ensures cut <= |runes| && cut <= limit + CLOSER_SLACK && (cut == 0 || cut >= MIN_RUNES)
  {
    if n == 0 then 0
    else if Cuttable(runes, n - 1, limit) then SentenceEnd(runes, n - 1, limit)
    else LastCut(runes, limit, n - 1)
  }

  lemma {:induction false} ClosersOnly(runes: string, end: nat, bound: nat, k: nat)
    requires end <= |runes| && end <= bound && end <= k < CloserEnd(runes, end, bound)
    ensures Closer(runes[k])
    decreases |runes| - end
  {
    if end >= k {
    } else {
      ClosersOnly(runes, end + 1, bound, k);
    }
  }

  lemma TerminatorsDoNotClose(c: char)
    ensures !(Terminator(c) && Closer(c))
  {}

  /** A later terminator ends later: sentences do not overlap. */
  lemma EndsGrow(runes: string, i: nat, j: nat, limit: nat)
    requires i < j < |runes| && j < limit && Terminator(runes[j])
    ensures SentenceEnd(runes, i, limit) <= j
  {
    TerminatorsDoNotClose(runes[j]);
    if j < SentenceEnd(runes, i, limit) {
      ClosersOnly(runes, i + 1, limit + CLOSER_SLACK, j);
    }
  }

  /** The cut is the greatest sentence end that is far enough, and 0 only if there is none. */
  lemma {:induction false} LastCutIsGreatest(runes: string, limit: nat, n: nat, i: nat)
    requires n <= |runes| && n <= limit && i < n && Cuttable(runes, i, limit)
    ensures SentenceEnd(runes, i, limit) <= LastCut(runes, limit, n)
    decreases n
  {
    if i >= n - 1 {
    } else {
      if Cuttable(runes, n - 1, limit) {
        EndsGrow(runes, i, n - 1, limit);
      } else {
        LastCutIsGreatest(runes, limit, n - 1, i);
      }
    }
  }

  /** The loop over the quotes and brackets behind a sentence. */
  method SkipClosers(runes: string, from: nat, bound: nat) returns (end: nat)
    requires from <= |runes| && from <= bound
    ensures end == CloserEnd(runes, from, bound)
  {
    end := from;
    while end < |runes| && end < bound && Closer(runes[end])
      invariant from <= end <= |runes| && end <= bound
      invariant CloserEnd(runes, end, bound) == CloserEnd(runes, from, bound)
      decreases |runes| - end
    {
      end := end + 1;
    }
  }

  /** The loop over terminators: remember the last sentence end that is far enough. */
  method Boundary(runes: string, limit: nat) returns (last: nat)
    ensures last == LastCut(runes, limit, if |runes| < limit then |runes| else limit)
  {
    last := 0;
    var i := 0;
    while i < |runes| && i < limit
      invariant i <= |runes| && i <= limit && last == LastCut(runes, limit, i)
    {
      if Terminator(runes[i]) {
        var end := SkipClosers(runes, i + 1, limit + CLOSER_SLACK);
        if end >= MIN_RUNES {
          last := end;
        }
      }
      i := i + 1;
    }
  }

  // ---------------------------------------------------------------- cutting

  /** Length of the next chunk; 0 means: wait for more text. */
  function NextCut(runes: string, final: bool): (cut: nat)
    ensures cut <= |runes| && cut <= MAX_RUNES + CLOSER_SLACK
    ensures cut == 0 || cut >= MIN_RUNES || (final && cut == |runes|)
    ensures final && runes != "" ==> cut > 0
    ensures |runes| >= MAX_RUNES ==> cut > 0
  {
    var limit := if |runes| > MAX_RUNES then MAX_RUNES else |runes|;
    var cut := LastCut(runes, limit, limit);
    if cut != 0 then cut
    else if |runes| >= MAX_RUNES then MAX_RUNES
    else if final then |runes|
    else 0
  }

  /** At the end of the answer: cut until nothing is left. */
  function CutAll(runes: string): seq<string>
    decreases |runes|
  {
    if runes == "" then []
    else
      var cut := NextCut(runes, true);
      [runes[..cut]] + CutAll(runes[cut..])
  }

  /** The chunks to send now, and the text to keep. */
  function Split(runes: string, ready: bool, final: bool): (seq<string>, string) {
    if final then (CutAll(runes), "")
    else if !ready || |runes| < MIN_RUNES || NextCut(runes, false) == 0 then ([], runes)
    else ([runes[..NextCut(runes, false)]], runes[NextCut(runes, false)..])
  }

  function Concat(chunks: seq<string>): string {
    if chunks == [] then "" else Concat(chunks[..|chunks| - 1]) + chunks[|chunks| - 1]
  }

  lemma {:induction false} ConcatCons(chunk: string, chunks: seq<string>)
    ensures Concat([chunk] + chunks) == chunk + Concat(chunks)
    decreases |chunks|
  {
    if chunks == [] {
      assert [chunk] + chunks == [chunk];
      assert [chunk][..0] == [];
    } else {
      var pre := chunks[..|chunks| - 1];
      assert ([chunk] + chunks)[..|chunks|] == [chunk] + pre;
      ConcatCons(chunk, pre);
    }
  }

  lemma {:induction false} ConcatAdd(a: seq<string>, b: seq<string>)
    ensures Concat(a + b) == Concat(a) + Concat(b)
    decreases |b|
  {
    if b == [] {
      assert a + b == a;
    } else {
      assert (a + b)[..|a + b| - 1] == a + b[..|b| - 1];
      ConcatAdd(a, b[..|b| - 1]);
    }
  }

  /** A chunk of a live answer. */
  predicate Sized(chunk: string) {
    80 <= |chunk| <= 608
  }

  /** All chunks are sized; only the very last may be short. */
  ghost predicate SizedExceptLast(chunks: seq<string>) {
    && (forall i :: 0 <= i < |chunks| - 1 ==> Sized(chunks[i]))
    && (chunks != [] ==> 0 < |chunks[|chunks| - 1]| <= 608)
  }

  /** One more chunk in front of chunks that were cut well. */
  lemma FirstChunk(runes: string, cut: nat, tail: seq<string>)
    requires 0 < cut <= |runes| && cut <= MAX_RUNES + CLOSER_SLACK && (cut >= MIN_RUNES || tail == [])
    requires Concat(tail) == runes[cut..] && SizedExceptLast(tail)
    ensures Concat([runes[..cut]] + tail) == runes && SizedExceptLast([runes[..cut]] + tail)
  {
    ConcatCons(runes[..cut], tail);
  }

  lemma {:induction false} CutAllKeeps(runes: string)
    ensures Concat(CutAll(runes)) == runes && SizedExceptLast(CutAll(runes))
    decreases |runes|
  {
    if runes == "" {
    } else {
      var cut := NextCut(runes, true);
      var rest := runes[cut..];
      CutAllKeeps(rest);
      assert cut < MIN_RUNES ==> rest == "" && CutAll(rest) == [];
      FirstChunk(runes, cut, CutAll(rest));
    }
  }

  /** Cutting loses and adds nothing, and every cut respects the bounds. */
  lemma SplitKeeps(runes: string, ready: bool, final: bool)
    ensures var (chunks, rest) := Split(runes, ready, final);
            && Concat(chunks) + rest == runes
            && (final ==> rest == "" && SizedExceptLast(chunks))
            && (!final ==> |chunks| <= 1 && forall i :: 0 <= i < |chunks| ==> Sized(chunks[i]))
            && (!final && ready && |runes| >= MAX_RUNES ==> |chunks| == 1)
  {
    if final {
      CutAllKeeps(runes);
    } else if ready && |runes| >= MIN_RUNES {
      var cut := NextCut(runes, false);
      assert [runes[..cut]][..0] == [] && Concat([]) == "";
    }
  }

  /** A sentence end within reach, or else the hard limit, or at the end everything. */
  method FindCut(runes: string, final: bool) returns (cut: nat)
    ensures cut == NextCut(runes, final)
  {
    var limit := |runes|;
    if limit > MAX_RUNES {
      limit := MAX_RUNES;
    }
    cut := Boundary(runes, limit);
    if cut == 0 {
      if |runes| >= MAX_RUNES {
        cut := MAX_RUNES;
      } else if final {
        cut := |runes|;
      }
    }
  }

  /** Cutting one chunk off moves it from what is left to what is done. */
  lemma CutOff(chunks: seq<string>, rest: string, cut: nat)
    requires rest != "" && cut == NextCut(rest, true)
    ensures 0 < cut <= |rest|
    ensures chunks + [rest[..cut]] + CutAll(rest[cut..]) == chunks + CutAll(rest)
  {
    assert CutAll(rest) == [rest[..cut]] + CutAll(rest[cut..]);
  }

  /** The splitting loop: one chunk while the answer is live, all of it at the end. */
  method SplitAnswer(value: string, ready: bool, final: bool) returns (chunks: seq<string>, rest: string)
    ensures (chunks, rest) == Split(value, ready, final)
  {
    chunks, rest := [], value;
    while |rest| > 0
      invariant !final ==> chunks == [] && rest == value
      invariant final ==> chunks + CutAll(rest) == CutAll(value)
    {
      if !final && (!ready || |rest| < MIN_RUNES) {
        return;
      }
      var cut := FindCut(rest, final);
      if cut == 0 {
        return;
      }
      if final {
        CutOff(chunks, rest, cut);
      }
      chunks, rest := chunks + [rest[..cut]], rest[cut..];
      if !final {
        assert chunks == [value[..cut]];
        return;
      }
    }
    assert final ==> chunks + [] == chunks;
  }
}
