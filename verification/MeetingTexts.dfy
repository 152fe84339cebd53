/**
 What a meeting answer consists of, told by the texts that arrive: each adds what it
 has beyond the longest text so far.  The final mode sends the whole answer at once.
 */
module MeetingTexts {
  import opened MeetingAnswer
  import opened MeetingCuts
  import opened MeetingDelivery

  // ---------------------------------------------------------------- the texts that count

  /** The stream has ended or was given up. */
  predicate Ended(acts: seq<Action>) {
    acts != [] && (Ended(acts[..|acts| - 1]) || acts[|acts| - 1].Close? || acts[|acts| - 1].Cancel?)
  }

  /** It ended regularly: its end came before any cancellation. */
  predicate EndedRegularly(acts: seq<Action>) {
    acts != [] && (EndedRegularly(acts[..|acts| - 1]) || (!Ended(acts[..|acts| - 1]) && acts[|acts| - 1].Close?))
  }

  /** The texts before the end; empty ones and the marker for silence are skipped. */
  function Accepted(acts: seq<Action>): seq<string> {
    if acts == [] then []
    else
      var pre, a := acts[..|acts| - 1], acts[|acts| - 1];
      if a.Text? && a.text != "" && a.text != "NO_REPLY" && !Ended(pre) then Accepted(pre) + [a.text]
      else Accepted(pre)
  }

  /** The longest text so far; of several, the latest. */
  function Longest(texts: seq<string>): string {
    if texts == [] then ""
    else
      var before, last := Longest(texts[..|texts| - 1]), texts[|texts| - 1];
      if Bytes(last) >= Bytes(before) then last else before
  }

  lemma {:induction false} LongestIs(texts: seq<string>) returns (k: nat)
    requires texts != []
    ensures k < |texts| && texts[k] == Longest(texts)
    ensures forall j :: 0 <= j < k ==> Bytes(texts[j]) <= Bytes(Longest(texts))
    ensures forall j :: k < j < |texts| ==> Bytes(texts[j]) < Bytes(Longest(texts))
  {
    var pre, n := texts[..|texts| - 1], |texts| - 1;
    if pre == [] {
      k := 0;
    } else {
      k := LongestIs(pre);
      assert forall j :: 0 <= j < |pre| ==> Bytes(pre[j]) == Bytes(texts[j]);
      if Bytes(texts[n]) >= Bytes(Longest(pre)) {
        k := n;
      }
    }
  }

  // ---------------------------------------------------------------- what a text adds

  /**
   A text that continues the longest one so far adds its continuation, one that is a beginning of
   it adds nothing, and any other one adds all of itself.
   */
  ghost predicate Adds(before: string, text: string, piece: string) {
    && (before <= text ==> before + piece == text)
    && (text <= before && text != before ==> piece == "")
    && (!(before <= text) && !(text <= before) ==> piece == text)
  }

  ghost predicate AddsUp(texts: seq<string>, pieces: seq<string>) {
    |pieces| == |texts| && forall k :: 0 <= k < |texts| ==> Adds(Longest(texts[..k]), texts[k], pieces[k])
  }

  /** The answer whenever it grows. */
  function Growing(pieces: seq<string>): seq<string> {
    if pieces == [] then []
    else Growing(pieces[..|pieces| - 1]) + (if pieces[|pieces| - 1] == "" then [] else [Concat(pieces)])
  }

  lemma MorePieces(texts: seq<string>, pieces: seq<string>, text: string, piece: string)
    requires AddsUp(texts, pieces) && Adds(Longest(texts), text, piece)
    ensures AddsUp(texts + [text], pieces + [piece])
    ensures Concat(pieces + [piece]) == Concat(pieces) + piece
    ensures Growing(pieces + [piece]) == Growing(pieces) + (if piece == "" then [] else [Concat(pieces) + piece])
    ensures Longest(texts + [text]) == if Bytes(text) >= Bytes(Longest(texts)) then text else Longest(texts)
  {
    var all := texts + [text];
    assert all[..|texts|] == texts && (pieces + [piece])[..|pieces|] == pieces;
    forall k | 0 <= k < |all| ensures Adds(Longest(all[..k]), all[k], (pieces + [piece])[k]) {
      if k < |texts| {
        assert all[..k] == texts[..k];
      }
    }
  }

  /** How far the loop has come with these pieces. */
  ghost predicate Made(d: Delivery, acts: seq<Action>, pieces: seq<string>) {
    && AddsUp(Accepted(acts), pieces) && d.answer == Concat(pieces) && d.observed == Growing(pieces)
    && d.previous == Longest(Accepted(acts)) && (d.open <==> !Ended(acts))
  }

  lemma DeltaAdds(before: string, text: string)
    ensures Adds(before, text, Delta(before, text))
  {
    if before == "" {
      assert before + text == text;
    }
  }

  lemma TextMakes(d: Delivery, acts: seq<Action>, pieces: seq<string>, text: string) returns (more: seq<string>)
    requires d.open && Made(d, acts, pieces)
    ensures Made(DoText(d, text), acts + [Text(text)], more)
  {
    var all := acts + [Text(text)];
    assert all[..|acts|] == acts;
    if text == "" || text == "NO_REPLY" {
      more := pieces;
    } else {
      var piece := Delta(d.previous, text);
      more := pieces + [piece];
      DeltaAdds(d.previous, text);
      MorePieces(Accepted(acts), pieces, text, piece);
      TextGives(d, text);
      assert Accepted(all) == Accepted(acts) + [text];
    }
  }

  lemma TextGives(d: Delivery, text: string)
    requires text != "" && text != "NO_REPLY"
    ensures var t, piece := DoText(d, text), Delta(d.previous, text);
            && t.answer == d.answer + piece && t.open == d.open
            && t.observed == d.observed + (if piece == "" then [] else [d.answer + piece])
            && t.previous == if Bytes(text) >= Bytes(d.previous) then text else d.previous
  {
    assert d.answer + "" == d.answer;
  }

  lemma OtherMakes(d: Delivery, acts: seq<Action>, pieces: seq<string>, a: Action)
    requires Made(d, acts, pieces) && (!d.open || !a.Text?)
    ensures Made(Step(d, a), acts + [a], pieces)
  {
    assert (acts + [a])[..|acts|] == acts;
  }

  lemma {:induction false} RunMakes(stream: bool, acts: seq<Action>) returns (pieces: seq<string>)
    ensures Made(Run(Start(stream), acts), acts, pieces)
  {
    if acts == [] {
      pieces := [];
    } else {
      var pre, a := acts[..|acts| - 1], acts[|acts| - 1];
      pieces := RunMakes(stream, pre);
      var d := Run(Start(stream), pre);
      assert acts == pre + [a];
      if d.open && a.Text? {
        pieces := TextMakes(d, pre, pieces, a.text);
      } else {
        OtherMakes(d, pre, pieces, a);
      }
    }
  }

  // ---------------------------------------------------------------- theorems

  /**
   Whatever texts arrive, the answer is the concatenation of what each of them adds to the
   longest one before it, and the observer is shown the answer whenever it grows.
   */
  lemma {:induction false} AnswerAddsUp(stream: bool, acts: seq<Action>)
    ensures var d := Run(Start(stream), acts);
            exists pieces :: AddsUp(Accepted(acts), pieces) && d.answer == Concat(pieces)
              && d.observed == Growing(pieces)
  {
    var pieces := RunMakes(stream, acts);
  }

  /** None of the texts is the beginning of another one. */
  ghost predicate Unrelated(texts: seq<string>) {
    forall i, j :: 0 <= i < |texts| && 0 <= j < |texts| && i != j ==> !(texts[i] <= texts[j])
  }

  /** Texts of which none is the beginning of another one are all kept. */
  lemma {:induction false} UnrelatedTextsAreKept(stream: bool, acts: seq<Action>)
    requires Unrelated(Accepted(acts))
    ensures Run(Start(stream), acts).answer == Concat(Accepted(acts))
  {
    var pieces := RunMakes(stream, acts);
    AllKept(Accepted(acts), pieces);
  }

  lemma AllKept(texts: seq<string>, pieces: seq<string>)
    requires AddsUp(texts, pieces) && Unrelated(texts)
    ensures pieces == texts
  {
    forall k | 0 <= k < |texts| ensures pieces[k] == texts[k] {
      if k == 0 {
        assert "" + pieces[0] == pieces[0];
      } else {
        var j := LongestIs(texts[..k]);
        assert Longest(texts[..k]) == texts[j];
      }
    }
  }

  /** In final mode nothing is pending, and nothing is sent before a regular end. */
  ghost predicate Finally(d: Delivery) {
    && !d.stream && !d.armed && d.pending == "" && (d.aborted ==> !d.open)
    && (d.open || d.aborted ==> d.chunks == [])
    && (!d.open && !d.aborted ==> d.chunks == if Blank(d.answer) then [] else [d.answer])
  }

  lemma FinalStep(d: Delivery, a: Action)
    requires Finally(d)
    ensures Finally(Step(d, a))
  {}

  lemma {:induction false} FinalRun(acts: seq<Action>)
    ensures var d := Run(Start(false), acts);
            Finally(d) && (d.open <==> !Ended(acts)) && (!d.open && !d.aborted <==> EndedRegularly(acts))
  {
    if acts == [] {
    } else {
      FinalRun(acts[..|acts| - 1]);
      FinalStep(Run(Start(false), acts[..|acts| - 1]), acts[|acts| - 1]);
    }
  }

  /** In final mode the whole answer is sent, unless it is blank, exactly when the stream ends regularly. */
  lemma {:induction false} FinalModeSendsOnce(acts: seq<Action>)
    ensures var d := Run(Start(false), acts);
            && d.pending == "" && !d.armed
            && d.chunks == if EndedRegularly(acts) && !Blank(d.answer) then [d.answer] else []
  {
    FinalRun(acts);
  }

  // ---------------------------------------------------------------- timers and lengths

  /**
   When the timer of a streamed answer fires, exactly one chunk is sent, cut at the next place,
   if there is one or 600 runes are pending; the timer runs on as long as text is pending.
   */
  lemma {:induction false} TickSendsOne(acts: seq<Action>)
    requires Run(Start(true), acts).armed
    ensures var d := Run(Start(true), acts);
            var t := Step(d, Tick);
            && t.open && t.answer == d.answer && (t.armed <==> !Blank(t.pending))
            && if |d.pending| >= 600 || exists cut: nat :: MayCut(d.pending, cut)
               then exists chunk: string :: chunk != "" && t.chunks == d.chunks + [chunk]
                      && chunk + t.pending == d.pending && |chunk| == NextCut(d.pending, false)
               else t.chunks == d.chunks && t.pending == d.pending
  {
    RunKeeps(acts);
    var d := Run(Start(true), acts);
    StepKeeps(d, Tick);
    LiveSplitIs(d.pending, true);
    var (chunks, rest) := Split(d.pending, true, false);
    if chunks != [] {
      assert chunks == [chunks[0]];
    }
  }

  /** The encoding of a rune, by section 3 of RFC 3629. */
  function Utf8(c: char): seq<int> {
    var n := c as int;
    if n < 0x80 then [n]
    else if n < 0x800 then [0xc0 + n / 0x40, 0x80 + n % 0x40]
    else if n < 0x10000 then [0xe0 + n / 0x1000, 0x80 + n / 0x40 % 0x40, 0x80 + n % 0x40]
    else [0xf0 + n / 0x40000, 0x80 + n / 0x1000 % 0x40, 0x80 + n / 0x40 % 0x40, 0x80 + n % 0x40]
  }

  function Encoded(s: string): seq<int> {
    if s == "" then [] else Encoded(s[..|s| - 1]) + Utf8(s[|s| - 1])
  }

  /** Texts are compared by the length of their encoding. */
  lemma {:induction false} BytesAreEncoded(s: string)
    ensures Bytes(s) == |Encoded(s)| && forall i :: 0 <= i < |Encoded(s)| ==> 0 <= Encoded(s)[i] < 0x100
  {
    if s == "" {
    } else {
      BytesAreEncoded(s[..|s| - 1]);
    }
  }
}
