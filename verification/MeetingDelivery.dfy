/**
 The delivery loop of a meeting answer: text events grow the answer, timer ticks
 cut chunks from the pending text, and the end of the stream sends what is left.
 */
module MeetingDelivery {
  import opened MeetingAnswer

  /** Encoded length of a rune. */
  function Width(c: char): nat {
    var n := c as int;
    if n < 0x80 then 1 else if n < 0x800 then 2 else if n < 0x10000 then 3 else 4
  }

  function Bytes(s: string): nat {
    if s == "" then 0 else Bytes(s[..|s| - 1]) + Width(s[|s| - 1])
  }

  /** Unicode white space. */
  predicate Space(c: char) {
    var n := c as int;
    || 0x09 <= n <= 0x0d || n in {0x20, 0x85, 0xa0, 0x1680} || 0x2000 <= n <= 0x200a
    || n in {0x2028, 0x2029, 0x202f, 0x205f, 0x3000}
  }

  predicate Blank(s: string) {
    forall i :: 0 <= i < |s| ==> Space(s[i])
  }

  /** What a report adds to the last one: its continuation, nothing, or all of it. */
  function Delta(previous: string, next: string): string {
    if previous == "" then next
    else if previous <= next then next[|previous|..]
    else if next <= previous then ""
    else next
  }

  /** `stream` is the reply mode; `armed` says that the flush timer is running. */
  datatype Delivery = Delivery(
    stream: bool, previous: string, answer: string, pending: string, armed: bool,
    chunks: seq<string>, open: bool, aborted: bool, observed: seq<string>)

  /** Which case of the loop fires: a text, the timer, the end of the stream, or cancellation. */
  datatype Action = Text(text: string) | Tick | Close | Cancel

  function Start(stream: bool): Delivery {
    Delivery(stream, "", "", "", false, [], true, false, [])
  }

  function Arm(d: Delivery): Delivery {
    d.(armed := d.armed || (d.stream && !Blank(d.pending)))
  }

  function DoText(d: Delivery, text: string): Delivery {
    if text == "" || text == "NO_REPLY" then d
    else
      var delta := Delta(d.previous, text);
      var previous := if Bytes(text) >= Bytes(d.previous) then text else d.previous;
      if delta == "" then d.(previous := previous)
      else
        var answer := d.answer + delta;
        var pending := if d.stream then d.pending + delta else d.pending;
        Arm(d.(previous := previous, answer := answer, pending := pending, observed := d.observed + [answer]))
  }

  function Flush(d: Delivery, final: bool): Delivery {
    var (chunks, rest) := Split(d.pending, true, final);
    d.(chunks := d.chunks + chunks, pending := rest)
  }

  function DoTick(d: Delivery): Delivery {
    if d.armed then Arm(Flush(d.(armed := false), false)) else d
  }

  function DoClose(d: Delivery): Delivery {
    if d.stream then Flush(d, true).(open := false, armed := false)
    else d.(chunks := if Blank(d.answer) then d.chunks else d.chunks + [d.answer], open := false, armed := false)
  }

  function Step(d: Delivery, a: Action): Delivery {
    if !d.open then d
    else
      match a
      case Text(text) => DoText(d, text)
      case Tick => DoTick(d)
      case Close => DoClose(d)
      case Cancel => d.(open := false, aborted := true, armed := false)
  }

  function Run(d: Delivery, acts: seq<Action>): Delivery {
    if acts == [] then d else Step(Run(d, acts[..|acts| - 1]), acts[|acts| - 1])
  }

  // ---------------------------------------------------------------- streaming

  /** While open: chunks + pending = answer, all chunks sized, and pending text has a timer. */
  ghost predicate Streaming(d: Delivery) {
    && d.stream && Concat(d.chunks) + d.pending == d.answer
    && (d.open ==> forall i :: 0 <= i < |d.chunks| ==> Sized(d.chunks[i]))
    && (d.armed <==> d.open && !Blank(d.pending))
    && (!d.open ==> (d.aborted || d.pending == "") && SizedExceptLast(d.chunks))
  }

  lemma Joined(sent: seq<string>, pending: string, answer: string, chunks: seq<string>, rest: string)
    requires Concat(sent) + pending == answer && Concat(chunks) + rest == pending
    ensures Concat(sent + chunks) + rest == answer
  {
    ConcatAdd(sent, chunks);
    assert Concat(sent) + Concat(chunks) + rest == Concat(sent) + (Concat(chunks) + rest);
  }

  lemma SizedTogether(sent: seq<string>, chunks: seq<string>)
    requires forall i :: 0 <= i < |sent| ==> Sized(sent[i])
    ensures (forall i :: 0 <= i < |chunks| ==> Sized(chunks[i])) ==> forall i :: 0 <= i < |sent + chunks| ==>
          Sized((sent + chunks)[i])
    ensures SizedExceptLast(chunks) ==> SizedExceptLast(sent + chunks)
  {}

  lemma FlushKeeps(d: Delivery, final: bool)
    requires Concat(d.chunks) + d.pending == d.answer && forall i :: 0 <= i < |d.chunks| ==> Sized(d.chunks[i])
    ensures var f := Flush(d, final);
            && Concat(f.chunks) + f.pending == f.answer && f.answer == d.answer
            && (final ==> f.pending == "" && SizedExceptLast(f.chunks))
            && (!final ==> forall i :: 0 <= i < |f.chunks| ==> Sized(f.chunks[i]))
  {
    var (chunks, rest) := Split(d.pending, true, final);
    SplitKeeps(d.pending, true, final);
    Joined(d.chunks, d.pending, d.answer, chunks, rest);
    SizedTogether(d.chunks, chunks);
  }

  lemma BlankGrows(a: string, b: string)
    ensures Blank(a + b) <==> Blank(a) && Blank(b)
  {
    assert forall i :: 0 <= i < |a| ==> (a + b)[i] == a[i];
    assert forall i :: 0 <= i < |b| ==> (a + b)[|a| + i] == b[i];
  }

  lemma TextKeeps(d: Delivery, text: string)
    requires Streaming(d) && d.open
    ensures Streaming(DoText(d, text))
  {
    var delta := Delta(d.previous, text);
    BlankGrows(d.pending, delta);
    assert Concat(d.chunks) + (d.pending + delta) == Concat(d.chunks) + d.pending + delta;
  }

  lemma StepKeeps(d: Delivery, a: Action)
    requires Streaming(d)
    ensures Streaming(Step(d, a))
  {
    if d.open {
      if a.Text? {
        TextKeeps(d, a.text);
      } else if a.Tick? {
        if d.armed {
          FlushKeeps(d.(armed := false), false);
        }
      } else if a.Close? {
        FlushKeeps(d, true);
      } else {
        SizedTogether(d.chunks, []);
      }
    }
  }

  lemma {:induction false} RunKeeps(acts: seq<Action>)
    ensures Streaming(Run(Start(true), acts))
  {
    if acts == [] {
    } else {
      RunKeeps(acts[..|acts| - 1]);
      StepKeeps(Run(Start(true), acts[..|acts| - 1]), acts[|acts| - 1]);
    }
  }

  /** Whatever the interleaving, the chunks and the pending text are the answer, in order. */
  lemma {:induction false} NothingLostOrRepeated(acts: seq<Action>)
    ensures var d := Run(Start(true), acts); Concat(d.chunks) + d.pending == d.answer
  {
    RunKeeps(acts);
  }

  /** A timer runs exactly as long as the stream is open and text is pending. */
  lemma {:induction false} PendingIsTimed(acts: seq<Action>)
    ensures var d := Run(Start(true), acts); d.armed <==> d.open && !Blank(d.pending)
  {
    RunKeeps(acts);
  }

  /** Every chunk is within its bounds; after a regular end everything is out and only the last may be short. */
  lemma {:induction false} ChunksAreSized(acts: seq<Action>)
    ensures var d := Run(Start(true), acts);
            && (d.open ==> forall i :: 0 <= i < |d.chunks| ==> Sized(d.chunks[i]))
            && (!d.open ==> SizedExceptLast(d.chunks) && (d.aborted || Concat(d.chunks) == d.answer))
  {
    RunKeeps(acts);
    var d := Run(Start(true), acts);
    assert Concat(d.chunks) + "" == Concat(d.chunks);
  }

  // ---------------------------------------------------------------- cumulative reports

  lemma {:induction false} BytesGrow(a: string, b: string)
    requires a <= b
    ensures Bytes(a) <= Bytes(b)
    decreases |b|
  {
    if |a| == |b| {
      assert a == b;
    } else {
      BytesGrow(a, b[..|b| - 1]);
    }
  }

  /** A stream of texts that each continue the one before. */
  ghost predicate Cumulative(texts: seq<string>) {
    && (forall i :: 0 <= i < |texts| ==> texts[i] != "" && texts[i] != "NO_REPLY")
    && (forall i :: 0 < i < |texts| ==> texts[i - 1] <= texts[i])
  }

  function Texts(texts: seq<string>): seq<Action> {
    seq(|texts|, i requires 0 <= i < |texts| => Text(texts[i]))
  }

  /** Reports that repeat and extend the text so far add up to the last report. */
  lemma {:induction false} CumulativeAnswer(stream: bool, texts: seq<string>)
    requires Cumulative(texts) && texts != []
    ensures var d := Run(Start(stream), Texts(texts));
            var last := texts[|texts| - 1];
            d.answer == last && d.previous == last && d.open && d.stream == stream
    decreases |texts|
  {
    var n := |texts| - 1;
    var last := texts[n];
    assert Texts(texts)[..n] == Texts(texts[..n]);
    if n == 0 {
      assert Texts(texts[..0]) == [];
    } else {
      CumulativeAnswer(stream, texts[..n]);
      ContinuedText(Run(Start(stream), Texts(texts[..n])), texts[n - 1], last);
    }
  }

  lemma ContinuedText(d: Delivery, before: string, text: string)
    requires d.answer == before && d.previous == before && before != "" && before <= text && text != "NO_REPLY"
    ensures var t := DoText(d, text);
            t.answer == text && t.previous == text && t.open == d.open && t.stream == d.stream
  {
    BytesGrow(before, text);
    assert before + text[|before|..] == text;
  }

  // ---------------------------------------------------------------- the loop

  /** The event loop over whatever the select statement picks, with its local variables. */
  method Deliver(stream: bool, acts: seq<Action>) returns (d: Delivery)
    ensures d == Run(Start(stream), acts)
  {
    var previous, answer, pending := "", "", "";
    var armed, open, aborted := false, true, false;
    var chunks: seq<string>, observed: seq<string> := [], [];
    var i := 0;
    assert acts[..0] == [];
    while i < |acts|
      invariant i <= |acts|
      invariant Delivery(stream, previous, answer, pending, armed, chunks, open, aborted, observed)
                == Run(Start(stream), acts[..i])
    {
      assert acts[..i + 1][..i] == acts[..i];
      if open {
        match acts[i] {
          case Text(text) =>
            if text != "" && text != "NO_REPLY" {
              var delta := Delta(previous, text);
              if Bytes(text) >= Bytes(previous) {
                previous := text;
              }
              if delta != "" {
                answer := answer + delta;
                observed := observed + [answer];
                if stream {
                  pending := pending + delta;
                }
                armed := armed || (stream && !Blank(pending));
              }
            }
          case Tick =>
            if armed {
              var cut, rest := SplitAnswer(pending, true, false);
              chunks, pending := chunks + cut, rest;
              armed := stream && !Blank(pending);
            }
          case Close =>
            if stream {
              var cut, rest := SplitAnswer(pending, true, true);
              chunks, pending := chunks + cut, rest;
            } else if !Blank(answer) {
              chunks := chunks + [answer];
            }
            open, armed := false, false;
          case Cancel =>
            open, aborted, armed := false, true, false;
        }
      }
      i := i + 1;
    }
    assert acts[..i] == acts;
    d := Delivery(stream, previous, answer, pending, armed, chunks, open, aborted, observed);
  }
}
