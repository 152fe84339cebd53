/**
 Where messages are routed, told by the attempts that were made: to the group the
 platform made for them, or to a topic of their own after a refusal; and what is on
 record once a message is routed.
 */
module GroupRoutes {
  import opened Prelude
  import opened GroupRouting

  /** Some attempt for this message got this answer. */
  ghost predicate Answered(attempts: seq<Attempt>, m: nat, answer: Answer) {
    exists i :: 0 <= i < |attempts| && attempts[i].message == m && attempts[i].answer == answer
  }

  lemma AnsweredLater(attempts: seq<Attempt>, a: Attempt, m: nat, answer: Answer)
    ensures Answered(attempts, m, answer) ==> Answered(attempts + [a], m, answer)
    ensures a.message == m && a.answer == answer ==> Answered(attempts + [a], m, answer)
  {
    var all := attempts + [a];
    if i :| 0 <= i < |attempts| && attempts[i].message == m && attempts[i].answer == answer {
      assert all[i] == attempts[i];
    }
    assert all[|attempts|] == a;
  }

  // ---------------------------------------------------------------- what is on record

  /** The outcome is what the platform answered. */
  ghost predicate BirthOk(attempts: seq<Attempt>, m: nat, b: Birth) {
    && (b.chat.Some? ==> Answered(attempts, m, Made(b.chat.value)))
    && (b.fallback ==> Answered(attempts, m, Refused))
  }

  /** All recorded outcomes are, and every call has a record. */
  ghost predicate RecordsOk(attempts: seq<Attempt>, w: World) {
    && TopicsOk(w)
    && (forall m :: m in w.births ==> BirthOk(attempts, m, w.births[m]))
    && (forall i :: 0 <= i < |w.calls| ==> w.calls[i].message in w.births)
  }

  ghost predicate RouteOk(attempts: seq<Attempt>, r: Routed) {
    match r.key
    case Chat(chat) => Answered(attempts, r.message, Made(chat))
    case Topic(root) => root == r.message && (Answered(attempts, root, Refused) || Answered(attempts, root, Blank))
  }

  ghost predicate RoutesAnswered(attempts: seq<Attempt>, w: World) {
    forall i :: 0 <= i < |w.routed| ==> RouteOk(attempts, w.routed[i])
  }

  lemma RecordsLater(attempts: seq<Attempt>, a: Attempt, w: World)
    requires RecordsOk(attempts, w) && RoutesAnswered(attempts, w)
    ensures RecordsOk(attempts + [a], w) && RoutesAnswered(attempts + [a], w)
  {
    forall m, answer ensures Answered(attempts, m, answer) ==> Answered(attempts + [a], m, answer) {
      AnsweredLater(attempts, a, m, answer);
    }
  }

  lemma SettleRecords(attempts: seq<Attempt>, w: World, a: Attempt)
    requires RecordsOk(attempts, w) && Answered(attempts, a.message, a.answer)
    ensures var (t, b) := Settle(w, a);
            && RecordsOk(attempts, t) && t.routed == w.routed
            && (b.Some? ==> BirthOk(attempts, a.message, b.value))
            && (b.Some? && b.value.chat.None? ==> b.value.fallback || Answered(attempts, a.message, Blank))
  {
    var b := BirthOf(w, a.message);
    assert BirthOk(attempts, a.message, b) && BirthOk(attempts, a.message, AfterAnswer(b, a.answer));
  }

  lemma TryRecords(attempts: seq<Attempt>, w: World, a: Attempt)
    requires RecordsOk(attempts, w) && RoutesAnswered(attempts, w) && Answered(attempts, a.message, a.answer)
    ensures RecordsOk(attempts, Try(w, a)) && RoutesAnswered(attempts, Try(w, a))
  {
    SettleRecords(attempts, w, a);
  }

  lemma {:induction false} RunRecords(channel: nat, attempts: seq<Attempt>)
    ensures var w := Run(Start(channel), attempts); RecordsOk(attempts, w) && RoutesAnswered(attempts, w)
  {
    if attempts == [] {
    } else {
      var pre, a := attempts[..|attempts| - 1], attempts[|attempts| - 1];
      RunRecords(channel, pre);
      RecordsLater(pre, a, Run(Start(channel), pre));
      assert attempts == pre + [a] && attempts[|pre|] == a;
      TryRecords(attempts, Run(Start(channel), pre), a);
    }
  }

  // ---------------------------------------------------------------- theorems

  /**
   A message goes to a group only if the platform made that group for it, and to a topic only
   to its own one, after the platform refused or named no group.
   */
  lemma {:induction false} RoutedAsAnswered(channel: nat, attempts: seq<Attempt>, i: nat)
    requires i < |Run(Start(channel), attempts).routed|
    ensures RouteOk(attempts, Run(Start(channel), attempts).routed[i])
  {
    RunRecords(channel, attempts);
  }

  /** Before the platform is asked for a group, the message has a record. */
  lemma {:induction false} CallsAreRecorded(channel: nat, attempts: seq<Attempt>, i: nat)
    requires i < |Run(Start(channel), attempts).calls|
    ensures Run(Start(channel), attempts).calls[i].message in Run(Start(channel), attempts).births
  {
    RunRecords(channel, attempts);
  }

  /** The message leaves for a group: one is on record, or the platform makes one now. */
  predicate ToGroup(w: World, a: Attempt) {
    var b := BirthOf(w, a.message);
    b.chat.Some? || (!b.fallback && a.answer.Made?)
  }

  /** All that has to work: reading, the two writes around a needed call, and the writes of the way in. */
  predicate Works(w: World, a: Attempt) {
    && a.readable
    && (Decided(BirthOf(w, a.message)) || (a.before.Applied? && !a.answer.Unclear? && a.after.Applied?))
    && (if ToGroup(w, a) then a.dedicate.Applied? && a.mode.Applied? else a.alias.Applied?)
  }

  /** The outcome is on record, and so is the owner of the group or the topic of the message. */
  ghost predicate OnRecord(t: World, a: Attempt, r: Routed) {
    && r.message == a.message && a.message in t.births
    && match r.key
       case Chat(chat) => t.births[a.message].chat == Some(chat) && chat in t.dedicated && t.dedicated[chat] == a.user
       case Topic(root) => t.births[a.message].chat.None? && root in t.topics && t.topics[root] == Topic(root)
  }

  /** An attempt routes its message exactly if everything it needs works; all of it is on record then. */
  lemma {:induction false} RoutesExactly(channel: nat, attempts: seq<Attempt>, a: Attempt)
    ensures var w := Run(Start(channel), attempts);
            var t := Try(w, a);
            if Works(w, a)
            then |t.routed| == |w.routed| + 1 && OnRecord(t, a, t.routed[|w.routed|])
                 && (t.routed[|w.routed|].key.Chat? <==> ToGroup(w, a))
            else t.routed == w.routed
  {
    RunRecords(channel, attempts);
  }

  /** The platform is asked exactly if nothing is decided and the record of the attempt was written. */
  lemma {:induction false} CallsExactly(channel: nat, attempts: seq<Attempt>, a: Attempt)
    ensures var w := Run(Start(channel), attempts);
            var t := Try(w, a);
            if a.readable && !Decided(BirthOf(w, a.message)) && a.before.Applied?
            then t.calls == w.calls + [Call(a.message, channel, a.message)]
            else t.calls == w.calls
  {
    RunDecides(Start(channel), attempts, a.message);
  }
}
