/**
 Group-mode routing: a private message is moved into a group created for it.  The
 attempt can fail at every store write and in the creation call, and is repeated
 for the same message; what was decided must not change on the way.
 */
module GroupRouting {
  import opened Prelude

  /** The platform's answer; `Blank` is a success without a chat id. */
  datatype Answer = Made(chat: nat) | Blank | Refused | Unclear

  /** The persisted outcome of creating a group for a message. */
  datatype Birth = Birth(chat: Option<nat>, fallback: bool)

  /** Where a message goes: a whole chat, or the topic rooted at a message. */
  datatype Key = Chat(chat: nat) | Topic(root: nat)

  /** A creation call and its idempotency key: channel and message. */
  datatype Call = Call(message: nat, channel: nat, token: nat)

  datatype Routed = Routed(message: nat, key: Key)

  datatype World = World(
    channel: nat,
    births: map<nat, Birth>,
    topics: map<nat, Key>,
    dedicated: map<nat, nat>,
    calls: seq<Call>,
    routed: seq<Routed>)

  /** One attempt to route `message`: what its reads, writes and the platform do. */
  datatype Attempt = Attempt(
    message: nat, user: nat, readable: bool, legacy: bool,
    before: Write, answer: Answer, after: Write, dedicate: Write, mode: Write, alias: Write)

  function Start(channel: nat): World {
    World(channel, map[], map[], map[], [], [])
  }

  function BirthOf(w: World, m: nat): Birth {
    if m in w.births then w.births[m] else Birth(None, false)
  }

  predicate Decided(b: Birth) {
    b.chat.Some? || b.fallback
  }

  function Save(births: map<nat, Birth>, m: nat, b: Birth, out: Write): map<nat, Birth> {
    if out.FailedLost? then births else births[m := b]
  }

  function AfterAnswer(b: Birth, a: Answer): Birth {
    match a
    case Made(chat) => Birth(Some(chat), b.fallback)
    case Refused => Birth(b.chat, true)
    case _ => b
  }

  /** The topic of an own message: a conversation that exists already, a stored alias, or a new one. */
  function TopicKey(w: World, m: nat, legacy: bool): Key {
    if legacy then Topic(m) else if m in w.topics then w.topics[m] else Topic(m)
  }

  /** Decide where the group is, asking the platform at most once; None is an error. */
  function Settle(w: World, a: Attempt): (World, Option<Birth>) {
    var b := BirthOf(w, a.message);
    if Decided(b) then (w, Some(b))
    else
      var w1 := w.(births := Save(w.births, a.message, b, a.before));
      if !a.before.Applied? then (w1, None)
      else
        var w2 := w1.(calls := w1.calls + [Call(a.message, w.channel, a.message)]);
        if a.answer.Unclear? then (w2, None)
        else
          var b' := AfterAnswer(b, a.answer);
          var w3 := w2.(births := Save(w2.births, a.message, b', a.after));
          (w3, if a.after.Applied? then Some(b') else None)
  }

  function Put(table: map<nat, nat>, k: nat, v: nat, out: Write): map<nat, nat> {
    if out.FailedLost? then table else table[k := v]
  }

  /** Enter the group that was found. */
  function EnterGroup(w: World, a: Attempt, chat: nat): World {
    var w1 := w.(dedicated := Put(w.dedicated, chat, a.user, a.dedicate));
    if a.dedicate.Applied? && a.mode.Applied?
    then w1.(routed := w1.routed + [Routed(a.message, Chat(chat))]) else w1
  }

  /** Stay in the private chat, in a topic of its own. */
  function EnterTopic(w: World, a: Attempt, key: Key): World {
    var w1 := w.(topics := if a.alias.FailedLost? then w.topics else w.topics[a.message := key]);
    if a.alias.Applied? then w1.(routed := w1.routed + [Routed(a.message, key)]) else w1
  }

  function Try(w: World, a: Attempt): World {
    if !a.readable then w
    else
      var key := TopicKey(w, a.message, a.legacy);
      var (w1, b) := Settle(w, a);
      if b.None? then w1
      else if b.value.chat.Some? then EnterGroup(w1, a, b.value.chat.value)
      else EnterTopic(w1, a, key)
  }

  function Run(w: World, attempts: seq<Attempt>): World {
    if attempts == [] then w else Try(Run(w, attempts[..|attempts| - 1]), attempts[|attempts| - 1])
  }

  // ---------------------------------------------------------------- invariant

  /** The key a decided message is routed to. */
  function KeyOf(m: nat, b: Birth): Key {
    if b.chat.Some? then Chat(b.chat.value) else Topic(m)
  }

  /** Every call for a message carries the channel and that message as its token. */
  ghost predicate CallsOk(w: World) {
    forall i :: 0 <= i < |w.calls| ==> w.calls[i].token == w.calls[i].message && w.calls[i].channel == w.channel
  }

  ghost predicate TopicsOk(w: World) {
    forall m :: m in w.topics ==> w.topics[m] == Topic(m)
  }

  /** Message `m` was only ever routed where its recorded outcome says. */
  ghost predicate RoutesOk(w: World, m: nat) {
    forall i :: 0 <= i < |w.routed| && w.routed[i].message == m ==>
      Decided(BirthOf(w, m)) && w.routed[i].key == KeyOf(m, BirthOf(w, m))
  }

  // ---------------------------------------------------------------- each attempt

  /** Settling answers from the record, or changes only the record of this message. */
  lemma SettleIs(w: World, a: Attempt)
    ensures var (t, b) := Settle(w, a);
            && t.topics == w.topics && t.routed == w.routed && t.channel == w.channel
            && (forall m :: m != a.message ==> BirthOf(t, m) == BirthOf(w, m))
            && (b.Some? ==> BirthOf(t, a.message) == b.value)
            && (Decided(BirthOf(w, a.message)) ==> t == w && b.Some?)
            && (b.Some? && !Decided(b.value) ==> a.answer.Blank? && |t.calls| > |w.calls|)
            && w.calls <= t.calls
            && (forall i :: |w.calls| <= i < |t.calls| ==> t.calls[i] == Call(a.message, w.channel, a.message))
  {}

  /** An attempt keeps what is decided and calls the platform only for what is not. */
  lemma TryIs(w: World, a: Attempt)
    requires TopicsOk(w)
    ensures var t := Try(w, a);
            && TopicsOk(t) && t.channel == w.channel && w.calls <= t.calls
            && (forall m :: m != a.message || Decided(BirthOf(w, m)) ==> BirthOf(t, m) == BirthOf(w, m))
            && (forall i :: |w.calls| <= i < |t.calls| ==>
                  t.calls[i] == Call(a.message, w.channel, a.message) && !Decided(BirthOf(w, a.message)))
            && (t.routed == w.routed ||
                t.routed == w.routed + [Routed(a.message, KeyOf(a.message, BirthOf(t, a.message)))])
            && (t.routed != w.routed ==>
                  Decided(BirthOf(t, a.message)) || (a.answer.Blank? && |t.calls| > |w.calls|))
  {
    SettleIs(w, a);
  }

  lemma TryRoutes(w: World, a: Attempt, m: nat)
    requires TopicsOk(w) && RoutesOk(w, m) && (a.message == m && a.answer.Blank? ==> Try(w, a).calls == w.calls)
    ensures RoutesOk(Try(w, a), m)
  {
    TryIs(w, a);
  }

  // ---------------------------------------------------------------- runs

  /** No call for `m` was answered blank; what attempts that do not call would get is open. */
  ghost predicate NeverBlank(w: World, attempts: seq<Attempt>, m: nat) {
    forall i :: 0 <= i < |attempts| ==> NotBlankAt(w, attempts, m, i)
  }

  ghost predicate NotBlankAt(w: World, attempts: seq<Attempt>, m: nat, i: nat)
    requires i < |attempts|
  {
    var before := Run(w, attempts[..i]);
    attempts[i].message == m && attempts[i].answer.Blank? ==> Try(before, attempts[i]).calls == before.calls
  }

  /** Whatever the platform answers, a recorded outcome stays and ends the calls. */
  lemma {:induction false} RunDecides(w: World, attempts: seq<Attempt>, m: nat)
    requires TopicsOk(w) && CallsOk(w)
    ensures var t := Run(w, attempts);
            && TopicsOk(t) && CallsOk(t) && t.channel == w.channel && w.calls <= t.calls
            && (Decided(BirthOf(w, m)) ==> BirthOf(t, m) == BirthOf(w, m))
            && (Decided(BirthOf(w, m)) ==> forall i :: |w.calls| <= i < |t.calls| ==> t.calls[i].message != m)
  {
    if attempts == [] {
    } else {
      var pre, a := attempts[..|attempts| - 1], attempts[|attempts| - 1];
      RunDecides(w, pre, m);
      TryIs(Run(w, pre), a);
    }
  }

  lemma {:induction false} RunRoutes(w: World, attempts: seq<Attempt>, m: nat)
    requires TopicsOk(w) && CallsOk(w) && RoutesOk(w, m) && (NeverBlank(w, attempts, m) || Decided(BirthOf(w, m)))
    ensures RoutesOk(Run(w, attempts), m) && w.routed <= Run(w, attempts).routed
  {
    if attempts == [] {
    } else {
      var pre, a := attempts[..|attempts| - 1], attempts[|attempts| - 1];
      if NeverBlank(w, attempts, m) {
        forall i | 0 <= i < |pre| ensures NotBlankAt(w, pre, m, i) {
          assert pre[..i] == attempts[..i] && NotBlankAt(w, attempts, m, i);
        }
        assert NotBlankAt(w, attempts, m, |pre|);
      }
      RunRoutes(w, pre, m);
      RunDecides(w, pre, m);
      TryIs(Run(w, pre), a);
      TryRoutes(Run(w, pre), a, m);
    }
  }

  /** Any two successful routings of a message give the same key. */
  lemma {:induction false} RoutingsAgree(channel: nat, attempts: seq<Attempt>, m: nat, i: nat, j: nat)
    requires NeverBlank(Start(channel), attempts, m)
    requires var w := Run(Start(channel), attempts);
             i < |w.routed| && j < |w.routed| && w.routed[i].message == m && w.routed[j].message == m
    ensures var w := Run(Start(channel), attempts); w.routed[i].key == w.routed[j].key
  {
    RunRoutes(Start(channel), attempts, m);
  }

  /** All creation calls for a message carry one token, and none comes after its outcome is recorded. */
  lemma {:induction false} CallsAreIdempotent(channel: nat, attempts: seq<Attempt>, more: seq<Attempt>, m: nat)
    ensures var w := Run(Start(channel), attempts);
            var t := Run(Start(channel), attempts + more);
            && (forall i, j :: 0 <= i < |t.calls| && 0 <= j < |t.calls| && t.calls[i].message == t.calls[j].message ==>
                  t.calls[i] == t.calls[j])
            && w.calls <= t.calls
            && (Decided(BirthOf(w, m)) ==> forall i :: |w.calls| <= i < |t.calls| ==> t.calls[i].message != m)
  {
    RunDecides(Start(channel), attempts, m);
    RunConcat(Start(channel), attempts, more);
    RunDecides(Run(Start(channel), attempts), more, m);
  }

  lemma {:induction false} RunConcat(w: World, a: seq<Attempt>, b: seq<Attempt>)
    ensures Run(w, a + b) == Run(Run(w, a), b)
    decreases |b|
  {
    if b == [] {
      assert a + b == a;
    } else {
      RunConcat(w, a, b[..|b| - 1]);
      assert (a + b)[..|a + b| - 1] == a + b[..|b| - 1];
    }
  }

  // ---------------------------------------------------------------- exactly when

  /** All routings of `m` give this key. */
  ghost predicate AlwaysTo(w: World, m: nat, key: Key) {
    forall i :: 0 <= i < |w.routed| && w.routed[i].message == m ==> w.routed[i].key == key
  }

  function Smooth(m: nat): Attempt {
    Attempt(m, 0, true, false, Applied, Made(0), Applied, Applied, Applied, Applied)
  }

  /**
   After an attempt that routed the message, every later one gives the same key if
   and only if the outcome was on record or the platform did not answer blank.
   */
  lemma StableExactly(w: World, a: Attempt)
    requires TopicsOk(w) && CallsOk(w) && RoutesOk(w, a.message) && Try(w, a).routed != w.routed
    ensures var t := Try(w, a);
            var key := t.routed[|t.routed| - 1].key;
            (forall more: seq<Attempt> :: AlwaysTo(Run(t, more), a.message, key)) <==>
            (Decided(BirthOf(w, a.message)) || !a.answer.Blank?)
  {
    var m, t := a.message, Try(w, a);
    TryIs(w, a);
    var key := t.routed[|t.routed| - 1].key;
    if Decided(BirthOf(w, m)) || !a.answer.Blank? {
      StaysDecided(w, a);
    } else {
      BlankMayChange(w, a);
    }
  }

  /** A later attempt, with everything working, leaves for a group. */
  lemma BlankMayChange(w: World, a: Attempt)
    requires TopicsOk(w) && Try(w, a).routed != w.routed && !Decided(BirthOf(w, a.message)) && a.answer.Blank?
    ensures var t := Try(w, a);
            |t.routed| > 0 &&
            exists more: seq<Attempt> :: !AlwaysTo(Run(t, more), a.message, t.routed[|t.routed| - 1].key)
  {
    var m, t := a.message, Try(w, a);
    BlankIsUndecided(w, a);
    var more := [Smooth(m)];
    assert more[..0] == [] && Run(t, []) == t;
    SmoothMakes(t, m);
    assert Run(t, more).routed[|t.routed|] == Routed(m, Chat(0));
    assert !AlwaysTo(Run(t, more), m, Topic(m));
  }

  lemma SmoothMakes(t: World, m: nat)
    requires !Decided(BirthOf(t, m))
    ensures Try(t, Smooth(m)).routed == t.routed + [Routed(m, Chat(0))]
  {}

  lemma StaysDecided(w: World, a: Attempt)
    requires TopicsOk(w) && CallsOk(w) && RoutesOk(w, a.message) && Try(w, a).routed != w.routed
    requires Decided(BirthOf(w, a.message)) || !a.answer.Blank?
    ensures var t := Try(w, a);
            forall more: seq<Attempt> :: AlwaysTo(Run(t, more), a.message, t.routed[|t.routed| - 1].key)
  {
    var m, t := a.message, Try(w, a);
    TryIs(w, a);
    assert Decided(BirthOf(t, m)) && t.routed[|t.routed| - 1] == Routed(m, KeyOf(m, BirthOf(t, m)));
    assert RoutesOk(t, m);
    assert CallsOk(t);
    forall more: seq<Attempt> ensures AlwaysTo(Run(t, more), m, t.routed[|t.routed| - 1].key) {
      RunRoutes(t, more, m);
      RunDecides(t, more, m);
    }
  }

  lemma BlankIsUndecided(w: World, a: Attempt)
    requires TopicsOk(w) && Try(w, a).routed != w.routed && !Decided(BirthOf(w, a.message)) && a.answer.Blank?
    ensures !Decided(BirthOf(Try(w, a), a.message)) && TopicsOk(Try(w, a))
    ensures var t := Try(w, a); t.routed == w.routed + [Routed(a.message, Topic(a.message))]
  {}
}
