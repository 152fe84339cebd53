/** Group-mode routing as the program runs it: early returns and a persisted table per decision. */
module ChannelRouter {
  import opened Prelude
  import opened GroupRouting

  class Router {
    const channel: nat
    var births: map<nat, Birth>
    var topics: map<nat, Key>
    var dedicated: map<nat, nat>
    ghost var calls: seq<Call>
    ghost var routed: seq<Routed>

    ghost function View(): World
      reads this
    {
      World(channel, births, topics, dedicated, calls, routed)
    }

    constructor (channel: nat)
      ensures View() == Start(channel)
    {
      this.channel := channel;
      births, topics, dedicated, calls, routed := map[], map[], map[], [], [];
    }

    /** The recorded outcome for the message, or a new one; None after an error. */
    method Decide(a: Attempt) returns (birth: Option<Birth>)
      modifies this
      ensures (View(), birth) == Settle(old(View()), a)
    {
      var b := if a.message in births then births[a.message] else Birth(None, false);
      if b.chat.None? && !b.fallback {
        births := Save(births, a.message, b, a.before);
        if !a.before.Applied? {
          return None;
        }
        calls := calls + [Call(a.message, channel, a.message)];
        match a.answer {
          case Unclear => return None;
          case Made(chat) => b := Birth(Some(chat), b.fallback);
          case Refused => b := Birth(b.chat, true);
          case Blank =>
        }
        births := Save(births, a.message, b, a.after);
        if !a.after.Applied? {
          return None;
        }
      }
      birth := Some(b);
    }

    /** Where the message goes; None after an error, and then nothing is promised to the caller. */
    method Resolve(a: Attempt) returns (key: Option<Key>)
      modifies this
      ensures View() == Try(old(View()), a)
      ensures key.Some? ==> routed == old(routed) + [Routed(a.message, key.value)]
      ensures key.None? ==> routed == old(routed)
    {
      if !a.readable {
        return None;
      }
      var topic := Topic(a.message);
      if !a.legacy && a.message in topics {
        topic := topics[a.message];
      }
      var birth := Decide(a);
      if birth.None? {
        return None;
      }
      if birth.value.chat.Some? {
        var chat := birth.value.chat.value;
        dedicated := Put(dedicated, chat, a.user, a.dedicate);
        if !a.dedicate.Applied? || !a.mode.Applied? {
          return None;
        }
        key := Some(Chat(chat));
      } else {
        topics := if a.alias.FailedLost? then topics else topics[a.message := topic];
        if !a.alias.Applied? {
          return None;
        }
        key := Some(topic);
      }
      routed := routed + [Routed(a.message, key.value)];
    }
  }
}
