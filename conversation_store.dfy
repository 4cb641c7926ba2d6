/**
  The per-user conversation store: a bounded FIFO buffer of messages per caller
  identity, kept in a keyed table that purges stale entries opportunistically.

  Time is an explicit integer clock in microseconds (the resolution of the
  timestamps the store compares), passed in by the caller wherever the store
  reads the current time.
*/
module Store {
  import opened Wrappers

  /** Capacity of a conversation's message buffer (`deque(maxlen=50)`). */
  const Capacity: nat := 50

  /** Clock ticks per minute: the clock counts microseconds. */
  const MicrosPerMinute: int := 60_000_000

  /** Default bound on the number of conversations and default staleness timeout, in minutes. */
  const DefaultMaxConversations: int := 1000
  const DefaultStaleTimeoutMinutes: int := 30

  /** One stored message; `timestamp` is the clock reading when it was added. */
  datatype Message = Message(role: string, content: string, timestamp: int)

  /** One history item as handed out: role and content, without the timestamp. */
  datatype HistoryEntry = HistoryEntry(role: string, content: string)

  /** Store statistics as reported by `get_stats`. */
  datatype Stats = Stats(totalConversations: nat, maxConversations: int)

  function Min(a: int, b: int): int { if a <= b then a else b }

  /** The last `min(n, |s|)` elements of `s`, in their original order. */
  function LastN<T>(s: seq<T>, n: nat): seq<T>
  {
    s[|s| - Min(n, |s|)..]
  }

  function EntryOf(m: Message): HistoryEntry
  {
    HistoryEntry(m.role, m.content)
  }

  function Entries(ms: seq<Message>): seq<HistoryEntry>
  {
    seq(|ms|, i requires 0 <= i < |ms| => EntryOf(ms[i]))
  }

  /** Python's `s[start:]`: a negative `start` counts from the end, and either kind is clamped to the bounds. */
  function SliceFrom<T>(s: seq<T>, start: int): seq<T>
  {
    if start < 0 then
      (if |s| + start < 0 then s else s[|s| + start..])
    else if start > |s| then []
    else s[start..]
  }

  /**
    Appending to a full deque with a `maxlen` first drops its leftmost element.
    The buffer afterwards holds the newest `Capacity` of the old messages plus `m`,
    with `m` last.
  */
  function Push(buffer: seq<Message>, m: Message): (r: seq<Message>)
    requires |buffer| <= Capacity
    ensures r == LastN(buffer + [m], Capacity)
    ensures 0 < |r| <= Capacity && r[|r| - 1] == m
    ensures |buffer| < Capacity ==> r == buffer + [m]
  {
    if |buffer| == Capacity then buffer[1..] + [m] else buffer + [m]
  }

  /** The buffer after appending every message of `ms` in order. */
  function PushAll(buffer: seq<Message>, ms: seq<Message>): seq<Message>
    requires |buffer| <= Capacity
    decreases |ms|
  {
    if ms == [] then buffer else PushAll(Push(buffer, ms[0]), ms[1..])
  }

  /** Keeping the newest `n` twice is the same as keeping them once, across later appends. */
  lemma LastNOfLastN<T>(s: seq<T>, t: seq<T>, n: nat)
    ensures LastN(LastN(s, n) + t, n) == LastN(s + t, n)
  {
    var x, j := s + t, |s| - Min(n, |s|);
    assert LastN(s, n) + t == x[j..];
    var m := Min(n, |x| - j);
    assert m == Min(n, |x|);
    assert x[j..][|x| - j - m..] == x[|x| - m..];
  }

  /**
    After any sequence of appends to an empty or partially filled buffer, the buffer
    holds exactly the newest `Capacity` messages in insertion order: the oldest are
    the first dropped.
  */
  lemma {:induction false} PushAllKeepsNewest(buffer: seq<Message>, ms: seq<Message>)
    requires |buffer| <= Capacity
    ensures PushAll(buffer, ms) == LastN(buffer + ms, Capacity)
    ensures |PushAll(buffer, ms)| == Min(Capacity, |buffer| + |ms|)
    decreases |ms|
  {
    if ms == [] {
      assert LastN(buffer, Capacity) == buffer;
    } else {
      var b := Push(buffer, ms[0]);
      calc {
        PushAll(buffer, ms);
        PushAll(b, ms[1..]);
        { PushAllKeepsNewest(b, ms[1..]); }
        LastN(b + ms[1..], Capacity);
        { LastNOfLastN(buffer + [ms[0]], ms[1..], Capacity); }
        LastN(buffer + [ms[0]] + ms[1..], Capacity);
        { assert buffer + [ms[0]] + ms[1..] == buffer + ms; }
        LastN(buffer + ms, Capacity);
      }
    }
  }

  /** A conversation session: a bounded buffer of messages and two clock readings. */
  class Conversation {
    var messages: seq<Message>
    var lastActivity: int
    var createdAt: int

    /** The deque never holds more than its `maxlen`. */
    ghost predicate Valid()
      reads this
    {
      |messages| <= Capacity
    }

    /** A new, empty conversation created at clock reading `now`. */
    constructor(now: int)
      ensures Valid()
      ensures messages == [] && lastActivity == now && createdAt == now
    {
      messages := [];
      lastActivity := now;
      createdAt := now;
    }

    /** Appends one message, evicting the oldest when full, and records the activity time. */
    method AddMessage(role: string, content: string, now: int)
      requires Valid()
      modifies this
      ensures Valid()
      ensures messages == Push(old(messages), Message(role, content, now))
      ensures lastActivity == now && createdAt == old(createdAt)
    {
      var updated := Push(messages, Message(role, content, now));
      messages := updated;
      lastActivity := now;
    }

    /**
      The history window, oldest first, as role/content pairs. With `includeAll` or no
      limit it is every stored message; otherwise it is `messages[-limit:]`, which for a
      positive limit is the newest `min(limit, |messages|)` messages, for a zero limit the
      whole buffer, and for a negative limit the buffer without its first `-limit` messages.
    */
    function GetHistory(limit: Option<int>, includeAll: bool): (r: seq<HistoryEntry>)
      reads this
      ensures |r| <= |messages|
      ensures forall i :: 0 <= i < |r| ==> r[i] == EntryOf(messages[|messages| - |r| + i])
      ensures includeAll || limit.None? ==> |r| == |messages|
      ensures !includeAll && limit.Some? && limit.value > 0 ==> |r| == Min(limit.value, |messages|)
      ensures !includeAll && limit == Some(0) ==> |r| == |messages|
      ensures !includeAll && limit.Some? && limit.value < 0 ==>
                |r| == |messages| - Min(-limit.value, |messages|)
    {
      if includeAll || limit.None? then Entries(messages)
      else Entries(SliceFrom(messages, -limit.value))
    }

    /** True when more than `timeoutMinutes` have passed since the last activity. */
    predicate IsStale(now: int, timeoutMinutes: int := DefaultStaleTimeoutMinutes)
      reads this
      ensures IsStale(now, timeoutMinutes) && timeoutMinutes >= 0 ==> now > lastActivity
    {
      now - lastActivity > timeoutMinutes * MicrosPerMinute
    }
  }

  /**
    Staleness is strict: a conversation idle for exactly the timeout is kept, one idle
    a microsecond longer is stale, and a stale conversation stays stale as the clock advances.
  */
  lemma StalenessIsStrict(c: Conversation, timeoutMinutes: int, now: int, later: int)
    requires now <= later
    ensures !c.IsStale(c.lastActivity + timeoutMinutes * MicrosPerMinute, timeoutMinutes)
    ensures c.IsStale(c.lastActivity + timeoutMinutes * MicrosPerMinute + 1, timeoutMinutes)
    ensures c.IsStale(now, timeoutMinutes) ==> c.IsStale(later, timeoutMinutes)
  {
  }

  /** The in-memory table of conversations, keyed by caller identity. */
  class ConversationStore {
    var conversations: map<string, Conversation>
    const maxConversations: int
    const staleTimeoutMinutes: int

    ghost predicate Valid()
      reads this, conversations.Values
    {
      forall id :: id in conversations ==> conversations[id].Valid()
    }

    /** The conversations that are not stale at clock reading `now`. */
    ghost function Survivors(now: int): map<string, Conversation>
      reads this, conversations.Values
    {
      map id | id in conversations && !conversations[id].IsStale(now, staleTimeoutMinutes) :: conversations[id]
    }

    /** The opportunistic purge is due when more than 80% of the bound is in use. */
    predicate PurgeDue()
      reads this
    {
      5 * |conversations| > 4 * maxConversations
    }

    constructor(maxConversations: int := DefaultMaxConversations, staleTimeoutMinutes: int := DefaultStaleTimeoutMinutes)
      ensures Valid() && conversations == map[]
      ensures this.maxConversations == maxConversations
      ensures this.staleTimeoutMinutes == staleTimeoutMinutes
    {
      conversations := map[];
      this.maxConversations := maxConversations;
      this.staleTimeoutMinutes := staleTimeoutMinutes;
    }

    /**
      Returns the caller's conversation, creating an empty one if there is none. When the
      purge is due it runs first, so a caller whose own conversation has gone stale gets a
      fresh one. No key other than `id` is ever added.
    */
    method GetOrCreateConversation(id: string, now: int) returns (c: Conversation)
      requires Valid()
      modifies this
      ensures Valid() && c.Valid()
      ensures id in conversations && conversations[id] == c
      ensures var kept := if old(PurgeDue()) then old(Survivors(now)) else old(conversations);
              if id in kept then c == kept[id] && conversations == kept
              else fresh(c) && c.messages == [] && c.lastActivity == now && c.createdAt == now
                   && conversations == kept[id := c]
    {
      if PurgeDue() {
        CleanupStale(now);
      }
      if id !in conversations {
        var created := new Conversation(now);
        conversations := conversations[id := created];
      }
      c := conversations[id];
    }

    /** Looks a conversation up without creating one. */
    function GetConversation(id: string): (r: Option<Conversation>)
      reads this
      ensures r.Some? <==> id in conversations
      ensures r.Some? ==> r.value == conversations[id]
    {
      if id in conversations then Some(conversations[id]) else None
    }

    /** Removes the caller's conversation; tells whether there was one. Other entries are untouched. */
    method DeleteConversation(id: string) returns (existed: bool)
      requires Valid()
      modifies this
      ensures Valid()
      ensures existed <==> id in old(conversations)
      ensures conversations == old(conversations) - {id}
    {
      existed := id in conversations;
      if existed {
        conversations := conversations - {id};
      }
    }

    /** Removes exactly the conversations that are stale at `now`; keeps every other one as it was. */
    method CleanupStale(now: int)
      requires Valid()
      modifies this
      ensures Valid()
      ensures conversations == old(Survivors(now))
    {
      var staleKeys := set id | id in conversations && conversations[id].IsStale(now, staleTimeoutMinutes);
      var pending := staleKeys;
      while pending != {}
        invariant pending <= staleKeys
        invariant conversations == old(conversations) - (staleKeys - pending)
        decreases pending
      {
        var key :| key in pending;
        conversations := conversations - {key};
        pending := pending - {key};
      }
    }

    /** Reports the number of stored conversations and the configured bound. */
    function GetStats(): (s: Stats)
      reads this
      ensures s.totalConversations == |conversations.Keys|
      ensures s.maxConversations == maxConversations
    {
      Stats(|conversations|, maxConversations)
    }
  }

  /**
    Deleting twice reports true and then false for a stored conversation, and the
    next lookup creates a fresh, empty one.
  */
  method DeleteTwiceThenRecreate(store: ConversationStore, id: string, now: int)
    returns (first: bool, second: bool, c: Conversation)
    requires store.Valid() && id in store.conversations
    modifies store
    ensures first && !second
    ensures fresh(c) && c.messages == [] && id in store.conversations && store.conversations[id] == c
  {
    first := store.DeleteConversation(id);
    second := store.DeleteConversation(id);
    c := store.GetOrCreateConversation(id, now);
  }
}
