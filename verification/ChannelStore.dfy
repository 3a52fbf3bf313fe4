/** The chat-to-thread store. */
module ChannelStore {
  import opened Wrappers
  import opened Sequences

  // The chat-to-thread store of the IM channel layer: how a conversation is printed
  // as a key, how a key is split back into a conversation, and the store operations
  // on those keys (backend/app/channels/store.py).

  /** A conversation; an empty topic is printed like an absent one. */
  datatype Conversation = Conversation(channel: string, chat: string, topic: Option<string>)

  predicate HasTopic(topic: Option<string>) {
    topic.Some? && topic.value != ""
  }

  function Key(channel: string, chat: string, topic: Option<string>): string {
    if HasTopic(topic) then channel + ":" + chat + ":" + topic.value else channel + ":" + chat
  }

  /** Position of the first ':' in `s`, or `|s|`. */
  function Colon(s: string): (n: nat)
    ensures n <= |s|
    ensures forall i :: 0 <= i < n ==> s[i] != ':'
    ensures n < |s| ==> s[n] == ':'
  {
    if s == "" then 0 else if s[0] == ':' then 0 else 1 + Colon(s[1..])
  }

  /** Cut at the first ':'; no second piece when there is none. */
  function Cut(s: string): (string, Option<string>) {
    var i := Colon(s);
    if i == |s| then (s, None) else (s[..i], Some(s[i + 1..]))
  }

  /** `key.split(":", 2)` read as a conversation. */
  function SplitKey(key: string): Conversation {
    var (channel, rest) := Cut(key);
    if rest.None? then Conversation(channel, "", None)
    else
      var (chat, topic) := Cut(rest.value);
      Conversation(channel, chat, topic)
  }

  ghost predicate ColonFree(s: string) {
    ':' !in s
  }

  lemma CutJoined(a: string, b: string)
    ensures ColonFree(a) <==> Cut(a + ":" + b) == (a, Some(b))
    ensures !ColonFree(a) <==> |Cut(a + ":" + b).0| < |a|
  {
    var s := a + ":" + b;
    var n := Colon(s);
    assert forall i :: 0 <= i < |a| ==> s[i] == a[i];
    assert s[|a|] == ':';
    if ColonFree(a) {
      assert n == |a|;
      assert s[..|a|] == a && s[|a| + 1..] == b;
    } else {
      var i :| 0 <= i < |a| && a[i] == ':';
      assert n <= i;
    }
  }

  lemma CutWhole(a: string)
    ensures ColonFree(a) <==> Cut(a) == (a, None)
  {
    if !ColonFree(a) {
      var i :| 0 <= i < |a| && a[i] == ':';
    }
  }

  /** What follows the channel name in a key. */
  function Tail(chat: string, topic: Option<string>): string {
    if HasTopic(topic) then chat + ":" + topic.value else chat
  }

  lemma CutTail(chat: string, topic: Option<string>)
    ensures Cut(Tail(chat, topic)) == (chat, topic) <==> ColonFree(chat) && topic != Some("")
  {
    if HasTopic(topic) {
      CutJoined(chat, topic.value);
    } else {
      CutWhole(chat);
    }
  }

  /** Splitting a printed key gives the conversation back exactly when neither
      the channel name nor the chat id holds a ':' and the topic is not the
      empty string; the topic itself may hold colons. */
  lemma SplitRecoversIff(channel: string, chat: string, topic: Option<string>)
    ensures SplitKey(Key(channel, chat, topic)) == Conversation(channel, chat, topic)
            <==> ColonFree(channel) && ColonFree(chat) && topic != Some("")
  {
    var tail := Tail(chat, topic);
    assert Key(channel, chat, topic) == channel + ":" + tail;
    CutJoined(channel, tail);
    CutTail(chat, topic);
  }

  /** Distinct conversations without stray colons never share a key. */
  lemma KeysAreInjective(a: Conversation, b: Conversation)
    requires ColonFree(a.channel) && ColonFree(a.chat) && a.topic != Some("")
    requires ColonFree(b.channel) && ColonFree(b.chat) && b.topic != Some("")
    requires Key(a.channel, a.chat, a.topic) == Key(b.channel, b.chat, b.topic)
    ensures a == b
  {
    SplitRecoversIff(a.channel, a.chat, a.topic);
    SplitRecoversIff(b.channel, b.chat, b.topic);
  }

  // ---- When two chats can share a key ----------------------------------------------

  /** A chat of a channel. */
  datatype Chat = Chat(channel: string, id: string)

  /** What every key of the chat starts with. */
  function Base(c: Chat): string {
    c.channel + ":" + c.id
  }

  function KeyIn(c: Chat, topic: Option<string>): string {
    Key(c.channel, c.id, topic)
  }

  /** One base is the other, or runs into it at a colon. */
  predicate Clash(c: Chat, d: Chat) {
    Base(c) == Base(d) || Base(c) + ":" <= Base(d) || Base(d) + ":" <= Base(c)
  }

  ghost predicate ShareAKey(c: Chat, d: Chat) {
    exists t, u :: t != Some("") && u != Some("") && KeyIn(c, t) == KeyIn(d, u)
  }

  lemma KeyStarts(c: Chat, topic: Option<string>)
    requires topic != Some("")
    ensures KeyIn(c, topic) == if topic.Some? then Base(c) + ":" + topic.value else Base(c)
  {
  }

  /** Two prefixes of one text, each followed by a colon unless it is the whole text. */
  lemma PrefixesClash(key: string, a: string, b: string)
    requires (key == a || a + ":" <= key) && (key == b || b + ":" <= key) && |a| <= |b|
    ensures a == b || a + ":" <= b
  {
    assert key[..|a|] == a && key[..|b|] == b;
    if |a| < |b| {
      assert key[..|a| + 1] == a + ":";
      assert b[..|a| + 1] == key[..|a| + 1];
    }
  }

  lemma SharedKeyClashes(c: Chat, d: Chat, t: Option<string>, u: Option<string>)
    requires t != Some("") && u != Some("") && KeyIn(c, t) == KeyIn(d, u)
    ensures Clash(c, d)
  {
    KeyStarts(c, t);
    KeyStarts(d, u);
    if |Base(c)| <= |Base(d)| {
      PrefixesClash(KeyIn(c, t), Base(c), Base(d));
    } else {
      PrefixesClash(KeyIn(c, t), Base(d), Base(c));
    }
  }

  /** Topics under which the keys coincide, when `d` continues `c` at a colon. */
  lemma ContinuedShares(c: Chat, d: Chat)
    requires Base(c) + ":" <= Base(d)
    ensures ShareAKey(c, d) && ShareAKey(d, c)
  {
    var rest := Base(d)[|Base(c)| + 1..];
    assert Base(d) == Base(c) + ":" + rest;
    var t, u := Some(rest), None;
    if rest == "" {
      t, u := Some(":x"), Some("x");
      assert Base(c) + ":" + ":x" == Base(d) + ":" + "x";
    }
    KeyStarts(c, t);
    KeyStarts(d, u);
  }

  /** Some topics make the keys of two chats coincide exactly when they clash. */
  lemma ShareAKeyIff(c: Chat, d: Chat)
    ensures ShareAKey(c, d) <==> Clash(c, d)
  {
    if t, u :| t != Some("") && u != Some("") && KeyIn(c, t) == KeyIn(d, u) {
      SharedKeyClashes(c, d, t, u);
    }
    if Base(c) == Base(d) {
      assert KeyIn(c, None) == KeyIn(d, None);
    } else if Base(c) + ":" <= Base(d) {
      ContinuedShares(c, d);
    } else if Base(d) + ":" <= Base(c) {
      ContinuedShares(d, c);
    }
  }

  /** Within one channel: exactly when one id continues the other at a colon. */
  lemma ColonInChatCollidesIff(channel: string, c: string, d: string)
    requires c != d
    ensures (exists t, u :: t != Some("") && u != Some("") && Key(channel, c, t) == Key(channel, d, u))
            <==> d + ":" <= c || c + ":" <= d
  {
    ShareAKeyIff(Chat(channel, c), Chat(channel, d));
    SameChannelClash(channel, c, d);
    if t, u :| t != Some("") && u != Some("") && Key(channel, c, t) == Key(channel, d, u) {
      assert KeyIn(Chat(channel, c), t) == KeyIn(Chat(channel, d), u);
    }
    if ShareAKey(Chat(channel, c), Chat(channel, d)) {
      var t, u :| t != Some("") && u != Some("") && KeyIn(Chat(channel, c), t) == KeyIn(Chat(channel, d), u);
      assert Key(channel, c, t) == Key(channel, d, u);
    }
  }

  lemma SameChannelClash(channel: string, c: string, d: string)
    ensures Clash(Chat(channel, c), Chat(channel, d)) <==> c == d || d + ":" <= c || c + ":" <= d
  {
    var p := channel + ":";
    assert Base(Chat(channel, c)) == p + c && Base(Chat(channel, d)) == p + d;
    CommonPrefix(p, c, d);
    CommonPrefix(p, c + ":", d);
    CommonPrefix(p, d + ":", c);
    assert p + (c + ":") == p + c + ":" && p + (d + ":") == p + d + ":";
  }

  lemma CommonPrefix(p: string, a: string, b: string)
    ensures p + a == p + b <==> a == b
    ensures p + a <= p + b <==> a <= b
  {
    assert (p + a)[|p|..] == a && (p + b)[|p|..] == b;
    if p + a <= p + b {
      assert (p + b)[..|p + a|] == p + a;
      assert b[..|a|] == (p + b)[|p|..|p + a|];
    }
    if a <= b {
      assert p + b == p + a + b[|a|..];
    }
  }

  /** No two conversations held in these chats share a key. */
  ghost predicate KeysTellApart(chats: set<Chat>) {
    forall c, d, t, u :: c in chats && d in chats && t != Some("") && u != Some("") && KeyIn(c, t) == KeyIn(d, u) ==> c == d && t == u
  }

  /** For any set of chats: their conversations never share a key exactly when no two of the chats clash. */
  lemma KeysTellApartIff(chats: set<Chat>)
    ensures KeysTellApart(chats) <==> forall c, d :: c in chats && d in chats && Clash(c, d) ==> c == d
  {
    if KeysTellApart(chats) {
      forall c, d | c in chats && d in chats && Clash(c, d)
        ensures c == d
      {
        ShareAKeyIff(c, d);
      }
    }
    if forall c, d :: c in chats && d in chats && Clash(c, d) ==> c == d {
      forall c, d, t, u | c in chats && d in chats && t != Some("") && u != Some("") && KeyIn(c, t) == KeyIn(d, u)
        ensures c == d && t == u
      {
        SharedKeyClashes(c, d, t, u);
        TopicsTellApart(c, t, u);
      }
    }
  }

  lemma TopicsTellApart(c: Chat, t: Option<string>, u: Option<string>)
    requires t != Some("") && u != Some("") && KeyIn(c, t) == KeyIn(c, u)
    ensures t == u
  {
    KeyStarts(c, t);
    KeyStarts(c, u);
    if t.Some? && u.Some? {
      CommonPrefix(Base(c) + ":", t.value, u.value);
    }
  }

  /** For instance: a chat id with a ':' can be mistaken for a chat with a topic. */
  lemma ColonInChatCollides()
    ensures Key("slack", "C1:T2", None) == Key("slack", "C1", Some("T2"))
  {
    assert "slack" + ":" + "C1:T2" == "slack" + ":" + "C1" + ":" + "T2";
  }

  /** The keys `remove` deletes when no topic is given. */
  predicate InChat(key: string, channel: string, chat: string) {
    var prefix := Key(channel, chat, None);
    key == prefix || prefix + ":" <= key
  }

  lemma CutRejoins(s: string)
    ensures Cut(s).1.Some? ==> s == Cut(s).0 + ":" + Cut(s).1.value && ColonFree(Cut(s).0)
    ensures Cut(s).1.None? ==> s == Cut(s).0 && ColonFree(s)
    ensures Cut(s).1.None? <==> ColonFree(s)
  {
    CutWhole(s);
  }

  lemma InChatSplits(key: string, channel: string, chat: string)
    requires ColonFree(channel) && ColonFree(chat) && InChat(key, channel, chat)
    ensures SplitKey(key).channel == channel && SplitKey(key).chat == chat
  {
    var prefix := channel + ":" + chat;
    var rest := key[|channel| + 1..];
    assert key == channel + ":" + rest;
    CutJoined(channel, rest);
    if key == prefix {
      assert rest == chat;
      CutWhole(chat);
    } else {
      var topic := key[|prefix| + 1..];
      assert rest == chat + ":" + topic;
      CutJoined(chat, topic);
    }
  }

  lemma TopicKeyIsInChat(channel: string, chat: string, topic: string)
    ensures InChat(channel + ":" + (chat + ":" + topic), channel, chat)
  {
    var prefix := channel + ":" + chat;
    assert channel + ":" + (chat + ":" + topic) == prefix + ":" + topic;
  }

  lemma SplitIsInChat(key: string)
    requires !ColonFree(key)
    ensures InChat(key, SplitKey(key).channel, SplitKey(key).chat)
  {
    CutRejoins(key);
    var rest := Cut(key).1.value;
    CutRejoins(rest);
    if Cut(rest).1.Some? {
      TopicKeyIsInChat(Cut(key).0, Cut(rest).0, Cut(rest).1.value);
    }
  }

  /** Removing a chat touches exactly the keys that split back to that chat,
      whatever topic they carry. */
  lemma InChatIffSplit(key: string, channel: string, chat: string)
    requires ColonFree(channel) && ColonFree(chat) && !ColonFree(key)
    ensures InChat(key, channel, chat)
            <==> SplitKey(key).channel == channel && SplitKey(key).chat == chat
  {
    if InChat(key, channel, chat) {
      InChatSplits(key, channel, chat);
    } else {
      SplitIsInChat(key);
    }
  }

  datatype Entry = Entry(threadId: string, userId: string, createdAt: real, updatedAt: real)

  datatype Listing = Listing(conversation: Conversation, entry: Entry)

  /** The listing of the keys in `order`, as `list_entries` builds it. */
  function Listed(order: seq<string>, data: map<string, Entry>, filter: Option<string>): seq<Listing>
    requires forall k :: k in order ==> k in data
  {
    if order == [] then []
    else
      var before := Listed(order[..|order| - 1], data, filter);
      var key := order[|order| - 1];
      var conversation := SplitKey(key);
      if filter.Some? && filter.value != "" && conversation.channel != filter.value then before
      else before + [Listing(conversation, data[key])]
  }

  predicate Splittable(c: Conversation) {
    ':' !in c.channel && ':' !in c.chat && c.topic != Some("")
  }

  /** The keys under which conversations are stored. */
  function KeysOf(conversations: seq<Conversation>): (keys: seq<string>)
    ensures |keys| == |conversations|
  {
    if conversations == [] then []
    else
      var c := conversations[|conversations| - 1];
      KeysOf(conversations[..|conversations| - 1]) + [Key(c.channel, c.chat, c.topic)]
  }

  /** The conversations of the wanted channel (of all, without a filter), in order. */
  function OfChannel(conversations: seq<Conversation>, filter: Option<string>): seq<Conversation> {
    if conversations == [] then []
    else
      var c := conversations[|conversations| - 1];
      OfChannel(conversations[..|conversations| - 1], filter)
      + if Wanted(c.channel, filter) then [c] else []
  }

  /** Each conversation with the entry stored for it. */
  function WithEntries(conversations: seq<Conversation>, data: map<string, Entry>): seq<Listing> {
    if conversations == [] then []
    else
      var c := conversations[|conversations| - 1];
      var key := Key(c.channel, c.chat, c.topic);
      WithEntries(conversations[..|conversations| - 1], data) + if key in data then [Listing(c, data[key])] else []
  }

  /** Whether a listing with this filter wants the channel. */
  predicate Wanted(channel: string, filter: Option<string>) {
    filter.None? || filter.value == "" || channel == filter.value
  }

  /** A store of splittable conversations lists exactly those of the wanted
      channel (all of them without a filter), in order, each with its own entry. */
  lemma {:induction false} ListingRecovers(conversations: seq<Conversation>, data: map<string, Entry>, filter: Option<string>)
    requires forall c :: c in conversations ==> Splittable(c)
    requires forall k :: k in KeysOf(conversations) ==> k in data
    ensures Listed(KeysOf(conversations), data, filter) == WithEntries(OfChannel(conversations, filter), data)
  {
    if conversations != [] {
      var n := |conversations| - 1;
      var front, c := conversations[..n], conversations[n];
      var keys, key := KeysOf(front), Key(c.channel, c.chat, c.topic);
      assert KeysOf(conversations) == keys + [key];
      assert forall k :: k in keys ==> k in keys + [key];
      assert key in keys + [key];
      ListingRecovers(front, data, filter);
      ListingStep(keys, OfChannel(front, filter), c, data, filter);
      assert c in conversations;
      assert OfChannel(conversations, filter) == OfChannel(front, filter) + if Wanted(c.channel, filter) then [c] else [];
    }
  }

  lemma ListingStep(keys: seq<string>, listed: seq<Conversation>, c: Conversation, data: map<string, Entry>, filter: Option<string>)
    requires forall k :: k in keys ==> k in data
    requires Splittable(c) && Key(c.channel, c.chat, c.topic) in data
    requires Listed(keys, data, filter) == WithEntries(listed, data)
    ensures Listed(keys + [Key(c.channel, c.chat, c.topic)], data, filter)
            == WithEntries(listed + if Wanted(c.channel, filter) then [c] else [], data)
  {
    SplitRecoversIff(c.channel, c.chat, c.topic);
    ListedSnoc(keys, Key(c.channel, c.chat, c.topic), data, filter);
    if Wanted(c.channel, filter) {
      WithEntriesSnoc(listed, c, data);
    } else {
      assert listed + [] == listed;
    }
  }

  lemma ListedSnoc(order: seq<string>, key: string, data: map<string, Entry>, filter: Option<string>)
    requires (forall k :: k in order ==> k in data) && key in data
    ensures Listed(order + [key], data, filter)
            == Listed(order, data, filter) + if Wanted(SplitKey(key).channel, filter) then [Listing(SplitKey(key), data[key])] else []
  {
    assert (order + [key])[..|order|] == order;
  }

  lemma WithEntriesSnoc(conversations: seq<Conversation>, c: Conversation, data: map<string, Entry>)
    requires Key(c.channel, c.chat, c.topic) in data
    ensures WithEntries(conversations + [c], data)
            == WithEntries(conversations, data) + [Listing(c, data[Key(c.channel, c.chat, c.topic)])]
  {
    assert (conversations + [c])[..|conversations|] == conversations;
  }

  /** Without a filter nothing is missing. */
  lemma {:induction false} NoFilterKeepsAll(conversations: seq<Conversation>)
    ensures OfChannel(conversations, None) == OfChannel(conversations, Some("")) == conversations
  {
    if conversations != [] {
      NoFilterKeepsAll(conversations[..|conversations| - 1]);
    }
  }

  /** With a filter exactly the conversations of that channel are kept. */
  lemma {:induction false} ChannelIsKept(conversations: seq<Conversation>, channel: string, c: Conversation)
    requires channel != ""
    ensures multiset(OfChannel(conversations, Some(channel)))[c] == if c.channel == channel then multiset(conversations)[c] else 0
  {
    if conversations != [] {
      var front, last := conversations[..|conversations| - 1], conversations[|conversations| - 1];
      ChannelIsKept(front, channel, c);
      var kept := OfChannel(front, Some(channel));
      CountSnoc(front, last, c);
      CountSnoc(kept, last, c);
      assert front + [last] == conversations;
      if last.channel == channel {
        assert OfChannel(conversations, Some(channel)) == kept + [last];
      } else {
        assert OfChannel(conversations, Some(channel)) == kept;
      }
    }
  }

  lemma CountSnoc<T>(s: seq<T>, last: T, x: T)
    ensures multiset(s + [last])[x] == multiset(s)[x] + if x == last then 1 else 0
  {
    assert multiset(s + [last]) == multiset(s) + multiset{last};
  }

  /** The keys of `order` that survive removing a chat. */
  function Kept(order: seq<string>, channel: string, chat: string): (kept: seq<string>)
    ensures forall k :: k in kept <==> k in order && !InChat(k, channel, chat)
    ensures Distinct(order) ==> Distinct(kept)
  {
    if order == [] then []
    else
      var before := Kept(order[..|order| - 1], channel, chat);
      var key := order[|order| - 1];
      if InChat(key, channel, chat) then before else before + [key]
  }

  lemma LastIsNew(order: seq<string>)
    requires order != []
    ensures Distinct(order) ==> Distinct(order[..|order| - 1]) && order[|order| - 1] !in order[..|order| - 1]
  {
  }

  /** The keys without one of them, in order. */
  function Without(order: seq<string>, key: string): (kept: seq<string>)
    ensures forall k :: k in kept <==> k in order && k != key
    ensures Distinct(order) ==> Distinct(kept)
  {
    if order == [] then []
    else
      var before := Without(order[..|order| - 1], key);
      var last := order[|order| - 1];
      assert order == order[..|order| - 1] + [last];
      LastIsNew(order);
      if last == key then before else before + [last]
  }

  class Store {
    var data: map<string, Entry>
    /** Insertion order of the dictionary. */
    var order: seq<string>

    ghost predicate Valid()
      reads this
    {
      Distinct(order) && forall k :: k in order <==> k in data
    }

    constructor ()
      ensures Valid() && data == map[] && order == []
    {
      data, order := map[], [];
    }

    method GetThreadId(channel: string, chat: string, topic: Option<string>) returns (threadId: Option<string>)
      ensures threadId.Some? <==> Key(channel, chat, topic) in data
      ensures threadId.Some? ==> threadId.value == data[Key(channel, chat, topic)].threadId
    {
      var key := Key(channel, chat, topic);
      threadId := if key in data then Some(data[key].threadId) else None;
    }

    method SetThreadId(channel: string, chat: string, threadId: string, topic: Option<string>, userId: string, now: real)
      requires Valid()
      modifies this
      ensures Valid()
      ensures var key := Key(channel, chat, topic);
              && data == old(data)[key := Entry(threadId, userId, if key in old(data) then old(data)[key].createdAt else now, now)]
              && order == (if key in old(data) then old(order) else old(order) + [key])
    {
      var key := Key(channel, chat, topic);
      var created := if key in data then data[key].createdAt else now;
      if key !in data {
        order := order + [key];
      }
      data := data[key := Entry(threadId, userId, created, now)];
    }

    /** With a topic one key goes; without one, all keys of the chat. */
    method Remove(channel: string, chat: string, topic: Option<string>) returns (removed: bool)
      requires Valid()
      modifies this
      ensures Valid()
      ensures removed <==> data != old(data)
      ensures topic.Some? ==> data == old(data) - {Key(channel, chat, topic)}
      ensures topic.Some? ==> order == Without(old(order), Key(channel, chat, topic))
      ensures topic.None? ==> data == map k | k in old(data) && !InChat(k, channel, chat) :: old(data)[k]
      ensures topic.None? ==> order == Kept(old(order), channel, chat)
    {
      if topic.Some? {
        removed := RemoveKey(Key(channel, chat, topic));
      } else {
        removed := RemoveChat(channel, chat);
      }
    }

    method RemoveKey(key: string) returns (removed: bool)
      requires Valid()
      modifies this
      ensures Valid()
      ensures removed == (key in old(data)) && data == old(data) - {key} && order == Without(old(order), key)
    {
      removed := key in data;
      order := Without(order, key);
      data := data - {key};
    }

    method RemoveChat(channel: string, chat: string) returns (removed: bool)
      requires Valid()
      modifies this
      ensures Valid()
      ensures removed <==> data != old(data)
      ensures data == map k | k in old(data) && !InChat(k, channel, chat) :: old(data)[k]
      ensures order == Kept(old(order), channel, chat)
    {
      var doomed := set k | k in data && InChat(k, channel, chat);
      removed := doomed != {};
      order := Kept(order, channel, chat);
      data := map k | k in data && !InChat(k, channel, chat) :: data[k];
      if removed {
        var k :| k in doomed;
        assert k in old(data) && k !in data;
      } else {
        assert forall k :: k in old(data) ==> k !in doomed;
        assert data == old(data);
      }
    }

    method ListEntries(filter: Option<string>) returns (results: seq<Listing>)
      requires Valid()
      ensures results == Listed(order, data, filter)
    {
      results := [];
      for i := 0 to |order|
        invariant results == Listed(order[..i], data, filter)
      {
        assert order[..i + 1][..i] == order[..i];
        var conversation := SplitKey(order[i]);
        if !(filter.Some? && filter.value != "" && conversation.channel != filter.value) {
          results := results + [Listing(conversation, data[order[i]])];
        }
      }
      assert order[..|order|] == order;
    }
  }
}
