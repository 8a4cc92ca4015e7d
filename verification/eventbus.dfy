/** The event bus: bounded channels, and subscriber slices that are appended to and shifted in place. */
module EventBus {
  import opened TaskTypes

  type Topic = string

  datatype Event = Event(topic: Topic, data: string)

  // ── What a bounded channel does ─────────────────────────────────────

  /** What happens to a channel: an event is offered without waiting, or its reader asks for one. */
  datatype Act = Offer(event: Event) | Receive

  datatype Content = Content(got: seq<Event>, queue: seq<Event>)

  /** The events read so far and those still queued, after the given acts. */
  function Replay(cap: nat, acts: seq<Act>): Content {
    if acts == [] then Content([], []) else
      var c := Replay(cap, acts[..|acts| - 1]);
      match acts[|acts| - 1]
      case Offer(e) => if |c.queue| < cap then c.(queue := c.queue + [e]) else c
      case Receive => if c.queue == [] then c else Content(c.got + [c.queue[0]], c.queue[1..])
  }

  /** The offered events, in order. */
  function Offers(acts: seq<Act>): seq<Event> {
    if acts == [] then [] else
      match acts[|acts| - 1]
      case Offer(e) => Offers(acts[..|acts| - 1]) + [e]
      case Receive => Offers(acts[..|acts| - 1])
  }

  /** Which of the offered events found room. */
  function Kept(cap: nat, acts: seq<Act>): seq<int> {
    if acts == [] then [] else
      var before := acts[..|acts| - 1];
      if acts[|acts| - 1].Offer? && |Replay(cap, before).queue| < cap
      then Kept(cap, before) + [|Offers(before)|] else Kept(cap, before)
  }

  predicate Within(ks: seq<int>, n: nat) {
    forall i | 0 <= i < |ks| :: 0 <= ks[i] < n
  }

  function Pick(events: seq<Event>, ks: seq<int>): (r: seq<Event>)
    requires Within(ks, |events|)
    ensures |r| == |ks| && forall i | 0 <= i < |ks| :: r[i] == events[ks[i]]
  {
    seq(|ks|, i requires 0 <= i < |ks| => events[ks[i]])
  }

  lemma {:induction false} KeptInOrder(cap: nat, acts: seq<Act>)
    ensures Within(Kept(cap, acts), |Offers(acts)|)
    ensures forall i, j | 0 <= i < j < |Kept(cap, acts)| :: Kept(cap, acts)[i] < Kept(cap, acts)[j]
  {
    if acts != [] { KeptInOrder(cap, acts[..|acts| - 1]); }
  }

  function Flat(c: Content): seq<Event> { c.got + c.queue }

  lemma FlatGrows(cap: nat, acts: seq<Act>)
    requires acts != []
    ensures var before, last := acts[..|acts| - 1], acts[|acts| - 1];
      Flat(Replay(cap, acts)) == Flat(Replay(cap, before)) +
        (if last.Offer? && |Replay(cap, before).queue| < cap then [last.event] else [])
  {
    var c := Replay(cap, acts[..|acts| - 1]);
    if c.queue != [] { assert c.got + [c.queue[0]] + c.queue[1..] == c.got + c.queue; }
  }

  lemma {:induction false} KeptEvents(cap: nat, acts: seq<Act>)
    requires Within(Kept(cap, acts), |Offers(acts)|)
    ensures Flat(Replay(cap, acts)) == Pick(Offers(acts), Kept(cap, acts))
  {
    if acts != [] {
      var before, n := acts[..|acts| - 1], |acts| - 1;
      KeptInOrder(cap, before);
      KeptEvents(cap, before);
      FlatGrows(cap, acts);
    }
  }

  lemma {:induction false} QueueFits(cap: nat, acts: seq<Act>)
    ensures |Replay(cap, acts).queue| <= cap
  {
    if acts != [] { QueueFits(cap, acts[..|acts| - 1]); }
  }

  /** The k-th act, if an offer, is the offer numbered by the offers before it. */
  lemma {:induction false} OfferAt(acts: seq<Act>, k: nat)
    requires k < |acts| && acts[k].Offer?
    ensures |Offers(acts[..k])| < |Offers(acts)| && Offers(acts)[|Offers(acts[..k])|] == acts[k].event
  {
    var n := |acts| - 1;
    if k < n {
      OfferAt(acts[..n], k);
      assert acts[..k] == acts[..n][..k];
    }
  }

  lemma {:induction false} KeptUnlessFull(cap: nat, acts: seq<Act>, k: nat)
    requires k < |acts| && acts[k].Offer?
    ensures |Offers(acts[..k])| in Kept(cap, acts) <==> |Replay(cap, acts[..k]).queue| < cap
  {
    var before, n := acts[..|acts| - 1], |acts| - 1;
    KeptInOrder(cap, before);
    if k < n {
      KeptUnlessFull(cap, before, k);
      assert acts[..k] == before[..k];
      OfferAt(before, k);
    }
  }

  /** What a reader has got and what waits for it are, in order, the offered events that found room; an event is missing
      exactly when the channel was full at that moment. */
  lemma FanOut(cap: nat, acts: seq<Act>)
    ensures var ks := Kept(cap, acts);
      && Within(ks, |Offers(acts)|)
      && (forall i, j | 0 <= i < j < |ks| :: ks[i] < ks[j])
      && Replay(cap, acts).got + Replay(cap, acts).queue == Pick(Offers(acts), ks)
      && |Replay(cap, acts).queue| <= cap
      && (forall k | 0 <= k < |acts| && acts[k].Offer? ::
            |Offers(acts[..k])| !in ks <==> |Replay(cap, acts[..k]).queue| == cap)
  {
    KeptInOrder(cap, acts);
    KeptEvents(cap, acts);
    QueueFits(cap, acts);
    forall k | 0 <= k < |acts| && acts[k].Offer?
      ensures |Offers(acts[..k])| !in Kept(cap, acts) <==> |Replay(cap, acts[..k]).queue| == cap
    {
      KeptUnlessFull(cap, acts, k);
      QueueFits(cap, acts[..k]);
    }
  }

  lemma ActGrows(acts: seq<Act>, act: Act)
    ensures (acts + [act])[..|acts|] == acts
    ensures Offers(acts + [act]) == if act.Offer? then Offers(acts) + [act.event] else Offers(acts)
  {
    assert (acts + [act])[..|acts|] == acts;
  }

  // ── Channels ────────────────────────────────────────────────────────

  class Channel {
    const capacity: nat
    ghost const topic: Topic
    ghost const since: nat // how many events of the topic had been published when the channel was made
    var buffer: seq<Event>
    var closed: bool
    ghost var acts: seq<Act> // everything that happened to the channel
    ghost var until: nat     // how many had been published when it was closed

    constructor (capacity: nat, ghost topic: Topic, ghost since: nat)
      ensures Valid() && !closed && acts == [] && this.capacity == capacity && this.topic == topic && this.since == since
    {
      this.capacity, this.topic, this.since := capacity, topic, since;
      buffer, closed, acts, until := [], false, [], 0;
    }

    ghost predicate Valid()
      reads `buffer, `acts
    {
      buffer == Replay(capacity, acts).queue
    }

    /** What its reader has got so far. */
    ghost function Got(): seq<Event>
      reads `acts
    {
      Replay(capacity, acts).got
    }

    /** A send that does not wait. */
    method TrySend(event: Event) returns (sent: bool)
      requires Valid() && !closed
      modifies `buffer, `acts
      ensures Valid() && acts == old(acts) + [Offer(event)]
      ensures sent <==> |old(buffer)| < capacity
      ensures buffer == if sent then old(buffer) + [event] else old(buffer)
    {
      ActGrows(acts, Offer(event));
      acts := acts + [Offer(event)];
      if |buffer| < capacity {
        buffer := buffer + [event];
        return true;
      }
      return false;
    }

    /** A read that does not wait. */
    method TryReceive() returns (got: seq<Event>)
      requires Valid()
      modifies `buffer, `acts
      ensures Valid() && acts == old(acts) + [Receive]
      ensures old(buffer) == [] ==> got == [] && buffer == []
      ensures old(buffer) != [] ==> got == [old(buffer)[0]] && buffer == old(buffer)[1..]
      ensures Got() == old(Got()) + got
    {
      ActGrows(acts, Receive);
      acts := acts + [Receive];
      if |buffer| == 0 { return []; }
      got := [buffer[0]];
      buffer := buffer[1..];
    }

    /** Closing twice would panic. */
    method Close(ghost published: nat)
      requires !closed
      modifies `closed, `until
      ensures closed && until == published
    {
      closed, until := true, published;
    }
  }

  // ── The bus ─────────────────────────────────────────────────────────

  /** A slice header: the array behind it may be longer. */
  datatype Slice = Slice(data: array<Channel>, len: nat)

  predicate DistinctChannels(s: seq<Channel>) {
    forall i, j | 0 <= i < j < |s| :: s[i] != s[j]
  }

  lemma DistinctMore(s: seq<Channel>, ch: Channel)
    requires DistinctChannels(s) && ch !in s
    ensures DistinctChannels(s + [ch])
  {
  }

  /** The list without its first ch. */
  function Without(s: seq<Channel>, ch: Channel): seq<Channel> {
    if s == [] then [] else if s[0] == ch then s[1..] else [s[0]] + Without(s[1..], ch)
  }

  lemma {:induction false} WithoutAt(s: seq<Channel>, j: nat)
    requires j < |s| && DistinctChannels(s)
    ensures Without(s, s[j]) == s[..j] + s[j + 1..]
  {
    if j > 0 {
      WithoutAt(s[1..], j - 1);
      assert s[1..][j - 1] == s[j] && [s[0]] + s[1..][..j - 1] == s[..j];
    }
  }

  lemma {:induction false} WithoutAbsent(s: seq<Channel>, ch: Channel)
    requires ch !in s
    ensures Without(s, ch) == s
  {
    if s != [] { WithoutAbsent(s[1..], ch); }
  }

  lemma Spliced(s: seq<Channel>, j: nat)
    requires j < |s| && DistinctChannels(s)
    ensures |Without(s, s[j])| == |s| - 1
    ensures forall k | 0 <= k < |s| - 1 :: Without(s, s[j])[k] == s[if k < j then k else k + 1]
  {
    WithoutAt(s, j);
  }

  /** What is left of a duplicate-free list when ch goes: everybody else, in the same order. */
  lemma WithoutKeepsOthers(s: seq<Channel>, ch: Channel)
    requires DistinctChannels(s)
    ensures ch !in Without(s, ch) && DistinctChannels(Without(s, ch))
    ensures forall i | 0 <= i < |Without(s, ch)| :: Without(s, ch)[i] in s
    ensures forall i | 0 <= i < |s| && s[i] != ch :: s[i] in Without(s, ch)
    ensures |Without(s, ch)| == if ch in s then |s| - 1 else |s|
  {
    hide Without;
    if ch in s {
      var j :| 0 <= j < |s| && s[j] == ch;
      Spliced(s, j);
      forall i | 0 <= i < |s| && s[i] != ch ensures s[i] in Without(s, ch) {
        assert s[i] == Without(s, ch)[if i < j then i else i - 1];
      }
    } else {
      WithoutAbsent(s, ch);
    }
  }

  /** The array after append(s[:j], s[j+1:]...) on a slice of it: shifted down by one, its last element left in place. */
  function Shifted(s: seq<Channel>, j: nat): seq<Channel>
    requires j < |s|
  {
    s[..j] + s[j + 1..] + [s[|s| - 1]]
  }

  method ShiftDown(data: array<Channel>, j: nat, len: nat)
    requires j < len <= data.Length
    modifies data
    ensures data[..len] == Shifted(old(data[..len]), j)
  {
    forall k | j <= k < len - 1 { data[k] := data[k + 1]; }
  }

  /** The loop of UnSubscribe: it ranges over the slice as it was while the slice is being shifted. */
  method Remove(subscribes: Slice, ch: Channel, ghost published: nat) returns (header: Slice)
    requires subscribes.len <= subscribes.data.Length && DistinctChannels(subscribes.data[..subscribes.len])
    requires ch in subscribes.data[..subscribes.len] ==> !ch.closed
    modifies subscribes.data, ch`closed, ch`until
    ensures header.data == subscribes.data && header.len <= subscribes.len
    ensures header.data[..header.len] == Without(old(subscribes.data[..subscribes.len]), ch)
    ensures ch.closed == (old(ch.closed) || ch in old(subscribes.data[..subscribes.len]))
    ensures ch.until == if ch in old(subscribes.data[..subscribes.len]) then published else old(ch.until)
  {
    header := subscribes;
    var data, n := subscribes.data, subscribes.len;
    ghost var was := data[..n];
    ghost var at := -1;
    for i := 0 to n
      invariant header.data == data && -1 <= at < i
      invariant at < 0 ==> header.len == n && data[..n] == was && ch !in was[..i] && ch.closed == old(ch.closed)
      invariant at < 0 ==> ch.until == old(ch.until)
      invariant at >= 0 ==> header.len == n - 1 && was[at] == ch && ch.closed && data[..n] == Shifted(was, at)
      invariant at >= 0 ==> ch.until == published
    {
      assert data[..n][i] == data[i];
      if data[i] == ch {
        assert at < 0;
        ShiftDown(data, i, n);
        header := Slice(data, n - 1);
        ch.Close(published);
        at := i;
      }
    }
    if at >= 0 {
      WithoutAt(was, at);
      assert data[..n - 1] == data[..n][..n - 1];
    } else {
      WithoutAbsent(was, ch);
    }
  }

  /** append on the list of a topic: in place while the array has room, which may overwrite what a removal left behind. */
  method AppendTo(subscribes: Option<Slice>, ch: Channel) returns (header: Slice)
    requires subscribes.Some? ==> subscribes.value.len <= subscribes.value.data.Length
    modifies if subscribes.Some? then {subscribes.value.data} else {}
    ensures header.len <= header.data.Length
    ensures header.data[..header.len] ==
      old(if subscribes.Some? then subscribes.value.data[..subscribes.value.len] else []) + [ch]
    ensures fresh(header.data) || (subscribes.Some? && header.data == subscribes.value.data)
  {
    if subscribes.Some? && subscribes.value.len < subscribes.value.data.Length {
      header := Slice(subscribes.value.data, subscribes.value.len + 1);
      header.data[header.len - 1] := ch;
    } else {
      var s := if subscribes.Some? then subscribes.value.data[..subscribes.value.len] else [];
      var data := new Channel[2 * |s| + 1](k requires 0 <= k => if k < |s| then s[k] else ch);
      header := Slice(data, |s| + 1);
    }
  }

  /** One event to each channel of a list, skipping the full ones. */
  method Broadcast(channels: seq<Channel>, event: Event)
    requires DistinctChannels(channels) && forall c | c in channels :: c.Valid() && !c.closed
    modifies set c | c in channels
    ensures forall c | c in channels :: c.Valid() && !c.closed && c.acts == old(c.acts) + [Offer(event)]
  {
    for i := 0 to |channels|
      invariant forall k | 0 <= k < |channels| :: channels[k].Valid() && !channels[k].closed
      invariant forall k | 0 <= k < i :: channels[k].acts == old(channels[k].acts) + [Offer(event)]
      invariant forall k | i <= k < |channels| :: channels[k].acts == old(channels[k].acts)
    {
      var sent := channels[i].TrySend(event);
    }
  }

  /** The channel was offered what was published to its topic while it was subscribed, and nothing else. */
  ghost predicate Fed(c: Channel, past: seq<Event>)
    reads c
  {
    && c.Valid() && c.since <= |past|
    && (!c.closed ==> Offers(c.acts) == past[c.since..])
    && (c.closed ==> c.since <= c.until <= |past| && Offers(c.acts) == past[c.since..c.until])
  }

  /** Topics share no array, and no topic lists a channel twice. */
  ghost predicate ShapedMap(m: map<Topic, Slice>)
    reads set t | t in m :: m[t].data
  {
    && (forall t | t in m :: m[t].len <= m[t].data.Length)
    && (forall t, u | t in m && u in m && t != u :: m[t].data != m[u].data)
    && (forall t | t in m :: DistinctChannels(m[t].data[..m[t].len]))
  }

  ghost function ListOf(m: map<Topic, Slice>, t: Topic): seq<Channel>
    requires ShapedMap(m)
    reads set t | t in m :: m[t].data
  {
    if t in m then m[t].data[..m[t].len] else []
  }

  class InMemoryEventBus {
    var subscribers: map<Topic, Slice>
    ghost var history: map<Topic, seq<Event>> // everything published
    ghost var members: set<Channel>           // every channel ever handed out

    constructor ()
      ensures Valid() && members == {} && forall t :: Subs(t) == [] && Past(t) == []
    {
      subscribers, history, members := map[], map[], {};
    }

    ghost function Arrays(): set<object>
      reads `subscribers
    {
      set t | t in subscribers :: subscribers[t].data
    }

    /** Everything published to a topic. */
    ghost function Past(t: Topic): seq<Event>
      reads `history
    {
      if t in history then history[t] else []
    }

    ghost predicate Shaped()
      reads `subscribers, Arrays()
    {
      ShapedMap(subscribers)
    }

    /** The subscribers of a topic, in order. */
    ghost function Subs(t: Topic): seq<Channel>
      requires Shaped()
      reads `subscribers, Arrays()
    {
      ListOf(subscribers, t)
    }

    /** The open channels are exactly the subscribers, each of its own topic. */
    ghost predicate Listing()
      requires Shaped()
      reads `subscribers, `members, Arrays(), members
    {
      && (forall t, c | c in Subs(t) :: c in members && c.topic == t && !c.closed)
      && (forall c | c in members && !c.closed :: c in Subs(c.topic))
    }

    ghost predicate Feeding()
      reads `history, `members, members
    {
      forall c | c in members :: Fed(c, Past(c.topic))
    }

    ghost predicate Valid()
      reads this, Arrays(), members
    {
      Shaped() && Listing() && Feeding()
    }

    lemma SubsDistinct(topic: Topic)
      requires Shaped()
      ensures DistinctChannels(Subs(topic))
    {
    }

    /** The lists without ch; `subscribers` itself is still as it was. */
    method Drop(topic: Topic, ch: Channel) returns (updated: map<Topic, Slice>)
      requires Shaped() && topic in subscribers && (ch in Subs(topic) ==> !ch.closed)
      modifies subscribers[topic].data, ch`closed, ch`until
      ensures ShapedMap(updated) && ListOf(updated, topic) == Without(old(Subs(topic)), ch)
      ensures forall t | t != topic :: ListOf(updated, t) == old(Subs(t))
      ensures ch.closed == (old(ch.closed) || ch in old(Subs(topic)))
      ensures ch.until == if ch in old(Subs(topic)) then |Past(topic)| else old(ch.until)
    {
      SubsDistinct(topic);
      WithoutKeepsOthers(Subs(topic), ch);
      hide DistinctChannels, Without;
      var header := Remove(subscribers[topic], ch, |Past(topic)|);
      updated := subscribers[topic := header];
    }

    method Install(updated: map<Topic, Slice>, ghost added: set<Channel>)
      requires ShapedMap(updated)
      modifies `subscribers, `members
      ensures Shaped() && forall t :: Subs(t) == old(ListOf(updated, t))
      ensures members == old(members) + added
    {
      subscribers, members := updated, members + added;
    }

    /** UnSubscribe as far as the lists are concerned. */
    method Unlist(topic: Topic, ch: Channel)
      requires Shaped() && (ch in Subs(topic) ==> !ch.closed)
      modifies `subscribers, `members, Arrays(), ch`closed, ch`until
      ensures Shaped() && Subs(topic) == Without(old(Subs(topic)), ch) && members == old(members)
      ensures forall t | t != topic :: Subs(t) == old(Subs(t))
      ensures ch.closed == (old(ch.closed) || ch in old(Subs(topic)))
      ensures ch.until == if ch in old(Subs(topic)) then |Past(topic)| else old(ch.until)
    {
      if topic in subscribers {
        hide Shaped, ShapedMap, Subs;
        var updated := Drop(topic, ch);
        Install(updated, {});
      }
    }

    method UnSubscribe(topic: Topic, ch: Channel)
      requires Valid()
      modifies `subscribers, `members, Arrays(), ch`closed, ch`until
      ensures Valid() && members == old(members) && Subs(topic) == Without(old(Subs(topic)), ch)
      ensures forall t | t != topic :: Subs(t) == old(Subs(t))
      ensures ch.closed == (old(ch.closed) || ch in old(Subs(topic)))
      ensures ch.until == if ch in old(Subs(topic)) then |Past(topic)| else old(ch.until)
    {
      hide Shaped, Subs, Fed, Past, Without;
      SubsDistinct(topic);
      WithoutKeepsOthers(Subs(topic), ch);
      Unlist(topic, ch);
      forall t, c | c in Subs(t) ensures c in members && c.topic == t && !c.closed { assert c in old(Subs(t)); }
      forall c | c in members && !c.closed ensures c in Subs(c.topic) { assert c in old(Subs(c.topic)); }
      forall c | c in members ensures Fed(c, Past(c.topic)) {
        StillFed(c);
      }
    }

    method Add(topic: Topic, ch: Channel) returns (updated: map<Topic, Slice>)
      requires Shaped() && ch !in Subs(topic)
      modifies if topic in subscribers then {subscribers[topic].data} else {}
      ensures ShapedMap(updated) && ListOf(updated, topic) == old(Subs(topic)) + [ch]
      ensures forall t | t != topic :: ListOf(updated, t) == old(Subs(t))
    {
      SubsDistinct(topic);
      DistinctMore(Subs(topic), ch);
      hide DistinctChannels;
      var header := AppendTo(if topic in subscribers then Some(subscribers[topic]) else None, ch);
      updated := subscribers[topic := header];
    }

    /** Subscribe as far as the lists are concerned. */
    method Enlist(topic: Topic, ch: Channel)
      requires Shaped() && ch !in Subs(topic)
      modifies `subscribers, `members, Arrays()
      ensures Shaped() && Subs(topic) == old(Subs(topic)) + [ch] && members == old(members) + {ch}
      ensures forall t | t != topic :: Subs(t) == old(Subs(t))
    {
      hide Shaped, ShapedMap, Subs;
      var updated := Add(topic, ch);
      Install(updated, {ch});
    }

    method Subscribe(topic: Topic, length: nat) returns (ch: Channel)
      requires Valid()
      modifies `subscribers, `members, Arrays()
      ensures fresh(ch) && ch.topic == topic && ch.capacity == length && ch.since == |Past(topic)| && ch.acts == []
      ensures Valid() && members == old(members) + {ch}
      ensures Subs(topic) == old(Subs(topic)) + [ch]
      ensures forall t | t != topic :: Subs(t) == old(Subs(t))
    {
      hide Shaped, Subs, Past;
      ch := new Channel(length, topic, |Past(topic)|);
      assert ch !in Subs(topic);
      Enlist(topic, ch);
      forall t, c | c in Subs(t) ensures c in members && c.topic == t && !c.closed {
        assert c == ch || c in old(Subs(t));
      }
      forall c | c in members && !c.closed ensures c in Subs(c.topic) {
        assert c == ch || c in old(Subs(c.topic));
      }
      forall c | c in members ensures Fed(c, Past(c.topic)) {
        if c != ch { StillFed(c); }
      }
    }

    /** Publish as far as the channels are concerned. */
    method Deliver(topic: Topic, event: Event)
      requires Shaped() && forall i | 0 <= i < |Subs(topic)| :: Subs(topic)[i].Valid() && !Subs(topic)[i].closed
      modifies `history, set c | c in Subs(topic)
      ensures Shaped() && forall t :: Subs(t) == old(Subs(t))
      ensures forall i | 0 <= i < |Subs(topic)| :: var c := old(Subs(topic))[i];
        c.Valid() && !c.closed && c.acts == old(c.acts) + [Offer(event)]
      ensures Past(topic) == old(Past(topic)) + [event] && forall t | t != topic :: Past(t) == old(Past(t))
    {
      history := history[topic := Past(topic) + [event]];
      if topic in subscribers {
        Broadcast(subscribers[topic].data[..subscribers[topic].len], event);
      }
    }

    lemma SubscribersOpen(topic: Topic)
      requires Valid()
      ensures forall i | 0 <= i < |Subs(topic)| ::
        Subs(topic)[i] in members && Subs(topic)[i].topic == topic && Subs(topic)[i].Valid() && !Subs(topic)[i].closed
    {
      forall i | 0 <= i < |Subs(topic)| ensures Subs(topic)[i] in members && Subs(topic)[i].Valid() {
        var c := Subs(topic)[i];
        assert c in Subs(topic);
        assert c.topic == topic && Fed(c, Past(c.topic));
      }
    }

    method Publish(topic: Topic, event: Event)
      requires Valid()
      modifies `history, set c | c in Subs(topic)
      ensures Valid() && Past(topic) == old(Past(topic)) + [event]
      ensures forall t | t != topic :: Past(t) == old(Past(t))
      ensures forall t :: Subs(t) == old(Subs(t))
    {
      SubscribersOpen(topic);
      hide Shaped, Subs, Fed, Past;
      Deliver(topic, event);
      StillListing();
      hide Listing;
      StillFeeding(topic);
    }

    /** The lists and which channels are open are as before. */
    twostate lemma StillListing()
      requires old(Shaped()) && Shaped() && old(Listing()) && members == old(members)
      requires forall t :: Subs(t) == old(Subs(t))
      requires forall c | c in members :: c.closed == old(c.closed)
      ensures Listing()
    {
      hide Shaped, Subs;
    }

    /** One event was published to the topic and offered to its subscribers since. */
    twostate lemma StillFeeding(topic: Topic)
      requires old(Shaped()) && old(Listing()) && old(Feeding()) && members == old(members)
      requires forall c | c in old(Subs(topic)) :: c.Valid() && !c.closed && c.acts == old(c.acts) + [Offer(LastOf(topic))]
      requires forall c | c in members && c !in old(Subs(topic)) :: unchanged(c)
      requires Past(topic) == old(Past(topic)) + [LastOf(topic)] && forall t | t != topic :: Past(t) == old(Past(t))
      ensures Feeding()
    {
      hide Shaped, Subs, Fed, Past, LastOf;
      forall c | c in members ensures Fed(c, Past(c.topic)) {
        assert old(Fed(c, Past(c.topic)));
        if c in old(Subs(topic)) {
          MoreFed(c);
        } else {
          assert c.topic == topic ==> c.closed;
          SameFed(c);
        }
      }
    }

    /** The event published last. */
    ghost function LastOf(t: Topic): Event
      reads `history
    {
      if Past(t) == [] then Event(t, "") else Past(t)[|Past(t)| - 1]
    }

    /** A subscriber that was offered what was published since is still fed. */
    twostate lemma MoreFed(c: Channel)
      requires old(Fed(c, Past(c.topic))) && !old(c.closed) && !c.closed && c.Valid()
      requires |c.acts| == |old(c.acts)| + 1 && c.acts[..|old(c.acts)|] == old(c.acts) && c.acts[|old(c.acts)|].Offer?
      requires Past(c.topic) == old(Past(c.topic)) + [c.acts[|old(c.acts)|].event]
      ensures Fed(c, Past(c.topic))
    {
      ActGrows(old(c.acts), c.acts[|old(c.acts)|]);
      assert c.acts == old(c.acts) + [c.acts[|old(c.acts)|]];
    }

    /** A channel left alone is still fed, if nothing was published to its topic or it is closed. */
    twostate lemma SameFed(c: Channel)
      requires old(Fed(c, Past(c.topic))) && unchanged(c)
      requires Past(c.topic) == old(Past(c.topic)) ||
        (c.closed && |old(Past(c.topic))| <= |Past(c.topic)| && Past(c.topic)[..|old(Past(c.topic))|] == old(Past(c.topic)))
      ensures Fed(c, Past(c.topic))
    {
    }

    /** A channel that was at most closed since, with all that has been published, is still fed. */
    twostate lemma StillFed(c: Channel)
      requires c.buffer == old(c.buffer) && c.acts == old(c.acts) && history == old(history)
      requires old(Fed(c, Past(c.topic)))
      requires (c.closed == old(c.closed) && c.until == old(c.until)) || (c.closed && !old(c.closed) && c.until == |Past(c.topic)|)
      ensures Fed(c, Past(c.topic))
    {
    }
  
    twostate lemma SameLists()
      requires old(Shaped()) && subscribers == old(subscribers)
      requires forall t | t in subscribers :: unchanged(subscribers[t].data)
      ensures Shaped() && forall t :: Subs(t) == old(Subs(t))
    {
    }

    /** After its reader took an event from one channel the bus is as before. */
    twostate lemma Received(c: Channel)
      requires old(Valid()) && c in members && unchanged(this) && c.Valid() && c.closed == old(c.closed) && c.until == old(c.until)
      requires forall t | t in subscribers :: unchanged(subscribers[t].data)
      requires forall d | d in members && d != c :: unchanged(d)
      requires c.acts == old(c.acts) + [Receive]
      ensures Valid()
    {
      SameLists();
      hide Shaped, Subs;
      StillListing();
      hide Listing;
      ActGrows(old(c.acts), Receive);
      forall d | d in members ensures Fed(d, Past(d.topic)) { assert old(Fed(d, Past(d.topic))); }
    }

    /** Every channel the bus ever handed out: what its reader has got and what waits in it are, in order, those events
        published to its topic between its subscription and its end that found room; one is missing exactly if the
        channel was full when it was offered. */
    lemma SubscriberGets(c: Channel)
      requires Valid() && c in members
      ensures !c.closed <==> c in Subs(c.topic)
      ensures c.since <= (if c.closed then c.until else |Past(c.topic)|) <= |Past(c.topic)|
      ensures var window := Past(c.topic)[c.since..if c.closed then c.until else |Past(c.topic)|];
        var ks := Kept(c.capacity, c.acts);
        && Within(ks, |window|) && (forall i, j | 0 <= i < j < |ks| :: ks[i] < ks[j])
        && c.Got() + c.buffer == Pick(window, ks) && |c.buffer| <= c.capacity
        && (forall k | 0 <= k < |c.acts| && c.acts[k].Offer? ::
              |Offers(c.acts[..k])| < |window| && c.acts[k].event == window[|Offers(c.acts[..k])|]
              && (|Offers(c.acts[..k])| !in ks <==> |Replay(c.capacity, c.acts[..k]).queue| == c.capacity))
    {
      assert Fed(c, Past(c.topic));
      FanOut(c.capacity, c.acts);
      forall k | 0 <= k < |c.acts| && c.acts[k].Offer?
        ensures |Offers(c.acts[..k])| < |Offers(c.acts)| && c.acts[k].event == Offers(c.acts)[|Offers(c.acts[..k])|]
      {
        OfferAt(c.acts, k);
      }
      if c.closed && c in Subs(c.topic) { assert false; }
    }
  }
}
