/** The topic broker of src/tools/pubsub.rs: exact topics first, then the first registered prefix in key order. */
module Pubsub {
  import opened Bytes
  import opened Protocol

  type Chan = nat

  // ----- the order of a `BTreeMap<String, _>`

  predicate Below(a: Bytes, b: Bytes) {
    b != [] && (a == [] || a[0] < b[0] || (a[0] == b[0] && Below(a[1..], b[1..])))
  }

  predicate IsPrefix(p: Bytes, s: Bytes) {
    |p| <= |s| && s[..|p|] == p
  }

  lemma {:induction false} BelowTotal(a: Bytes, b: Bytes)
    ensures a == b || Below(a, b) || Below(b, a)
    ensures !(Below(a, b) && Below(b, a)) && !Below(a, a)
  {
    if a != [] && b != [] {
      BelowTotal(a[1..], b[1..]);
      assert a == [a[0]] + a[1..] && b == [b[0]] + b[1..];
    }
    if a != [] { BelowTotal(a[1..], a[1..]); }
  }

  lemma {:induction false} BelowTransitive(a: Bytes, b: Bytes, c: Bytes)
    requires Below(a, b) && Below(b, c)
    ensures Below(a, c)
  {
    if a != [] && a[0] == b[0] == c[0] {
      BelowTransitive(a[1..], b[1..], c[1..]);
    }
  }

  /** A proper prefix comes first. */
  lemma {:induction false} PrefixBelow(p: Bytes, s: Bytes)
    requires IsPrefix(p, s) && p != s
    ensures Below(p, s)
  {
    if p != [] {
      assert p[0] == s[0];
      assert s[1..][..|p| - 1] == p[1..];
      PrefixBelow(p[1..], s[1..]);
    }
  }

  /** Of two prefixes of one text the shorter is a prefix of the longer. */
  lemma PrefixChain(p: Bytes, q: Bytes, s: Bytes)
    requires IsPrefix(p, s) && IsPrefix(q, s) && |p| <= |q|
    ensures IsPrefix(p, q)
  {}

  // ----- routes

  datatype Entry = Entry(key: Name, chan: Chan)

  ghost predicate Sorted(es: seq<Entry>) {
    forall i, j :: 0 <= i < j < |es| ==> Below(es[i].key, es[j].key)
  }

  /** Where a publication goes: to a channel with the position its subtopic starts at, or nowhere. */
  datatype Route = ToChannel(chan: Chan, subtopicPos: nat) | Nowhere

  /** Said without any order: an exact topic wins; else the shortest registered prefix; else nothing. */
  ghost predicate IsRoute(topics: map<Name, Chan>, prefixes: set<Entry>, topic: Name, r: Route) {
    if topic in topics then r == ToChannel(topics[topic], 0)
    else if exists e :: e in prefixes && IsPrefix(e.key, topic) then
      && r.ToChannel?
      && r.subtopicPos <= |topic|
      && Entry(topic[..r.subtopicPos], r.chan) in prefixes
      && forall e :: e in prefixes && IsPrefix(e.key, topic) ==> r.subtopicPos <= |e.key|
    else r == Nowhere
  }

  ghost predicate OneChannelEach(prefixes: set<Entry>) {
    forall d, e :: d in prefixes && e in prefixes && d.key == e.key ==> d == e
  }

  /** The route depends on what is registered, not on the order of registration. */
  lemma RouteUnique(topics: map<Name, Chan>, prefixes: set<Entry>, topic: Name, r: Route, q: Route)
    requires OneChannelEach(prefixes)
    requires IsRoute(topics, prefixes, topic, r) && IsRoute(topics, prefixes, topic, q)
    ensures r == q
  {}

  lemma SortedHasOneChannelEach(es: seq<Entry>)
    requires Sorted(es)
    ensures OneChannelEach(set e | e in es)
  {
    forall d, e | d in es && e in es && d.key == e.key ensures d == e {
      BelowTotal(d.key, e.key);
    }
  }

  /** A sorted list of prefixes leaves no choice. */
  lemma OnlyRoute(topics: map<Name, Chan>, es: seq<Entry>, prefixes: set<Entry>, topic: Name, r: Route)
    requires Sorted(es) && prefixes == (set e | e in es) && IsRoute(topics, prefixes, topic, r)
    ensures forall q :: IsRoute(topics, prefixes, topic, q) ==> q == r
  {
    hide IsRoute;
    SortedHasOneChannelEach(es);
    forall q | IsRoute(topics, prefixes, topic, q) ensures q == r {
      RouteUnique(topics, prefixes, topic, q, r);
    }
  }

  /** In key order the first prefix that matches is the shortest. */
  lemma FirstMatchIsShortest(es: seq<Entry>, topic: Name, i: nat)
    requires Sorted(es) && i < |es| && IsPrefix(es[i].key, topic)
    requires forall j :: 0 <= j < i ==> !IsPrefix(es[j].key, topic)
    ensures forall e :: e in es && IsPrefix(e.key, topic) ==> |es[i].key| <= |e.key|
  {
    forall e | e in es && IsPrefix(e.key, topic) ensures |es[i].key| <= |e.key| {
      var j :| 0 <= j < |es| && es[j] == e;
      if |e.key| < |es[i].key| {
        PrefixChain(e.key, es[i].key, topic);
        PrefixBelow(e.key, es[i].key);
        BelowTotal(e.key, es[i].key);
      }
    }
  }

  // ----- the broker

  datatype Publication = Publication(subtopicPos: nat, frame: Frame) {
    predicate Valid() {
      frame.topic.Some? && subtopicPos <= |frame.topic.value|
    }

    function Subtopic(): Name
      requires Valid()
    {
      frame.topic.value[subtopicPos..]
    }
  }

  datatype Processed = Handled | Returned(frame: Frame) | Closed

  class TopicBroker {
    var prefixes: seq<Entry>
    var topics: map<Name, Chan>
    var sent: seq<(Chan, Publication)>

    ghost predicate Valid()
      reads this
    {
      Sorted(prefixes)
    }

    ghost function Entries(): set<Entry>
      reads this
    {
      set e | e in prefixes
    }

    constructor ()
      ensures Valid() && Entries() == {} && topics == map[] && sent == []
    {
      prefixes, topics, sent := [], map[], [];
    }

    method RegisterTopic(topic: Name, chan: Chan) returns (r: Result<()>)
      modifies this`topics
      ensures r == if topic in old(topics) then Err(Busy) else Ok(())
      ensures topics == if topic in old(topics) then old(topics) else old(topics)[topic := chan]
    {
      if topic in topics {
        return Err(Busy);
      }
      topics := topics[topic := chan];
      r := Ok(());
    }

    /** A new prefix goes to its place in key order; a known one is refused. */
    method RegisterPrefix(prefix: Name, chan: Chan) returns (r: Result<()>)
      requires Valid()
      modifies this`prefixes
      ensures Valid()
      ensures r.Ok? <==> forall e :: e in old(Entries()) ==> e.key != prefix
      ensures r.Ok? ==> Entries() == old(Entries()) + {Entry(prefix, chan)}
      ensures r.Err? ==> r == Err(Busy) && prefixes == old(prefixes)
    {
      var i := 0;
      while i < |prefixes| && Below(prefixes[i].key, prefix)
        invariant i <= |prefixes|
        invariant forall j :: 0 <= j < i ==> Below(prefixes[j].key, prefix)
      {
        i := i + 1;
      }
      if i < |prefixes| && prefixes[i].key == prefix {
        assert prefixes[i] in Entries();
        return Err(Busy);
      }
      InsertSorted(prefixes, i, Entry(prefix, chan));
      prefixes := prefixes[..i] + [Entry(prefix, chan)] + prefixes[i..];
      r := Ok(());
    }

    /** Sends the frame to the one channel its topic routes to, or hands it back; a closed channel is an error. */
    method Process(frame: Frame, closed: set<Chan>) returns (r: Processed, ghost route: Route)
      requires Valid()
      modifies this`sent
      ensures frame.topic.None? ==> r == Returned(frame) && sent == old(sent)
      ensures frame.topic.Some? ==> IsRoute(topics, Entries(), frame.topic.value, route)
      ensures frame.topic.Some? ==> forall q :: IsRoute(topics, Entries(), frame.topic.value, q) ==> q == route
      ensures frame.topic.Some? && route.Nowhere? ==> r == Returned(frame) && sent == old(sent)
      ensures frame.topic.Some? && route.ToChannel? && route.chan in closed ==> r == Closed && sent == old(sent)
      ensures frame.topic.Some? && route.ToChannel? && route.chan !in closed ==>
                r == Handled && sent == old(sent) + [(route.chan, Publication(route.subtopicPos, frame))]
    {
      route := Nowhere;
      if frame.topic.None? {
        return Returned(frame), route;
      }
      var topic := frame.topic.value;
      if topic in topics {
        route := ToChannel(topics[topic], 0);
        OnlyRoute(topics, prefixes, Entries(), topic, route);
        r := Send(topics[topic], Publication(0, frame), closed);
        return r, route;
      }
      for i := 0 to |prefixes|
        invariant forall j :: 0 <= j < i ==> !IsPrefix(prefixes[j].key, topic)
        invariant sent == old(sent)
      {
        var e := prefixes[i];
        if IsPrefix(e.key, topic) {
          FirstMatchIsShortest(prefixes, topic, i);
          assert e in Entries();
          route := ToChannel(e.chan, |e.key|);
          assert e == Entry(topic[..|e.key|], e.chan);
          OnlyRoute(topics, prefixes, Entries(), topic, route);
          r := Send(e.chan, Publication(|e.key|, frame), closed);
          return r, route;
        }
      }
      OnlyRoute(topics, prefixes, Entries(), topic, route);
      return Returned(frame), route;
    }

    method Send(chan: Chan, p: Publication, closed: set<Chan>) returns (r: Processed)
      modifies this`sent
      ensures r == if chan in closed then Closed else Handled
      ensures sent == if chan in closed then old(sent) else old(sent) + [(chan, p)]
    {
      if chan in closed {
        return Closed;
      }
      sent := sent + [(chan, p)];
      r := Handled;
    }
  }

  lemma InsertSorted(es: seq<Entry>, i: nat, e: Entry)
    requires Sorted(es) && i <= |es|
    requires forall j :: 0 <= j < i ==> Below(es[j].key, e.key)
    requires i < |es| ==> !Below(es[i].key, e.key) && es[i].key != e.key
    ensures var r := es[..i] + [e] + es[i..];
            && Sorted(r) && (set x | x in r) == (set x | x in es) + {e}
            && forall x :: x in es ==> x.key != e.key
  {
    var r := es[..i] + [e] + es[i..];
    forall j | i <= j < |es| ensures Below(e.key, es[j].key) {
      BelowTotal(es[i].key, e.key);
      if i < j { BelowTransitive(e.key, es[i].key, es[j].key); }
    }
    forall x | x in es ensures x.key != e.key {
      BelowTotal(x.key, e.key);
    }
    forall j, k | 0 <= j < k < |r| ensures Below(r[j].key, r[k].key) {}
    assert es == es[..i] + es[i..];
  }

  /** The prefix a publication was routed by, followed by its subtopic, is its topic. */
  lemma SubtopicCompletesTopic(topics: map<Name, Chan>, prefixes: set<Entry>, frame: Frame, r: Route)
    requires frame.topic.Some? && IsRoute(topics, prefixes, frame.topic.value, r) && r.ToChannel?
    ensures var p := Publication(r.subtopicPos, frame);
            && p.Valid()
            && (frame.topic.value in topics ==> p.Subtopic() == frame.topic.value)
            && (frame.topic.value !in topics ==>
                  exists key :: Entry(key, r.chan) in prefixes && key + p.Subtopic() == frame.topic.value)
  {}
}
