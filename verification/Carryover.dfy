/** What a closing run hands to its successor. */
module Carryover {
  import opened Signals

  datatype Message =
    | SignalMessage(signal: Signal)
    | CancelRequest
    | ActivityMessage(number: nat)          // a completion or a heartbeat of this run's activities
    | OtherMessage(number: nat)             // updates, queries, malformed messages

  function Wrap(signals: seq<Signal>): seq<Message> {
    if signals == [] then [] else [SignalMessage(signals[0])] + Wrap(signals[1..])
  }

  /** The messages that may cross into another run, in order. */
  function Crossing(unread: seq<Message>): seq<Message> {
    if unread == [] then []
    else if unread[0].ActivityMessage? then Crossing(unread[1..])
    else [unread[0]] + Crossing(unread[1..])
  }

  /** Continue-as-new: buffered signals, an outstanding cancel, the unread inbox. */
  function Forwarded(buffered: seq<Bucket>, cancelRequested: bool, unread: seq<Message>): seq<Message> {
    Wrap(All(buffered)) + (if cancelRequested then [CancelRequest] else []) + Crossing(unread)
  }

  /** Sends everything over, one message at a time. */
  method ForwardInbox(buffered: seq<Bucket>, cancelRequested: bool, unread: seq<Message>) returns (sent: seq<Message>)
    ensures sent == Forwarded(buffered, cancelRequested, unread)
  {
    sent := ForwardBuffered(buffered);
    if cancelRequested {
      sent := sent + [CancelRequest];
    }
    var rest := ForwardUnread(unread);
    sent := sent + rest;
  }

  method ForwardBuffered(buffered: seq<Bucket>) returns (sent: seq<Message>)
    ensures sent == Wrap(All(buffered))
  {
    sent := [];
    for i := 0 to |buffered|
      invariant sent + Wrap(All(buffered[i..])) == Wrap(All(buffered))
    {
      assert buffered[i..][1..] == buffered[i + 1..];
      WrapConcat(buffered[i].signals, All(buffered[i + 1..]));
      var wrapped := WrapEach(buffered[i].signals);
      assert sent + (wrapped + Wrap(All(buffered[i + 1..]))) == sent + wrapped + Wrap(All(buffered[i + 1..]));
      sent := sent + wrapped;
    }
  }

  method WrapEach(signals: seq<Signal>) returns (sent: seq<Message>)
    ensures sent == Wrap(signals)
  {
    sent := [];
    for j := 0 to |signals|
      invariant sent + Wrap(signals[j..]) == Wrap(signals)
    {
      assert signals[j..][1..] == signals[j + 1..];
      sent := sent + [SignalMessage(signals[j])];
    }
  }

  method ForwardUnread(unread: seq<Message>) returns (sent: seq<Message>)
    ensures sent == Crossing(unread)
  {
    sent := [];
    for k := 0 to |unread|
      invariant sent + Crossing(unread[k..]) == Crossing(unread)
    {
      assert unread[k..][1..] == unread[k + 1..];
      if !unread[k].ActivityMessage? {
        sent := sent + [unread[k]];
      }
    }
  }

  lemma {:induction false} WrapConcat(a: seq<Signal>, b: seq<Signal>)
    ensures Wrap(a + b) == Wrap(a) + Wrap(b)
  {
    if a == [] {
      assert a + b == b;
    } else {
      assert (a + b)[1..] == a[1..] + b;
      WrapConcat(a[1..], b);
    }
  }

  function SignalsOf(messages: seq<Message>, name: string): seq<Signal> {
    if messages == [] then []
    else if messages[0].SignalMessage? && messages[0].signal.name == name then
      [messages[0].signal] + SignalsOf(messages[1..], name)
    else SignalsOf(messages[1..], name)
  }

  lemma {:induction false} SignalsConcat(a: seq<Message>, b: seq<Message>, name: string)
    ensures SignalsOf(a + b, name) == SignalsOf(a, name) + SignalsOf(b, name)
  {
    if a == [] {
      assert a + b == b;
    } else {
      assert (a + b)[1..] == a[1..] + b;
      SignalsConcat(a[1..], b, name);
    }
  }

  lemma {:induction false} SignalsWrap(signals: seq<Signal>, name: string)
    ensures SignalsOf(Wrap(signals), name) == Select(signals, name)
  {
    if signals != [] {
      SignalsWrap(signals[1..], name);
    }
  }

  lemma {:induction false} CrossingSignals(unread: seq<Message>, name: string)
    ensures SignalsOf(Crossing(unread), name) == SignalsOf(unread, name)
  {
    if unread != [] {
      CrossingSignals(unread[1..], name);
    }
  }

  lemma {:induction false} CrossingCounts(unread: seq<Message>, m: Message)
    ensures multiset(Crossing(unread))[m] == if m.ActivityMessage? then 0 else multiset(unread)[m]
  {
    if unread != [] {
      CrossingCounts(unread[1..], m);
      assert unread == [unread[0]] + unread[1..];
    }
  }

  /** Each name's buffered signals cross first, then its unread ones, each once and in order. */
  lemma ForwardedByName(buffered: seq<Bucket>, cancelRequested: bool, unread: seq<Message>, name: string)
    requires Distinct(buffered) && Labelled(buffered)
    ensures SignalsOf(Forwarded(buffered, cancelRequested, unread), name) == Named(buffered, name) + SignalsOf(unread, name)
  {
    var cancel := if cancelRequested then [CancelRequest] else [];
    assert SignalsOf(cancel, name) == [];
    SignalsOfThree(Wrap(All(buffered)), cancel, Crossing(unread), name);
    BufferedSignals(buffered, name);
    CrossingSignals(unread, name);
    NothingBetween(Named(buffered, name), SignalsOf(cancel, name), SignalsOf(unread, name));
  }

  lemma NothingBetween<T>(a: seq<T>, b: seq<T>, c: seq<T>)
    requires b == []
    ensures a + b + c == a + c
  {
  }

  /** What is sent: the buffered signals bucket by bucket, then the cancel request, then
      the messages that cross, in the order of the inbox. */
  lemma ForwardedInOrder(buffered: seq<Bucket>, cancelRequested: bool, unread: seq<Message>) returns (places: seq<nat>)
    ensures
      var sent, n := Forwarded(buffered, cancelRequested, unread), |All(buffered)|;
      && |sent| >= n && (forall i :: 0 <= i < n ==> sent[i] == SignalMessage(All(buffered)[i]))
      && (cancelRequested ==> |sent| > n && sent[n] == CancelRequest)
      && AtPlaces(sent[if cancelRequested then n + 1 else n..], unread, places)
  {
    WrapsEach(All(buffered));
    places := CrossingPlaces(unread);
    var cancel := if cancelRequested then [CancelRequest] else [];
    var sent, m := Forwarded(buffered, cancelRequested, unread), |All(buffered)| + |cancel|;
    LastPart(Wrap(All(buffered)), cancel, Crossing(unread));
    assert sent[m..] == Crossing(unread);
  }

  lemma LastPart<T>(a: seq<T>, b: seq<T>, c: seq<T>)
    ensures (a + b + c)[|a| + |b|..] == c
    ensures forall i :: 0 <= i < |a| ==> (a + b + c)[i] == a[i]
    ensures forall i :: 0 <= i < |b| ==> (a + b + c)[|a| + i] == b[i]
  {
  }

  /** The messages that cross, picked from the inbox in its order: all but the run's own
      activity messages. */
  ghost predicate AtPlaces(sent: seq<Message>, unread: seq<Message>, places: seq<nat>) {
    && |sent| == |places|
    && (forall k :: 0 <= k < |places| ==> places[k] < |unread| && sent[k] == unread[places[k]])
    && (forall j, k :: 0 <= j < k < |places| ==> places[j] < places[k])
    && (forall i :: 0 <= i < |unread| ==> (i in places <==> !unread[i].ActivityMessage?))
  }

  lemma {:induction false} WrapsEach(signals: seq<Signal>)
    ensures |Wrap(signals)| == |signals| && forall i :: 0 <= i < |signals| ==> Wrap(signals)[i] == SignalMessage(signals[i])
  {
    if signals != [] {
      WrapsEach(signals[1..]);
    }
  }

  /** Where the crossing messages stood in the inbox. */
  lemma {:induction false} CrossingPlaces(unread: seq<Message>) returns (places: seq<nat>)
    ensures AtPlaces(Crossing(unread), unread, places)
    decreases |unread|
  {
    if unread == [] {
      places := [];
    } else {
      var last := |unread| - 1;
      var front := CrossingPlaces(unread[..last]);
      CrossingSnoc(unread[..last], unread[last]);
      assert unread == unread[..last] + [unread[last]];
      places := if unread[last].ActivityMessage? then front else front + [last];
      PlacesSnoc(Crossing(unread[..last]), unread, front);
    }
  }

  lemma {:induction false} CrossingSnoc(unread: seq<Message>, m: Message)
    ensures Crossing(unread + [m]) == Crossing(unread) + if m.ActivityMessage? then [] else [m]
  {
    if unread == [] {
      assert unread + [m] == [m];
    } else {
      assert (unread + [m])[1..] == unread[1..] + [m];
      CrossingSnoc(unread[1..], m);
    }
  }

  lemma PlacesSnoc(sent: seq<Message>, unread: seq<Message>, places: seq<nat>)
    requires unread != [] && AtPlaces(sent, unread[..|unread| - 1], places)
    ensures
      var last := |unread| - 1;
      if unread[last].ActivityMessage? then AtPlaces(sent, unread, places)
      else AtPlaces(sent + [unread[last]], unread, places + [last])
  {
    var last := |unread| - 1;
    forall i | 0 <= i < |unread| ensures i in places ==> i < last {
      if i in places {
        var k :| 0 <= k < |places| && places[k] == i;
      }
    }
    assert forall i :: 0 <= i < last ==> unread[..last][i] == unread[i];
  }

  lemma SignalsOfThree(a: seq<Message>, b: seq<Message>, c: seq<Message>, name: string)
    ensures SignalsOf(a + b + c, name) == SignalsOf(a, name) + SignalsOf(b, name) + SignalsOf(c, name)
  {
    SignalsConcat(a + b, c, name);
    SignalsConcat(a, b, name);
  }

  lemma BufferedSignals(buffered: seq<Bucket>, name: string)
    requires Distinct(buffered) && Labelled(buffered)
    ensures SignalsOf(Wrap(All(buffered)), name) == Named(buffered, name)
  {
    SignalsWrap(All(buffered), name);
    SelectBuckets(buffered, name);
  }

  /** Every unread message but the run's own activity messages is sent once; the
      cancel request is sent once more if one is outstanding; nothing of an activity crosses. */
  lemma EverythingCrossesOnce(buffered: seq<Bucket>, cancelRequested: bool, unread: seq<Message>, m: Message)
    requires !m.SignalMessage?
    ensures
      multiset(Forwarded(buffered, cancelRequested, unread))[m] ==
      if m.ActivityMessage? then 0
      else multiset(unread)[m] + if m.CancelRequest? && cancelRequested then 1 else 0
  {
    CrossingCounts(unread, m);
    WrapIsSignals(All(buffered), m);
  }

  lemma {:induction false} WrapIsSignals(signals: seq<Signal>, m: Message)
    requires !m.SignalMessage?
    ensures m !in Wrap(signals)
  {
    if signals != [] {
      WrapIsSignals(signals[1..], m);
    }
  }

  /** All signals of a name that ever came to a run. */
  ghost function Came(d: Desk, unread: seq<Message>, name: string): seq<Signal> {
    Select(d.received, name) + SignalsOf(unread, name)
  }

  /** Conservation across a continue-as-new: of each name, what came to the run is
      what it settled followed by what its successor is sent. */
  lemma {:induction false} NothingLost(d: Desk, cancelRequested: bool, unread: seq<Message>, name: string)
    requires Orderly(d) && d.pending == []
    ensures Came(d, unread, name) ==
            Select(Settled(d.fates), name) + SignalsOf(Forwarded(d.buffered, cancelRequested, unread), name)
  {
    var settled, left, rest := Select(Settled(d.fates), name), Named(d.buffered, name), SignalsOf(unread, name);
    ForwardedByName(d.buffered, cancelRequested, unread, name);
    assert Select(d.received, name) == settled + left by {
      assert Select(d.received, name) == Line(d, name);
      NothingBetween(settled, Select(d.pending, name), left);
    }
    Regrouped(settled, left, rest);
  }

  lemma Regrouped<T>(a: seq<T>, b: seq<T>, c: seq<T>)
    ensures a + b + c == a + (b + c)
  {
  }

  /** A retry or cron hop forwards the unread inbox only: it conserves a name's
      signals exactly when none of that name was still buffered. */
  lemma {:induction false} RetryHopConserves(d: Desk, unread: seq<Message>, name: string)
    requires Orderly(d) && d.pending == []
    ensures Came(d, unread, name) == Select(Settled(d.fates), name) + SignalsOf(Crossing(unread), name)
            <==> Named(d.buffered, name) == []
  {
    CrossingSignals(unread, name);
    assert Select(d.received, name) == Line(d, name);
    var settled, left, rest := Select(Settled(d.fates), name), Named(d.buffered, name), SignalsOf(unread, name);
    assert Came(d, unread, name) == settled + left + rest;
    assert |settled + left + rest| == |settled + rest| <==> left == [];
  }

  /** A run of a chain at its close, and the later messages its successor received
      behind the forwarded ones. */
  datatype Closed = Closed(desk: Desk, cancelRequested: bool, unread: seq<Message>, later: seq<Message>)

  ghost function Sent(run: Closed): seq<Message> {
    Forwarded(run.desk.buffered, run.cancelRequested, run.unread)
  }

  /** What came to a run is what its predecessor sent, then the later messages. */
  ghost predicate Follows(run: Closed, next: Closed, name: string) {
    Came(next.desk, next.unread, name) == SignalsOf(Sent(run), name) + SignalsOf(run.later, name)
  }

  ghost predicate Chained(runs: seq<Closed>, name: string)
    requires runs != []
  {
    var last := |runs| - 1;
    && Orderly(runs[last].desk) && runs[last].desk.pending == []
    && (last > 0 ==> Chained(runs[..last], name) && Follows(runs[last - 1], runs[last], name))
  }

  ghost function SettledBy(runs: seq<Closed>, name: string): seq<Signal> {
    if runs == [] then []
    else SettledBy(runs[..|runs| - 1], name) + Select(Settled(runs[|runs| - 1].desk.fates), name)
  }

  ghost function Arrived(runs: seq<Closed>, name: string): seq<Signal>
    requires runs != []
  {
    if |runs| == 1 then Came(runs[0].desk, runs[0].unread, name)
    else Arrived(runs[..|runs| - 1], name) + SignalsOf(runs[|runs| - 2].later, name)
  }

  /** Over any number of continue-as-new hops the signals of one name are settled
      once each, in the order they came to the chain; the rest is on its way to the
      next run, in that order too. */
  lemma {:induction false} ChainSettlesInOrder(runs: seq<Closed>, name: string)
    requires runs != [] && Chained(runs, name)
    ensures Arrived(runs, name) == SettledBy(runs, name) + SignalsOf(Sent(runs[|runs| - 1]), name)
  {
    var last := runs[|runs| - 1];
    var settled, sent := Select(Settled(last.desk.fates), name), SignalsOf(Sent(last), name);
    assert Came(last.desk, last.unread, name) == settled + sent by {
      NothingLost(last.desk, last.cancelRequested, last.unread, name);
    }
    var front := runs[..|runs| - 1];
    if front == [] {
      assert SettledBy(front, name) == [] && [] + settled == settled;
    } else {
      var previous := runs[|runs| - 2];
      assert front[|front| - 1] == previous;
      ChainSettlesInOrder(front, name);
      Regroup(SettledBy(front, name), SignalsOf(Sent(previous), name), SignalsOf(previous.later, name), settled, sent);
    }
  }

  lemma Regroup<T>(a: seq<T>, b: seq<T>, c: seq<T>, d: seq<T>, e: seq<T>)
    requires b + c == d + e
    ensures a + b + c == a + d + e
  {
    Regrouped(a, b, c);
    Regrouped(a, d, e);
  }
}
