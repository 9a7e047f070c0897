/** The channels that announce admission events to the host collectors. */
module Subscribers {
  import opened Common

  /** A channel with room for one signal. Sending on it or closing it once it is closed
      would panic. */
  class Channel {
    var closed: bool
    var pending: bool

    constructor ()
      ensures !closed && !pending
    {
      closed, pending := false, false;
    }

    /** Sends a signal unless one is already waiting. */
    method TrySend()
      requires !closed
      modifies this`pending
      ensures pending
    {
      if !pending {
        pending := true;
      }
    }

    method Close()
      requires !closed
      modifies this`closed
      ensures closed
    {
      closed := true;
    }

    /** Takes the waiting signal, if there is one. A receive on a closed channel never waits. */
    method TryReceive() returns (got: bool)
      modifies this`pending
      ensures got == (old(pending) || closed) && !pending
    {
      got := pending || closed;
      pending := false;
    }
  }

  /** A channel as a value. */
  datatype Chan = Chan(open: bool, pending: bool)

  class SharedRuntime {
    var subscribers: set<Channel>  // empty where the source holds a nil map
    ghost var Issued: seq<Channel> // every channel handed out, in order

    /** A channel is subscribed if and only if it was issued and not closed. */
    ghost predicate Valid()
      reads this, Issued
    {
      && Distinct(Issued)
      && (forall ch :: ch in subscribers ==> ch in Issued)
      && (forall i :: 0 <= i < |Issued| ==> (Issued[i] in subscribers <==> !Issued[i].closed))
    }

    /** The issued channels as values. */
    ghost predicate Shows(cs: seq<Chan>)
      reads this, Issued
    {
      && |cs| == |Issued|
      && forall i :: 0 <= i < |cs| ==> cs[i] == Chan(!Issued[i].closed, Issued[i].pending)
    }

    constructor ()
      ensures Valid() && Issued == [] && Shows([])
    {
      subscribers, Issued := {}, [];
    }

    method Subscribe(ghost cs: seq<Chan>) returns (ch: Channel)
      requires Valid() && Shows(cs)
      modifies this
      ensures Valid() && fresh(ch) && Issued == old(Issued) + [ch]
      ensures Shows(Next(cs, Subscribed))
      ensures ch in subscribers && !ch.closed && !ch.pending
    {
      ch := new Channel();
      subscribers := subscribers + {ch};
      Issued := Issued + [ch];
    }

    /** Closes a subscribed channel; any other channel is left alone. */
    method Unsubscribe(ch: Channel, ghost i: nat, ghost cs: seq<Chan>)
      requires Valid() && Shows(cs) && (ch in Issued ==> i < |Issued| && Issued[i] == ch) && (ch !in Issued ==> i >= |Issued|)
      modifies this`subscribers, ch
      ensures Valid() && Shows(Next(cs, Unsubscribed(i)))
    {
      if ch in subscribers {
        subscribers := subscribers - {ch};
        ch.Close();
      }
    }

    /** Signals every subscriber that has no signal waiting. */
    method NotifySubscribers(ghost cs: seq<Chan>)
      requires Valid() && Shows(cs)
      modifies subscribers
      ensures Valid() && Shows(Next(cs, Notified))
      ensures forall ch :: ch in subscribers ==> ch.pending
    {
      var left := subscribers;
      while left != {}
        invariant left <= subscribers
        invariant forall i :: 0 <= i < |Issued| ==> Issued[i].closed == old(Issued[i].closed)
        invariant forall i :: 0 <= i < |Issued| ==>
                    Issued[i].pending == (old(Issued[i].pending) || Issued[i] in subscribers - left)
      {
        var ch :| ch in left;
        assert ch in Issued;
        ch.TrySend();
        left := left - {ch};
      }
    }

    /** Closes every subscribed channel and forgets them all. */
    method Disconnect(ghost cs: seq<Chan>)
      requires Valid() && Shows(cs)
      modifies this`subscribers, subscribers
      ensures Valid() && subscribers == {} && Shows(Next(cs, Disconnected))
    {
      var left := subscribers;
      while left != {}
        invariant left <= subscribers
        invariant forall i :: 0 <= i < |Issued| ==> Issued[i].pending == old(Issued[i].pending)
        invariant forall i :: 0 <= i < |Issued| ==> Issued[i].closed == (Issued[i] !in left)
      {
        var ch :| ch in left;
        assert ch in Issued;
        ch.Close();
        left := left - {ch};
      }
      subscribers := {};
    }
  }

  /** A collector looks into its channel: it goes on at once if a signal is waiting, which it
      takes, or the channel is closed. */
  method Receive(rt: SharedRuntime, ch: Channel, ghost i: nat, ghost cs: seq<Chan>) returns (got: bool)
    requires rt.Valid() && rt.Shows(cs) && i < |rt.Issued| && rt.Issued[i] == ch
    modifies ch`pending
    ensures rt.Valid() && rt.Shows(Next(cs, Received(i)))
    ensures got <==> AtOnce(cs[i])
  {
    got := ch.TryReceive();
  }

  /** A receive on the channel does not wait. */
  predicate AtOnce(c: Chan) {
    c.pending || !c.open
  }

  // ----- runs

  datatype Event = Subscribed | Unsubscribed(i: nat) | Notified | Disconnected | Received(i: nat)

  function Next(cs: seq<Chan>, e: Event): (r: seq<Chan>)
    ensures |r| == |cs| + if e.Subscribed? then 1 else 0
  {
    match e
    case Subscribed => cs + [Chan(true, false)]
    case Unsubscribed(i) => if i < |cs| then cs[i := cs[i].(open := false)] else cs
    case Notified => seq(|cs|, i requires 0 <= i < |cs| => if cs[i].open then cs[i].(pending := true) else cs[i])
    case Disconnected => seq(|cs|, i requires 0 <= i < |cs| => cs[i].(open := false))
    case Received(i) => if i < |cs| then cs[i := cs[i].(pending := false)] else cs
  }

  function Run(cs: seq<Chan>, es: seq<Event>): (r: seq<Chan>)
    ensures |r| >= |cs|
  {
    if es == [] then cs else Next(Run(cs, es[..|es| - 1]), es[|es| - 1])
  }

  predicate Ends(e: Event, i: nat) {
    e == Unsubscribed(i) || e == Disconnected
  }

  /** Nothing among the first `n` events closes channel `i`. */
  ghost predicate Lasts(es: seq<Event>, i: nat, n: nat)
    requires n <= |es|
  {
    forall k :: 0 <= k < n ==> !Ends(es[k], i)
  }

  /** Event `n` is a notification that channel `i` was open for and has not received since. */
  ghost predicate SignalledAt(es: seq<Event>, i: nat, n: nat)
    requires n < |es|
  {
    es[n] == Notified && Lasts(es, i, n) && forall k :: n < k < |es| ==> es[k] != Received(i)
  }

  ghost predicate Signalled(es: seq<Event>, i: nat) {
    exists n: nat :: n < |es| && SignalledAt(es, i, n)
  }

  lemma LastsPrefix(es: seq<Event>, i: nat, n: nat)
    requires n < |es|
    ensures Lasts(es[..|es| - 1], i, n) <==> Lasts(es, i, n)
  {
    forall k | 0 <= k < n ensures es[..|es| - 1][k] == es[k] {
    }
  }

  lemma SignalledPrefix(es: seq<Event>, i: nat, n: nat)
    requires n < |es| - 1
    ensures SignalledAt(es, i, n) <==> SignalledAt(es[..|es| - 1], i, n) && es[|es| - 1] != Received(i)
  {
    LastsPrefix(es, i, n);
    var before := es[..|es| - 1];
    forall k | n < k < |before| ensures before[k] == es[k] {
    }
  }

  /** How the last event bears on a waiting signal. */
  lemma SignalledNext(es: seq<Event>, i: nat)
    requires es != []
    ensures var n := |es| - 1;
            Signalled(es, i) <==> (Signalled(es[..n], i) && es[n] != Received(i)) || (es[n] == Notified && Lasts(es, i, n))
  {
    var n := |es| - 1;
    if Signalled(es, i) {
      var m: nat :| m < |es| && SignalledAt(es, i, m);
      if m < n {
        SignalledPrefix(es, i, m);
      }
    }
    if Signalled(es[..n], i) && es[n] != Received(i) {
      var m: nat :| m < n && SignalledAt(es[..n], i, m);
      SignalledPrefix(es, i, m);
    }
    if es[n] == Notified && Lasts(es, i, n) {
      assert SignalledAt(es, i, n);
    }
  }

  /** Over every run: a channel is open until it is unsubscribed or the runtime disconnects,
      and never opens again; a signal waits in it if and only if it was notified while open
      and has not been received since. */
  lemma {:induction false} ChannelLife(cs: seq<Chan>, es: seq<Event>, i: nat)
    requires i < |cs| && cs[i] == Chan(true, false)
    ensures Run(cs, es)[i].open <==> Lasts(es, i, |es|)
    ensures Run(cs, es)[i].pending <==> Signalled(es, i)
  {
    if es != [] {
      var n := |es| - 1;
      ChannelLife(cs, es[..n], i);
      LastsPrefix(es, i, n);
      SignalledNext(es, i);
      assert Lasts(es, i, |es|) <==> Lasts(es, i, n) && !Ends(es[n], i);
    }
  }

  /** A receive returns at once exactly if a signal is waiting or the channel was closed
      before, by its own collector or by a disconnect on behalf of any other. */
  lemma ReceivesAtOnce(cs: seq<Chan>, es: seq<Event>, i: nat)
    requires i < |cs| && cs[i] == Chan(true, false)
    ensures AtOnce(Run(cs, es)[i]) <==> Signalled(es, i) || !Lasts(es, i, |es|)
  {
    ChannelLife(cs, es, i);
  }

  /** After a disconnect every receive of every collector returns at once, for ever. */
  lemma {:induction false} DisconnectWakesAll(cs: seq<Chan>, es: seq<Event>, i: nat)
    requires i < |cs|
    ensures AtOnce(Run(Next(cs, Disconnected), es)[i]) && !Run(Next(cs, Disconnected), es)[i].open
  {
    if es != [] {
      DisconnectWakesAll(cs, es[..|es| - 1], i);
    }
  }
}
