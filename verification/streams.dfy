/** Bounded channels that are only ever sent to with a select that has a default arm: the
    manager's events, axisEvents and errors (manager.go:340-344, 392-396, 403-408). */
module Streams {
  import opened Traces

  const EVENT_BUFFER := 256
  const ERROR_BUFFER := 16

  /** What goes into errors. */
  datatype Failure = EventBufferFull | AxisEventBufferFull | Other(message: string)

  /** One attempt to send, with what the consumer had taken by then. */
  datatype Offer<T> = Offer(item: T, kept: bool, received: nat)

  /** `offers` and `received` are the history of both ends. */
  datatype Stream<T> = Stream(capacity: nat, buffer: seq<T>, received: seq<T>, offers: seq<Offer<T>>)

  function NewStream<T>(capacity: nat): Stream<T> {
    Stream(capacity, [], [], [])
  }

  function TrySend<T>(s: Stream<T>, item: T): Stream<T> {
    if |s.buffer| < s.capacity then
      s.(buffer := s.buffer + [item], offers := s.offers + [Offer(item, true, |s.received|)])
    else
      s.(offers := s.offers + [Offer(item, false, |s.received|)])
  }

  function Receive<T>(s: Stream<T>): Stream<T>
    requires s.buffer != []
  {
    s.(buffer := s.buffer[1..], received := s.received + [s.buffer[0]])
  }

  function Items<T>(offers: seq<Offer<T>>): seq<T> {
    seq(|offers|, k requires 0 <= k < |offers| => offers[k].item)
  }

  /** The items that got into the channel, in order. */
  function Kept<T>(offers: seq<Offer<T>>): seq<T> {
    if offers == [] then []
    else if offers[|offers| - 1].kept then Kept(offers[..|offers| - 1]) + [offers[|offers| - 1].item]
    else Kept(offers[..|offers| - 1])
  }

  function Dropped<T>(offers: seq<Offer<T>>): nat {
    if offers == [] then 0
    else Dropped(offers[..|offers| - 1]) + (if offers[|offers| - 1].kept then 0 else 1)
  }

  function Count<T(==)>(items: seq<T>, item: T): nat {
    if items == [] then 0
    else Count(items[..|items| - 1], item) + (if items[|items| - 1] == item then 1 else 0)
  }

  /** How many items were in the channel when offer k was made, from the history alone. */
  function Pending<T>(offers: seq<Offer<T>>, k: nat): int
    requires k < |offers|
  {
    |Kept(offers[..k])| - offers[k].received
  }

  /** An offer is turned down exactly when the channel is full. */
  ghost predicate FairOffers<T>(offers: seq<Offer<T>>, capacity: nat) {
    forall k | 0 <= k < |offers| ::
      0 <= Pending(offers, k) <= capacity && (offers[k].kept <==> Pending(offers, k) < capacity)
  }

  /** What a consumer can rely on: it has received, in order, the oldest of the kept items, the
      rest is still there for it, and nothing was dropped but for a full channel. */
  ghost predicate Faithful<T>(s: Stream<T>) {
    && s.received + s.buffer == Kept(s.offers)
    && |s.buffer| <= s.capacity
    && FairOffers(s.offers, s.capacity)
  }

  lemma KeptAppend<T>(offers: seq<Offer<T>>, offer: Offer<T>)
    ensures Kept(offers + [offer]) == if offer.kept then Kept(offers) + [offer.item] else Kept(offers)
    ensures Dropped(offers + [offer]) == Dropped(offers) + (if offer.kept then 0 else 1)
  {
    assert (offers + [offer])[..|offers|] == offers;
  }

  lemma CountAppend<T>(items: seq<T>, last: T, item: T)
    ensures Count(items + [last], item) == Count(items, item) + (if last == item then 1 else 0)
  {
    assert (items + [last])[..|items|] == items;
  }

  lemma PendingAppend<T>(offers: seq<Offer<T>>, offer: Offer<T>, k: nat)
    requires k <= |offers|
    ensures Pending(offers + [offer], k) == if k < |offers| then Pending(offers, k) else |Kept(offers)| - offer.received
  {
    assert (offers + [offer])[..k] == offers[..k];
    assert offers[..|offers|] == offers;
  }

  lemma FairAppend<T>(offers: seq<Offer<T>>, offer: Offer<T>, capacity: nat)
    requires FairOffers(offers, capacity)
    requires 0 <= |Kept(offers)| - offer.received <= capacity
    requires offer.kept <==> |Kept(offers)| - offer.received < capacity
    ensures FairOffers(offers + [offer], capacity)
  {
    forall k | 0 <= k < |offers + [offer]|
      ensures var all := offers + [offer];
              0 <= Pending(all, k) <= capacity && (all[k].kept <==> Pending(all, k) < capacity)
    {
      PendingAppend(offers, offer, k);
    }
  }

  lemma TrySendFaithful<T>(s: Stream<T>, item: T)
    requires Faithful(s)
    ensures Faithful(TrySend(s, item))
    ensures Items(TrySend(s, item).offers) == Items(s.offers) + [item]
  {
    var offer := Offer(item, |s.buffer| < s.capacity, |s.received|);
    assert |Kept(s.offers)| == |s.received| + |s.buffer|;
    KeptAppend(s.offers, offer);
    FairAppend(s.offers, offer, s.capacity);
    Associative(s.received, s.buffer, [item]);
  }

  lemma ReceiveFaithful<T>(s: Stream<T>)
    requires Faithful(s) && s.buffer != []
    ensures Faithful(Receive(s))
  {
    assert s.buffer == [s.buffer[0]] + s.buffer[1..];
    Associative(s.received, [s.buffer[0]], s.buffer[1..]);
  }

  /** Positions that pick `part` out of `whole` in order. */
  ghost predicate PicksInOrder<T>(part: seq<T>, whole: seq<T>, positions: seq<nat>) {
    && |positions| == |part|
    && (forall i | 0 <= i < |part| :: positions[i] < |whole| && whole[positions[i]] == part[i])
    && (forall i, j | 0 <= i < j < |positions| :: positions[i] < positions[j])
  }

  lemma {:induction false} KeptIsSubsequence<T>(offers: seq<Offer<T>>) returns (positions: seq<nat>)
    ensures PicksInOrder(Kept(offers), Items(offers), positions)
  {
    if offers == [] {
      positions := [];
    } else {
      var front := offers[..|offers| - 1];
      positions := KeptIsSubsequence(front);
      assert forall k | 0 <= k < |front| :: Items(front)[k] == Items(offers)[k];
      if offers[|offers| - 1].kept {
        positions := positions + [|front|];
      }
    }
  }

  /** Received and pending together are a subsequence of what was offered; all of it, when
      nothing was dropped. */
  lemma DeliveredInOrder<T>(s: Stream<T>)
    requires Faithful(s)
    ensures exists positions :: PicksInOrder(s.received + s.buffer, Items(s.offers), positions)
    ensures (forall k | 0 <= k < |s.offers| :: s.offers[k].kept) ==> s.received + s.buffer == Items(s.offers)
  {
    var positions := KeptIsSubsequence(s.offers);
    if forall k | 0 <= k < |s.offers| :: s.offers[k].kept { AllKept(s.offers); }
  }

  lemma {:induction false} AllKept<T>(offers: seq<Offer<T>>)
    requires forall k | 0 <= k < |offers| :: offers[k].kept
    ensures Kept(offers) == Items(offers)
  {
    if offers == [] {
    } else {
      AllKept(offers[..|offers| - 1]);
      assert Items(offers) == Items(offers[..|offers| - 1]) + [offers[|offers| - 1].item];
    }
  }
}
