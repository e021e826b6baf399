/** The presenter picker: it loads the replica list once, keeps only the
    ready replicas, and highlights the card of the selected replica. */
module ReplicaSelector {
  import opened Common
  import opened Tavus
  import opened UseTavus

  /** The replicas whose status is ready, in their original order. */
  function ReadyReplicas(data: seq<Replica>): (ready: seq<Replica>)
    ensures |ready| <= |data|
    ensures forall r :: r in ready ==> r in data && r.status == ReplicaReady
    ensures forall r :: r in data && r.status == ReplicaReady ==> r in ready
  {
    if data == [] then []
    else if data[0].status == ReplicaReady then [data[0]] + ReadyReplicas(data[1..])
    else ReadyReplicas(data[1..])
  }

  /** Filtering distributes over concatenation, so the ready replicas keep
      their relative order. */
  lemma {:induction false} ReadyReplicasOfConcat(a: seq<Replica>, b: seq<Replica>)
    ensures ReadyReplicas(a + b) == ReadyReplicas(a) + ReadyReplicas(b)
  {
    if a == [] {
      assert a + b == b;
    } else {
      assert (a + b)[0] == a[0] && (a + b)[1..] == a[1..] + b;
      ReadyReplicasOfConcat(a[1..], b);
    }
  }

  /** Every ready replica is kept as often as it occurs, every other one dropped. */
  lemma {:induction false} ReadyReplicasCounts(data: seq<Replica>)
    ensures forall r :: multiset(ReadyReplicas(data))[r] == if r.status == ReplicaReady then multiset(data)[r] else 0
  {
    if data != [] {
      ReadyReplicasCounts(data[1..]);
      assert data == [data[0]] + data[1..];
    }
  }

  /** A list of ready replicas passes through the filter unchanged. */
  lemma {:induction false} ReadyReplicasKeepsReadyList(data: seq<Replica>)
    requires forall r :: r in data ==> r.status == ReplicaReady
    ensures ReadyReplicas(data) == data
  {
    if data != [] {
      ReadyReplicasKeepsReadyList(data[1..]);
    }
  }

  /** Whether a card has the highlight ring and the check mark: a replica is
      selected and it has the card's id. */
  predicate IsSelected(selected: Option<Replica>, card: Replica)
    ensures IsSelected(selected, card) ==> selected.Some?
    ensures selected == Some(card) ==> IsSelected(selected, card)
    ensures selected.Some? && selected.value.replica_id != card.replica_id ==> !IsSelected(selected, card)
  {
    selected.Some? && selected.value.replica_id == card.replica_id
  }

  /** A card of the grid. */
  datatype Card = Card(replica: Replica, highlighted: bool)

  function Cards(replicas: seq<Replica>, selected: Option<Replica>): (cards: seq<Card>)
    ensures |cards| == |replicas|
    ensures forall i :: 0 <= i < |cards| ==> cards[i].replica == replicas[i]
    ensures forall i :: 0 <= i < |cards| ==> (cards[i].highlighted <==> IsSelected(selected, replicas[i]))
  {
    if replicas == [] then [] else [Card(replicas[0], IsSelected(selected, replicas[0]))] + Cards(replicas[1..], selected)
  }

  function HighlightedCount(cards: seq<Card>): nat
  {
    if cards == [] then 0 else (if cards[0].highlighted then 1 else 0) + HighlightedCount(cards[1..])
  }

  predicate DistinctIds(replicas: seq<Replica>)
  {
    forall i, j :: 0 <= i < j < |replicas| ==> replicas[i].replica_id != replicas[j].replica_id
  }

  /** When the listed replicas have distinct ids, at most one card is
      highlighted, and none when nothing is selected. */
  lemma {:induction false} AtMostOneHighlighted(replicas: seq<Replica>, selected: Option<Replica>)
    requires DistinctIds(replicas)
    ensures HighlightedCount(Cards(replicas, selected)) <= 1
    ensures selected.None? ==> HighlightedCount(Cards(replicas, selected)) == 0
  {
    if replicas != [] {
      var rest := replicas[1..];
      assert DistinctIds(rest) by {
        forall i, j | 0 <= i < j < |rest| ensures rest[i].replica_id != rest[j].replica_id {
          assert rest[i] == replicas[i + 1] && rest[j] == replicas[j + 1];
        }
      }
      AtMostOneHighlighted(rest, selected);
      var cards := Cards(replicas, selected);
      assert cards[1..] == Cards(rest, selected);
      if cards[0].highlighted {
        NoneHighlighted(rest, selected, replicas[0]);
      }
    }
  }

  lemma {:induction false} NoneHighlighted(replicas: seq<Replica>, selected: Option<Replica>, other: Replica)
    requires IsSelected(selected, other)
    requires forall i :: 0 <= i < |replicas| ==> replicas[i].replica_id != other.replica_id
    ensures HighlightedCount(Cards(replicas, selected)) == 0
  {
    if replicas != [] {
      NoneHighlighted(replicas[1..], selected, other);
      assert Cards(replicas, selected)[1..] == Cards(replicas[1..], selected);
    }
  }

  /** What the component renders. */
  datatype View = Skeletons | LoadError(message: string) | NoPresenters | Grid(cards: seq<Card>)

  class Selector {
    var replicas: seq<Replica>
    var loading: bool
    const tavus: TavusHook

    /** Only ready replicas are ever listed. */
    ghost predicate Valid()
      reads this
    {
      forall r :: r in replicas ==> r.status == ReplicaReady
    }

    constructor (hook: TavusHook)
      ensures Valid() && replicas == [] && loading && tavus == hook
    {
      replicas := [];
      loading := true;
      tavus := hook;
    }

    /** `loadReplicas`: fetch the list, keep the ready replicas, and stop
        loading whether or not the fetch succeeded; a failed fetch leaves the
        list as it was and records the error in the hook. */
    method LoadReplicas(reply: HttpResponse<seq<Replica>>)
      requires Valid()
      modifies this, tavus
      ensures Valid() && !loading
      ensures reply.ok ==> replicas == ReadyReplicas(reply.json) && tavus.error == old(tavus.error)
      ensures !reply.ok ==> replicas == old(replicas) && tavus.error == Some(ReplicasFailure)
      ensures tavus.loading == old(tavus.loading)
    {
      var data := tavus.FetchReplicas(reply);
      if data.Success? {
        replicas := ReadyReplicas(data.value);
      }
      loading := false;
    }

    /** The branch rendered: loading first, then the error, then the empty
        list, then the grid of cards. */
    function Render(selected: Option<Replica>): (v: View)
      reads this, tavus
      ensures loading ==> v == Skeletons
      ensures !loading && tavus.error.Some? ==> v == LoadError(tavus.error.value)
      ensures v == NoPresenters <==> !loading && tavus.error.None? && replicas == []
      ensures v.Grid? <==> !loading && tavus.error.None? && replicas != []
      ensures v.Grid? ==> v.cards == Cards(replicas, selected)
    {
      if loading then Skeletons
      else if tavus.error.Some? then LoadError(tavus.error.value)
      else if replicas == [] then NoPresenters
      else Grid(Cards(replicas, selected))
    }

    /** Clicking the i-th card of the grid hands exactly that card's replica
        to the parent; there is nothing to click outside the grid. */
    function Click(selected: Option<Replica>, i: nat): (picked: Option<Replica>)
      reads this, tavus
      requires Valid()
      ensures picked.Some? <==> Render(selected).Grid? && i < |replicas|
      ensures picked.Some? ==> picked.value == replicas[i] && picked.value.status == ReplicaReady
    {
      var v := Render(selected);
      if v.Grid? && i < |v.cards| then Some(v.cards[i].replica) else None
    }
  }
}
