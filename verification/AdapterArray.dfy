// The ten-slot array of adapters: filled from the front, holes closed by moving the last adapter, the
// modem reopened after every change and closed when nobody is left.
module AdapterArray {
  import opened Mask64

  type Adapter = nat

  const NULL: Adapter := 0
  const MAX_ADAPTERS := 10

  datatype Message = Open(adapter: Adapter) | Reopen | Close

  datatype State = State(list: seq<Adapter>, sent: seq<Message>)

  const INITIAL := State([], [])

  // ---- the list of adapters ----

  predicate Distinct(list: seq<Adapter>) {
    forall i, j :: 0 <= i < j < |list| ==> list[i] != list[j]
  }

  // What the front of the array is: no holes, no repetitions.
  predicate Sound(list: seq<Adapter>) {
    |list| <= MAX_ADAPTERS && NULL !in list && Distinct(list)
  }

  function IndexOf(list: seq<Adapter>, a: Adapter): (n: nat)
    requires a in list
    ensures n < |list| && list[n] == a && a !in list[..n]
  {
    if list[0] == a then 0
    else
      assert list == [list[0]] + list[1..];
      IndexOf(list[1..], a) + 1
  }

  function Added(s: State, a: Adapter): State {
    if a == NULL || a in s.list || |s.list| == MAX_ADAPTERS then s
    else State(s.list + [a], s.sent + [Open(a)])
  }

  // The last adapter takes the place of the one removed.
  function Dropped(list: seq<Adapter>, n: nat): seq<Adapter>
    requires n < |list|
  {
    list[n := list[|list| - 1]][..|list| - 1]
  }

  function Removed(s: State, a: Adapter): State {
    if a == NULL || a !in s.list then s
    else State(Dropped(s.list, IndexOf(s.list, a)), s.sent + [if |s.list| == 1 then Close else Reopen])
  }

  datatype Event = Add(adapter: Adapter) | Remove(adapter: Adapter)

  function Step(s: State, e: Event): State {
    match e
    case Add(a) => Added(s, a)
    case Remove(a) => Removed(s, a)
  }

  function Run(events: seq<Event>): State {
    if events == [] then INITIAL else Step(Run(events[..|events| - 1]), events[|events| - 1])
  }

  // ---- the simple model: a set ----

  function Elements(list: seq<Adapter>): set<Adapter> {
    set a | a in list
  }

  function Joined(s: set<Adapter>, e: Event): set<Adapter> {
    match e
    case Add(a) => if a == NULL || |s| >= 10 then s else s + {a}
    case Remove(a) => s - {a}
  }

  function Members(events: seq<Event>): set<Adapter> {
    if events == [] then {} else Joined(Members(events[..|events| - 1]), events[|events| - 1])
  }

  lemma {:induction false} Cardinality(list: seq<Adapter>)
    requires Distinct(list)
    ensures |Elements(list)| == |list|
    decreases |list|
  {
    if list == [] {
      assert Elements(list) == {};
    } else {
      var n := |list| - 1;
      Cardinality(list[..n]);
      assert list == list[..n] + [list[n]];
      assert Elements(list) == Elements(list[..n]) + {list[n]};
    }
  }

  lemma DroppedElements(list: seq<Adapter>, n: nat)
    requires Sound(list) && n < |list|
    ensures Sound(Dropped(list, n)) && Elements(Dropped(list, n)) == Elements(list) - {list[n]}
    ensures forall i :: 0 <= i < |list| - 1 ==> Dropped(list, n)[i] == list[if i == n then |list| - 1 else i]
  {
    var rest := Dropped(list, n);
    forall a
      ensures a in rest <==> a in list && a != list[n]
    {
      if a in list && a != list[n] {
        var i :| 0 <= i < |list| && list[i] == a;
        assert rest[if i == |list| - 1 then n else i] == a;
      }
    }
  }

  lemma StepIsSound(s: State, e: Event)
    requires Sound(s.list)
    ensures Sound(Step(s, e).list)
    ensures Elements(Step(s, e).list) == Joined(Elements(s.list), e)
  {
    Cardinality(s.list);
    match e
    case Add(a) =>
      if Step(s, e) != s {
        assert Elements(s.list + [a]) == Elements(s.list) + {a};
      }
    case Remove(a) =>
      if Step(s, e) != s {
        DroppedElements(s.list, IndexOf(s.list, a));
      }
  }

  // Over any sequence of adds and removes: no holes, no repetitions, and the same adapters as the set.
  lemma {:induction false} RunIsSound(events: seq<Event>)
    ensures Sound(Run(events).list) && Elements(Run(events).list) == Members(events)
    decreases |events|
  {
    if events != [] {
      RunIsSound(events[..|events| - 1]);
      StepIsSound(Run(events[..|events| - 1]), events[|events| - 1]);
    }
  }

  // Every change of the set is answered by one message, and nothing else is: an arrival opens the modem
  // for the newcomer, the last departure closes it and any other one opens it again for those left.
  lemma ChangesAreAnswered(events: seq<Event>)
    requires events != []
    ensures var front, a := events[..|events| - 1], events[|events| - 1].adapter;
            var before, after := Members(front), Members(events);
            Run(events).sent == Run(front).sent +
              if after == before then []
              else if a in after then [Open(a)]
              else if after == {} then [Close]
              else [Reopen]
  {
    var front, last := events[..|events| - 1], events[|events| - 1];
    RunIsSound(front);
    RunIsSound(events);
    var s := Run(front);
    Cardinality(s.list);
    Cardinality(Run(events).list);
    assert last.adapter in Elements(s.list) <==> last.adapter in s.list;
    assert |Elements(Run(events).list)| == 0 <==> Members(events) == {};
  }

  // A close is sent exactly when the last adapter goes, and no other message is about an empty array:
  // the modem has been closed last exactly when the array is empty.
  lemma {:induction false} ClosedWhenEmpty(events: seq<Event>)
    ensures var s := Run(events);
            if s.sent == [] then s.list == [] else (s.sent[|s.sent| - 1] == Close <==> s.list == [])
    ensures events != [] ==>
              (Run(events).sent == Run(events[..|events| - 1]).sent + [Close] <==>
               Run(events[..|events| - 1]).list != [] && Run(events).list == [])
    decreases |events|
  {
    if events != [] {
      ClosedWhenEmpty(events[..|events| - 1]);
      var s, e := Run(events[..|events| - 1]), events[|events| - 1];
      LastOfLonger(s.sent, Close, Step(s, e).sent);
    }
  }

  lemma LastOfLonger(sent: seq<Message>, m: Message, longer: seq<Message>)
    ensures longer == sent + [m] ==> |longer| == |sent| + 1 && longer[|sent|] == m
  {
  }

  // ---- the event mask ----

  // Some adapter of the list asks for event `i`.
  predicate Asked(list: seq<Adapter>, masks: map<Adapter, bv64>, i: Index)
    requires forall a :: a in list ==> a in masks
  {
    exists a :: a in list && Bit(masks[a], i)
  }

  function Union(list: seq<Adapter>, masks: map<Adapter, bv64>): bv64
    requires forall a :: a in list ==> a in masks
  {
    if list == [] then 0 else Union(list[..|list| - 1], masks) | masks[list[|list| - 1]]
  }

  lemma UnionOfMore(list: seq<Adapter>, masks: map<Adapter, bv64>, i: nat)
    requires i < |list| && forall a :: a in list ==> a in masks
    ensures Union(list[..i + 1], masks) == Union(list[..i], masks) | masks[list[i]]
  {
    assert list[..i + 1][..i] == list[..i];
  }

  lemma AskedByLast(list: seq<Adapter>, masks: map<Adapter, bv64>, i: Index)
    requires list != [] && forall a :: a in list ==> a in masks
    ensures Asked(list, masks, i) <==> Asked(list[..|list| - 1], masks, i) || Bit(masks[list[|list| - 1]], i)
  {
    assert forall a :: a in list <==> a in list[..|list| - 1] || a == list[|list| - 1];
  }

  lemma WidenedMeaning(mask: bv64, more: bv64, all: bv64, i: Index, asked: bool)
    requires all == mask | more && (Bit(mask, i) <==> asked)
    ensures Bit(all, i) <==> asked || Bit(more, i)
  {
    BitOfUnion(mask, more, i);
  }

  lemma {:induction false} UnionMeaning(list: seq<Adapter>, masks: map<Adapter, bv64>, i: Index)
    requires forall a :: a in list ==> a in masks
    ensures Bit(Union(list, masks), i) <==> Asked(list, masks, i)
    decreases |list|
  {
    if list == [] {
      BitOfZero(i);
    } else {
      var front, last := list[..|list| - 1], list[|list| - 1];
      UnionMeaning(front, masks, i);
      WidenedMeaning(Union(front, masks), masks[last], Union(list, masks), i, Asked(front, masks, i));
      AskedByLast(list, masks, i);
    }
  }

  // The mask asked of the modem has exactly the bits that some adapter wants and none is excluded.
  lemma EventMaskMeaning(list: seq<Adapter>, masks: map<Adapter, bv64>, excluded: bv64, i: Index)
    requires forall a :: a in list ==> a in masks
    ensures Bit(Without(Union(list, masks), excluded), i) <==> Asked(list, masks, i) && !Bit(excluded, i)
  {
    UnionMeaning(list, masks, i);
    BitOfWithout(Union(list, masks), excluded, i);
  }

  // ---- the array as it is updated ----

  class LocApiBase {
    const mLocAdapters: array<Adapter>
    const mExcludedMask: bv64
    var sent: seq<Message>
    ghost var list: seq<Adapter>

    ghost predicate Valid()
      reads this, mLocAdapters
    {
      && mLocAdapters.Length == MAX_ADAPTERS && Sound(list)
      && (forall k :: 0 <= k < |list| ==> mLocAdapters[k] == list[k])
      && (forall k :: |list| <= k < MAX_ADAPTERS ==> mLocAdapters[k] == NULL)
    }

    ghost function Abstract(): State
      reads this
    {
      State(list, sent)
    }

    constructor (excludedMask: bv64)
      ensures Valid() && Abstract() == INITIAL && fresh(mLocAdapters) && mExcludedMask == excludedMask
    {
      mLocAdapters := new Adapter[MAX_ADAPTERS](_ => NULL);
      mExcludedMask := excludedMask;
      sent, list := [], [];
    }

    method AddAdapter(adapter: Adapter)
      requires Valid()
      modifies this, mLocAdapters
      ensures Valid() && Abstract() == Added(old(Abstract()), adapter)
    {
      var i := 0;
      while i < MAX_ADAPTERS && mLocAdapters[i] != adapter
        invariant 0 <= i <= |list| && adapter !in list[..i]
        invariant Valid() && Abstract() == old(Abstract()) && unchanged(mLocAdapters)
        decreases MAX_ADAPTERS - i
      {
        if mLocAdapters[i] == NULL {
          assert list[..i] == list;
          mLocAdapters[i] := adapter;
          list := list + [adapter];
          sent := sent + [Open(adapter)];
          return;
        }
        i := i + 1;
      }
      if i < |list| {
        assert list[i] == adapter;
      } else {
        assert list[..i] == list;
      }
    }

    // The scan for the last adapter and the outer one share their index.
    method RemoveAdapter(adapter: Adapter)
      requires Valid()
      modifies this, mLocAdapters
      ensures Valid() && Abstract() == Removed(old(Abstract()), adapter)
    {
      ghost var done := false;
      var i := 0;
      while i < MAX_ADAPTERS && mLocAdapters[i] != NULL
        invariant Valid() && 0 <= i
        invariant !done ==> i <= |list| && adapter !in list[..i] && Abstract() == old(Abstract())
        invariant done ==> |list| < i && Abstract() == Removed(old(Abstract()), adapter)
        decreases MAX_ADAPTERS - i
      {
        assert list[i] == mLocAdapters[i];
        if mLocAdapters[i] == adapter {
          IndexIs(list, adapter, i);
          i := CloseHole(i);
          sent := sent + [if i == 0 then Close else Reopen];
          done := true;
        }
        i := i + 1;
      }
      if !done {
        assert list[..i] == list;
      }
    }

    // Moves the last adapter into slot `j` and returns the slot freed.
    method CloseHole(j: nat) returns (i: nat)
      requires Valid() && j < |list|
      modifies this`list, mLocAdapters
      ensures Valid() && list == Dropped(old(list), j) && i == |list|
    {
      mLocAdapters[j] := NULL;
      i := j + 1;
      while i < MAX_ADAPTERS && mLocAdapters[i] != NULL
        invariant j < i <= |list|
        invariant list == old(list) && mLocAdapters[j] == NULL
        invariant forall k :: 0 <= k < MAX_ADAPTERS && k != j ==>
          mLocAdapters[k] == if k < |list| then list[k] else NULL
      {
        i := i + 1;
      }
      i := i - 1;
      assert i == |list| - 1;
      mLocAdapters[j] := mLocAdapters[i];
      mLocAdapters[i] := NULL;
      DroppedElements(list, j);
      list := Dropped(list, j);
    }

    method GetEvtMask(masks: map<Adapter, bv64>) returns (mask: bv64)
      requires Valid() && forall a :: a in list ==> a in masks
      ensures mask == Without(Union(list, masks), mExcludedMask)
    {
      mask := 0;
      var i := 0;
      while i < MAX_ADAPTERS && mLocAdapters[i] != NULL
        invariant 0 <= i <= |list| && mask == Union(list[..i], masks)
        decreases MAX_ADAPTERS - i
      {
        UnionOfMore(list, masks, i);
        mask := mask | masks[mLocAdapters[i]];
        i := i + 1;
      }
      assert list[..i] == list;
      mask := Without(mask, mExcludedMask);
    }
  }

  lemma IndexIs(list: seq<Adapter>, a: Adapter, n: nat)
    requires Distinct(list) && n < |list| && list[n] == a
    ensures a in list && IndexOf(list, a) == n
  {
  }
}
