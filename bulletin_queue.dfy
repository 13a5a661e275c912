/**
  The priority admission queue of the library (`BulletinQueue`). The queue is an
  array of bulletin views whose LAST element is the top, i.e. showing, bulletin.
  `Add` places a new bulletin by priority and may evict the top; `Pop` removes
  the top.

  The queue is modelled as a class over a `seq` (Swift's private `bulletins`
  array, which `add` and `pop` change in place). `Admit` is the functional
  specification of `add`; the lemmas below it state the admission rules and the
  ordering invariant, and `BulletinQueue.Add` is proved to compute `Admit`.
*/
module Queue {
  import opened Wrappers

  /** Bulletin priority. The raw values are ordered Low < High < Required. */
  datatype Priority = Low | High | Required

  /** The raw value's order of a priority. */
  function Rank(p: Priority): nat {
    match p
    case Low => 0
    case High => 1
    case Required => 2
  }

  /** A queued bulletin view: its object identity and its priority. */
  datatype Item = Item(id: nat, priority: Priority)

  /** The element tests the queue searches with. */
  datatype Test =
    | HasPriority(p: Priority)   // `$0.priority == bulletin.priority`
    | Outranks(p: Priority)      // `$0.priority.rawValue > bulletin.priority.rawValue`
    | Is(x: Item)                // the identity test behind `index(of:)`

  predicate Holds(t: Test, x: Item) {
    match t
    case HasPriority(p) => x.priority == p
    case Outranks(p) => Rank(x.priority) > Rank(p)
    case Is(y) => x == y
  }

  /** Reference definition: the least index whose element passes `t`, if any. */
  function IndexWhere(s: seq<Item>, t: Test): (r: Option<nat>)
    ensures r.Some? ==> r.value < |s| && Holds(t, s[r.value])
    ensures r.Some? ==> forall j :: 0 <= j < r.value ==> !Holds(t, s[j])
    ensures r.None? <==> forall j :: 0 <= j < |s| ==> !Holds(t, s[j])
  {
    if s == [] then None
    else if Holds(t, s[0]) then Some(0)
    else match IndexWhere(s[1..], t)
      case None => None
      case Some(k) => Some(k + 1)
  }

  /** Swift's `first(where:)`: the first element that passes `t`. */
  function FirstWhere(s: seq<Item>, t: Test): (r: Option<Item>)
    ensures r.None? <==> IndexWhere(s, t).None?
    ensures r.Some? ==> r.value == s[IndexWhere(s, t).value]
  {
    if s == [] then None
    else if Holds(t, s[0]) then Some(s[0])
    else FirstWhere(s[1..], t)
  }

  /** Swift's `index(of:)`: the first index holding `x` (views compare by identity). */
  function IndexOf(s: seq<Item>, x: Item): (r: Option<nat>)
    ensures r.Some? ==> r.value < |s| && s[r.value] == x
    ensures r.Some? ==> forall j :: 0 <= j < r.value ==> s[j] != x
    ensures r.None? <==> x !in s
  {
    IndexWhere(s, Is(x))
  }

  /** An index that passes the test, with no passing index before it, is the
      one `IndexWhere` finds. */
  lemma IndexWhereIsLeast(s: seq<Item>, t: Test, i: nat)
    requires i < |s| && Holds(t, s[i])
    requires forall j :: 0 <= j < i ==> !Holds(t, s[j])
    ensures IndexWhere(s, t) == Some(i)
  {
  }

  /** Looking an element up with `first(where:)` and then finding it again with
      `index(of:)` yields the least index that passes the test. */
  lemma LocatedIsFirst(s: seq<Item>, t: Test)
    requires FirstWhere(s, t).Some?
    ensures IndexOf(s, FirstWhere(s, t).value) == IndexWhere(s, t)
  {
    var k := IndexWhere(s, t).value;
    var x := s[k];
    forall j | 0 <= j < k ensures !Holds(Is(x), s[j]) {
      assert !Holds(t, s[j]);
    }
    IndexWhereIsLeast(s, Is(x), k);
  }

  /** The top of a queue: its last element, or none when it is empty. */
  function Last(q: seq<Item>): (r: Option<Item>)
    ensures r.None? <==> q == []
    ensures r.Some? ==> r.value == q[|q| - 1]
  {
    if q == [] then None else Some(q[|q| - 1])
  }

  /** The queue after `removeLast`, or the empty queue unchanged. */
  function DropLast(q: seq<Item>): (r: seq<Item>)
    ensures q != [] ==> r + [q[|q| - 1]] == q
    ensures q == [] ==> r == []
  {
    if q == [] then [] else q[..|q| - 1]
  }

  /** Swift's `insert(_:at:)`. */
  function Insert(q: seq<Item>, x: Item, i: nat): (r: seq<Item>)
    requires i <= |q|
    ensures |r| == |q| + 1 && r[i] == x
    ensures r[..i] == q[..i] && r[i + 1..] == q[i..]
  {
    q[..i] + [x] + q[i..]
  }

  lemma InsertMultiset(q: seq<Item>, x: Item, i: nat)
    requires i <= |q|
    ensures multiset(Insert(q, x, i)) == multiset(q) + multiset{x}
  {
    assert q == q[..i] + q[i..];
  }

  lemma ReplaceTopMultiset(q: seq<Item>, x: Item)
    ensures multiset(DropLast(q) + [x]) + (if q == [] then multiset{} else multiset{q[|q| - 1]})
         == multiset(q) + multiset{x}
  {
    if q != [] {
      assert q == q[..|q| - 1] + [q[|q| - 1]];
    }
  }

  /** The result of `add`: the new queue and the bulletin it popped, if any. */
  datatype Admission = Admission(queue: seq<Item>, evicted: Option<Item>)

  function Evicted(a: Admission): multiset<Item> {
    if a.evicted.Some? then multiset{a.evicted.value} else multiset{}
  }

  /** Functional specification of `add(_:)`. */
  function Admit(q: seq<Item>, b: Item): (r: Admission)
    ensures |r.queue| == |q| + 1 - |Evicted(r)|
    ensures multiset(r.queue) + Evicted(r) == multiset(q) + multiset{b}
    ensures b in r.queue
  {
    if b.priority == Required then
      ReplaceTopMultiset(q, b);
      Admission(DropLast(q) + [b], Last(q))
    else if q == [] then
      Admission([b], None)
    else match IndexWhere(q, HasPriority(b.priority))
      case Some(i) => InsertMultiset(q, b, i); Admission(Insert(q, b, i), None)
      case None =>
        match IndexWhere(q, Outranks(b.priority))
        case Some(i) => InsertMultiset(q, b, i); Admission(Insert(q, b, i), None)
        case None => ReplaceTopMultiset(q, b); Admission(DropLast(q) + [b], Last(q))
  }

  /** Non-decreasing by priority from the first element to the top. */
  ghost predicate Ordered(q: seq<Item>) {
    forall i, j :: 0 <= i < j < |q| ==> Rank(q[i].priority) <= Rank(q[j].priority)
  }

  // ---------------------------------------------------------------------------
  // The four admission rules

  /** A Required bulletin pops the previous top, if any, and becomes the top;
      the other elements keep their order. */
  lemma AdmitRequired(q: seq<Item>, b: Item)
    requires b.priority == Required
    ensures Admit(q, b).evicted == Last(q)
    ensures Last(Admit(q, b).queue) == Some(b)
    ensures DropLast(Admit(q, b).queue) == DropLast(q)
  {
  }

  /** A first, non-Required bulletin goes into the empty queue and evicts nothing. */
  lemma AdmitIntoEmpty(b: Item)
    requires b.priority != Required
    ensures Admit([], b) == Admission([b], None)
  {
  }

  /** With some element of equal priority, the newcomer is inserted at the index
      of the first such element; nothing is evicted. */
  lemma AdmitBeforeFirstEqual(q: seq<Item>, b: Item, i: nat)
    requires b.priority != Required
    requires i < |q| && q[i].priority == b.priority
    requires forall j :: 0 <= j < i ==> q[j].priority != b.priority
    ensures Admit(q, b) == Admission(q[..i] + [b] + q[i..], None)
    ensures |Admit(q, b).queue| == |q| + 1
  {
    forall j | 0 <= j < i ensures !Holds(HasPriority(b.priority), q[j]) {
      assert q[j].priority != b.priority;
    }
    IndexWhereIsLeast(q, HasPriority(b.priority), i);
  }

  /** With no element of equal priority but some of greater priority, the
      newcomer is inserted at the index of the first greater one; nothing is
      evicted. */
  lemma AdmitBeforeFirstGreater(q: seq<Item>, b: Item, i: nat)
    requires b.priority != Required
    requires forall j :: 0 <= j < |q| ==> q[j].priority != b.priority
    requires i < |q| && Rank(q[i].priority) > Rank(b.priority)
    requires forall j :: 0 <= j < i ==> Rank(q[j].priority) <= Rank(b.priority)
    ensures Admit(q, b) == Admission(q[..i] + [b] + q[i..], None)
    ensures |Admit(q, b).queue| == |q| + 1
  {
    assert IndexWhere(q, HasPriority(b.priority)).None? by {
      forall j | 0 <= j < |q| ensures !Holds(HasPriority(b.priority), q[j]) {
        assert q[j].priority != b.priority;
      }
    }
    forall j | 0 <= j < i ensures !Holds(Outranks(b.priority), q[j]) {
      assert Rank(q[j].priority) <= Rank(b.priority);
    }
    IndexWhereIsLeast(q, Outranks(b.priority), i);
  }

  /** When every element has lower priority, the top is popped and returned and
      the newcomer is appended as the new top; the length is unchanged. */
  lemma AdmitEvictsLowerTop(q: seq<Item>, b: Item)
    requires b.priority != Required && q != []
    requires forall j :: 0 <= j < |q| ==> Rank(q[j].priority) < Rank(b.priority)
    ensures Admit(q, b) == Admission(q[..|q| - 1] + [b], Some(q[|q| - 1]))
    ensures |Admit(q, b).queue| == |q|
  {
    assert IndexWhere(q, HasPriority(b.priority)).None? by {
      forall j | 0 <= j < |q| ensures !Holds(HasPriority(b.priority), q[j]) {
        assert Rank(q[j].priority) < Rank(b.priority);
      }
    }
    assert IndexWhere(q, Outranks(b.priority)).None? by {
      forall j | 0 <= j < |q| ensures !Holds(Outranks(b.priority), q[j]) {
        assert Rank(q[j].priority) < Rank(b.priority);
      }
    }
  }

  /** A bulletin is evicted exactly when it was the top and the newcomer takes its
      place; otherwise the top is untouched (or the newcomer fills the empty queue). */
  lemma AdmitTop(q: seq<Item>, b: Item)
    ensures Admit(q, b).evicted.Some? ==> Admit(q, b).evicted == Last(q) && Last(Admit(q, b).queue) == Some(b)
    ensures Admit(q, b).evicted.None? && q != [] ==> Last(Admit(q, b).queue) == Last(q)
    ensures Admit(q, b).evicted.None? && q == [] ==> Admit(q, b).queue == [b]
  {
    var r := Admit(q, b);
    if b.priority == Required || q == [] {
    } else if IndexWhere(q, HasPriority(b.priority)).Some? {
      var i := IndexWhere(q, HasPriority(b.priority)).value;
      assert r == Admission(Insert(q, b, i), None);
      InsertBelowTop(q, b, i);
    } else if IndexWhere(q, Outranks(b.priority)).Some? {
      var i := IndexWhere(q, Outranks(b.priority)).value;
      assert r == Admission(Insert(q, b, i), None);
      InsertBelowTop(q, b, i);
    } else {
      assert r == Admission(DropLast(q) + [b], Last(q));
    }
  }

  /** Inserting below the top leaves the top in place. */
  lemma InsertBelowTop(q: seq<Item>, b: Item, i: nat)
    requires i < |q|
    ensures Last(Insert(q, b, i)) == Last(q)
  {
    assert Insert(q, b, i)[|q|] == q[|q| - 1];
  }

  // ---------------------------------------------------------------------------
  // The ordering invariant

  lemma InsertKeepsOrdered(q: seq<Item>, b: Item, i: nat)
    requires Ordered(q) && i <= |q|
    requires forall j :: 0 <= j < i ==> Rank(q[j].priority) <= Rank(b.priority)
    requires i < |q| ==> Rank(b.priority) <= Rank(q[i].priority)
    ensures Ordered(Insert(q, b, i))
  {
    var r := Insert(q, b, i);
    forall m, n | 0 <= m < n < |r| ensures Rank(r[m].priority) <= Rank(r[n].priority) {
      if n < i {
        assert r[m] == q[m] && r[n] == q[n];
      } else if n == i {
        assert r[m] == q[m] && r[n] == b;
      } else if m == i {
        assert r[m] == b && r[n] == q[n - 1];
      } else if m < i {
        assert r[m] == q[m] && r[n] == q[n - 1];
      } else {
        assert r[m] == q[m - 1] && r[n] == q[n - 1];
      }
    }
  }

  lemma ReplaceTopKeepsOrdered(q: seq<Item>, b: Item)
    requires Ordered(q)
    requires forall j :: 0 <= j < |q| - 1 ==> Rank(q[j].priority) <= Rank(b.priority)
    ensures Ordered(DropLast(q) + [b])
  {
    var r := DropLast(q) + [b];
    forall m, n | 0 <= m < n < |r| ensures Rank(r[m].priority) <= Rank(r[n].priority) {
      assert r[m] == q[m];
      if n < |r| - 1 {
        assert r[n] == q[n];
      }
    }
  }

  /** Admission keeps a queue that is non-decreasing by priority non-decreasing,
      as the traces in the comments of `add` illustrate. */
  lemma {:induction false} AdmitKeepsOrdered(q: seq<Item>, b: Item)
    requires Ordered(q)
    ensures Ordered(Admit(q, b).queue)
  {
    if b.priority == Required {
      ReplaceTopKeepsOrdered(q, b);
    } else if q == [] {
    } else {
      match IndexWhere(q, HasPriority(b.priority))
      case Some(i) =>
        forall j | 0 <= j < i ensures Rank(q[j].priority) <= Rank(b.priority) {
          assert Rank(q[j].priority) <= Rank(q[i].priority);
        }
        InsertKeepsOrdered(q, b, i);
      case None =>
        match IndexWhere(q, Outranks(b.priority))
        case Some(i) =>
          forall j | 0 <= j < i ensures Rank(q[j].priority) <= Rank(b.priority) {
            assert !Holds(Outranks(b.priority), q[j]);
          }
          InsertKeepsOrdered(q, b, i);
        case None =>
          forall j | 0 <= j < |q| - 1 ensures Rank(q[j].priority) <= Rank(b.priority) {
            assert !Holds(Outranks(b.priority), q[j]);
          }
          ReplaceTopKeepsOrdered(q, b);
    }
  }

  // ---------------------------------------------------------------------------
  // The traces written in the comments of `add`

  /** [L, H, R] + (H) = [L, H, H, R] */
  lemma TraceEqualPriority()
    ensures Admit([Item(1, Low), Item(2, High), Item(3, Required)], Item(4, High))
         == Admission([Item(1, Low), Item(4, High), Item(2, High), Item(3, Required)], None)
  {
    var q, b := [Item(1, Low), Item(2, High), Item(3, Required)], Item(4, High);
    assert q[..1] == [Item(1, Low)];
    assert q[1..] == [Item(2, High), Item(3, Required)];
    assert q[..1] + [b] + q[1..] == [Item(1, Low), Item(4, High), Item(2, High), Item(3, Required)];
    AdmitBeforeFirstEqual(q, b, 1);
  }

  /** [H, H, R] + (L) = [L, H, H, R] */
  lemma TraceGreaterPriority()
    ensures Admit([Item(1, High), Item(2, High), Item(3, Required)], Item(4, Low))
         == Admission([Item(4, Low), Item(1, High), Item(2, High), Item(3, Required)], None)
  {
    var q := [Item(1, High), Item(2, High), Item(3, Required)];
    AdmitBeforeFirstGreater(q, Item(4, Low), 0);
    assert q[..0] + [Item(4, Low)] + q[0..] == [Item(4, Low)] + q;
  }

  /** [L] + (H) = [H], popping the showing L */
  lemma TraceLowerTop()
    ensures Admit([Item(1, Low)], Item(2, High)) == Admission([Item(2, High)], Some(Item(1, Low)))
  {
    AdmitEvictsLowerTop([Item(1, Low)], Item(2, High));
  }

  // ---------------------------------------------------------------------------
  // The queue object

  class BulletinQueue {
    /** The queued bulletins; the last one is the top. */
    var bulletins: seq<Item>

    constructor ()
      ensures bulletins == []
    {
      bulletins := [];
    }

    /** `top`: the last element, or none when the queue is empty. */
    function Top(): (r: Option<Item>)
      reads this
      ensures r.None? <==> |bulletins| == 0
      ensures r.Some? ==> r.value == bulletins[|bulletins| - 1]
    {
      Last(bulletins)
    }

    function IsEmpty(): (r: bool)
      reads this
      ensures r <==> Top().None?
    {
      bulletins == []
    }

    /** `pop()`: removes and returns the top; on the empty queue returns none and
        changes nothing. */
    method Pop() returns (r: Option<Item>)
      modifies this
      ensures r == old(Top())
      ensures old(bulletins) == [] ==> bulletins == []
      ensures old(bulletins) != [] ==> bulletins + [r.value] == old(bulletins)
    {
      if bulletins == [] {
        return None;
      }
      r := Some(bulletins[|bulletins| - 1]);
      bulletins := bulletins[..|bulletins| - 1];
    }

    /** `add(_:)`: admits `b` and returns the bulletin it popped, if any. */
    method Add(b: Item) returns (popped: Option<Item>)
      modifies this
      ensures Admission(bulletins, popped) == Admit(old(bulletins), b)
    {
      if b.priority == Required {
        popped := Pop();
        bulletins := bulletins + [b];
        return;
      }
      if bulletins == [] {
        bulletins := bulletins + [b];
        return None;
      }
      popped := None;
      var equal := FirstWhere(bulletins, HasPriority(b.priority));
      if equal.Some? && IndexOf(bulletins, equal.value).Some? {
        LocatedIsFirst(bulletins, HasPriority(b.priority));
        var idx := IndexOf(bulletins, equal.value).value;
        bulletins := Insert(bulletins, b, idx);
      } else {
        var greater := FirstWhere(bulletins, Outranks(b.priority));
        if greater.Some? && IndexOf(bulletins, greater.value).Some? {
          LocatedIsFirst(bulletins, Outranks(b.priority));
          var idx := IndexOf(bulletins, greater.value).value;
          bulletins := Insert(bulletins, b, idx);
        } else {
          popped := Pop();
          bulletins := bulletins + [b];
        }
      }
    }
  }
}
