/** The rank of a form object among its kind: top to bottom, then left to right. */
module ObjectRank {
  import opened Bytes
  import opened Counting

  datatype Point = Point(x: int16, y: int16)

  datatype FormObject = FormObject(kind: nat, topLeft: Point)

  const RANK_NONE: int := -2
  const RANK_LAST: int := -1

  /** `PrvObjectIsHigherRank`: the second corner comes before the first. */
  predicate ComesAfter(r1: Point, r2: Point) {
    r2.y < r1.y || (r2.y == r1.y && r2.x < r1.x)
  }

  /** The objects a tap can hit: indices into the form, none twice (`CollectOKObjects`). */
  ghost predicate ValidIndices(form: seq<FormObject>, indices: seq<nat>) {
    && (forall i :: i in indices ==> i < |form|)
    && forall k, l :: 0 <= k < l < |indices| ==> indices[k] != indices[l]
  }

  /** The collected objects of one kind. */
  ghost function SameKind(form: seq<FormObject>, indices: seq<nat>, kind: nat): set<nat>
    requires ValidIndices(form, indices)
  {
    set i | i in indices && form[i].kind == kind
  }

  /** Those of the object's kind that come before it. */
  ghost function Before(form: seq<FormObject>, indices: seq<nat>, object1: nat): set<nat>
    requires ValidIndices(form, indices) && object1 in indices
  {
    set i | i in indices && form[i].kind == form[object1].kind && ComesAfter(form[object1].topLeft, form[i].topLeft)
  }

  /** None for an only child, last for the object all others come before, else the number of those before. */
  ghost function RankOf(form: seq<FormObject>, indices: seq<nat>, object1: nat): int
    requires ValidIndices(form, indices) && object1 in indices
  {
    var siblings := |SameKind(form, indices, form[object1].kind)| - 1;
    var r := |Before(form, indices, object1)|;
    if siblings == 0 then RANK_NONE else if r == siblings then RANK_LAST else r
  }

  /** The first `n` indices, as a set. */
  ghost function Seen(indices: seq<nat>, n: nat): set<nat>
    requires n <= |indices|
  {
    set k | 0 <= k < n :: indices[k]
  }

  lemma SeenNext(form: seq<FormObject>, indices: seq<nat>, n: nat)
    requires ValidIndices(form, indices) && n < |indices|
    ensures Seen(indices, n + 1) == Seen(indices, n) + {indices[n]}
    ensures indices[n] !in Seen(indices, n) && indices[n] in indices && indices[n] < |form|
  {
  }

  lemma SeenAll(indices: seq<nat>)
    ensures forall i :: i in Seen(indices, |indices|) <==> i in indices
    ensures |indices| >= 0 && Seen(indices, 0) == {}
  {
  }

  /** Of the first `n`, the others of the object's kind. */
  ghost function Siblings(form: seq<FormObject>, indices: seq<nat>, object1: nat, n: nat): set<nat>
    requires ValidIndices(form, indices) && object1 in indices && n <= |indices|
  {
    set i | i in Seen(indices, n) && i in indices && i != object1 && form[i].kind == form[object1].kind
  }

  /** Of those, the ones that come before the object. */
  ghost function Higher(form: seq<FormObject>, indices: seq<nat>, object1: nat, n: nat): set<nat>
    requires ValidIndices(form, indices) && object1 in indices && n <= |indices|
  {
    set i | i in Siblings(form, indices, object1, n) && i in indices
            && ComesAfter(form[object1].topLeft, form[i].topLeft)
  }

  predicate IsSibling(form: seq<FormObject>, object1: nat, i: nat)
    requires object1 < |form| && i < |form|
  {
    i != object1 && form[i].kind == form[object1].kind
  }

  lemma SiblingsNext(form: seq<FormObject>, indices: seq<nat>, object1: nat, n: nat)
    requires ValidIndices(form, indices) && object1 in indices && n < |indices|
    ensures var i := indices[n];
            && i < |form| && i in indices && i !in Siblings(form, indices, object1, n)
            && Siblings(form, indices, object1, n + 1)
                 == Siblings(form, indices, object1, n) + if IsSibling(form, object1, i) then {i} else {}
  {
    hide Seen;
    SeenNext(form, indices, n);
  }

  lemma HigherNext(form: seq<FormObject>, indices: seq<nat>, object1: nat, n: nat)
    requires ValidIndices(form, indices) && object1 in indices && n < |indices|
    ensures indices[n] < |form|
    ensures var sibling := IsSibling(form, object1, indices[n]);
            && |Siblings(form, indices, object1, n + 1)|
               == |Siblings(form, indices, object1, n)| + (if sibling then 1 else 0)
            && |Higher(form, indices, object1, n + 1)| == |Higher(form, indices, object1, n)|
                 + (if sibling && ComesAfter(form[object1].topLeft, form[indices[n]].topLeft) then 1 else 0)
  {
    hide ComesAfter, Siblings, IsSibling;
    SiblingsNext(form, indices, object1, n);
    var i := indices[n];
    var before, after := Higher(form, indices, object1, n), Higher(form, indices, object1, n + 1);
    if IsSibling(form, object1, i) && ComesAfter(form[object1].topLeft, form[i].topLeft) {
      assert after == before + {i};
    } else {
      assert after == before;
    }
  }

  lemma SiblingsAll(form: seq<FormObject>, indices: seq<nat>, object1: nat)
    requires ValidIndices(form, indices) && object1 in indices
    ensures Siblings(form, indices, object1, 0) == {} && Higher(form, indices, object1, 0) == {}
    ensures |Siblings(form, indices, object1, |indices|)| == |SameKind(form, indices, form[object1].kind)| - 1
    ensures Higher(form, indices, object1, |indices|) == Before(form, indices, object1)
  {
    hide ComesAfter, Seen;
    SeenAll(indices);
    NotAfterItself(form[object1].topLeft);
    var siblings := Siblings(form, indices, object1, |indices|);
    assert SameKind(form, indices, form[object1].kind) == siblings + {object1};
  }

  /** The other collected objects of the object's kind. */
  ghost function Others(form: seq<FormObject>, indices: seq<nat>, a: nat): set<nat>
    requires ValidIndices(form, indices) && a in indices
  {
    set i | i in indices && i != a && form[i].kind == form[a].kind
  }

  /** Above, or beside and to the left. */
  predicate Precedes(p: Point, q: Point) {
    p.y < q.y || (p.y == q.y && p.x < q.x)
  }

  /** None for an object without others of its kind, last for one that all the others precede, and otherwise the
      number of those that do. */
  lemma RankMeans(form: seq<FormObject>, indices: seq<nat>, a: nat)
    requires ValidIndices(form, indices) && a in indices
    ensures var others, rank := Others(form, indices, a), RankOf(form, indices, a);
            var preceding := set i | i in others && Precedes(form[i].topLeft, form[a].topLeft);
            && (rank == RANK_NONE <==> others == {})
            && (rank == RANK_LAST <==> others != {} && preceding == others)
            && (rank != RANK_NONE && rank != RANK_LAST ==> rank == |preceding| && 0 <= rank < |others|)
  {
    var others := Others(form, indices, a);
    var preceding := set i | i in others && Precedes(form[i].topLeft, form[a].topLeft);
    assert SameKind(form, indices, form[a].kind) == others + {a};
    NotAfterItself(form[a].topLeft);
    assert Before(form, indices, a) == preceding;
    SubsetSize(preceding, others);
    if |preceding| == |others| {
      SubsetOfSameSize(preceding, others);
    }
  }

  method FindObjectRank(form: seq<FormObject>, indices: seq<nat>, object1: nat) returns (rank: int)
    requires ValidIndices(form, indices) && object1 in indices
    ensures rank == RankOf(form, indices, object1)
    ensures var others := Others(form, indices, object1);
            var preceding := set i | i in others && Precedes(form[i].topLeft, form[object1].topLeft);
            && (rank == -2 <==> others == {})
            && (rank == -1 <==> others != {} && preceding == others)
            && (rank != -2 && rank != -1 ==> rank == |preceding| && 0 <= rank < |others|)
  {
    RankMeans(form, indices, object1);
    hide ComesAfter, Siblings, Higher, SameKind, Before, Others, Precedes;
    var r1 := form[object1].topLeft;
    var objectKind1 := form[object1].kind;
    rank := 0;
    var siblingCount := 0;
    var iter := 0;
    SiblingsAll(form, indices, object1);
    while iter < |indices|
      invariant 0 <= iter <= |indices|
      invariant siblingCount == |Siblings(form, indices, object1, iter)|
      invariant rank == |Higher(form, indices, object1, iter)|
    {
      HigherNext(form, indices, object1, iter);
      if indices[iter] != object1 {
        var objectKind2 := form[indices[iter]].kind;
        if objectKind2 == objectKind1 {
          siblingCount := siblingCount + 1;
          var r2 := form[indices[iter]].topLeft;
          if ComesAfter(r1, r2) {
            rank := rank + 1;
          }
        }
      }
      iter := iter + 1;
    }
    if siblingCount == 0 {
      rank := RANK_NONE;
    } else if rank == siblingCount {
      rank := RANK_LAST;
    }
  }

  lemma NotAfterItself(p: Point)
    ensures !ComesAfter(p, p)
  {
  }

  /** The place a rank stands for among `count` objects. */
  function Place(rank: int, count: nat): int {
    if rank == RANK_LAST then count - 1 else rank
  }

  ghost predicate DistinctCorners(form: seq<FormObject>, indices: seq<nat>, kind: nat)
    requires ValidIndices(form, indices)
  {
    forall i, j :: i in SameKind(form, indices, kind) && j in SameKind(form, indices, kind) && i != j
                   ==> form[i].topLeft != form[j].topLeft
  }

  lemma BeforeIsProper(form: seq<FormObject>, indices: seq<nat>, a: nat)
    requires ValidIndices(form, indices) && a in indices
    ensures Before(form, indices, a) <= SameKind(form, indices, form[a].kind) - {a}
    ensures |Before(form, indices, a)| <= |SameKind(form, indices, form[a].kind)| - 1
  {
    NotAfterItself(form[a].topLeft);
    var rest := SameKind(form, indices, form[a].kind) - {a};
    assert a in SameKind(form, indices, form[a].kind);
    SubsetSize(Before(form, indices, a), rest);
  }

  lemma PlaceIsCount(form: seq<FormObject>, indices: seq<nat>, a: nat)
    requires ValidIndices(form, indices) && a in indices && |SameKind(form, indices, form[a].kind)| >= 2
    ensures Place(RankOf(form, indices, a), |SameKind(form, indices, form[a].kind)|) == |Before(form, indices, a)|
  {
    hide Before, SameKind;
    BeforeIsProper(form, indices, a);
  }

  /** Of two objects of one kind the one that comes first has the lower place, and the other way round. */
  lemma PlacesFollowOrder(form: seq<FormObject>, indices: seq<nat>, kind: nat, a: nat, b: nat)
    requires ValidIndices(form, indices) && DistinctCorners(form, indices, kind) && |SameKind(form, indices, kind)| >= 2
    requires a in SameKind(form, indices, kind) && b in SameKind(form, indices, kind)
    ensures var n := |SameKind(form, indices, kind)|;
            Place(RankOf(form, indices, a), n) < Place(RankOf(form, indices, b), n)
            <==> Precedes(form[a].topLeft, form[b].topLeft)
    ensures var n := |SameKind(form, indices, kind)|;
            Place(RankOf(form, indices, a), n) == Place(RankOf(form, indices, b), n) <==> a == b
  {
    PlaceIsCount(form, indices, a);
    PlaceIsCount(form, indices, b);
    if a != b {
      if ComesAfter(form[b].topLeft, form[a].topLeft) {
        FirstIsLower(form, indices, a, b);
      } else {
        assert form[a].topLeft != form[b].topLeft;
        FirstIsLower(form, indices, b, a);
      }
    } else {
      NotAfterItself(form[a].topLeft);
    }
  }

  lemma FirstIsLower(form: seq<FormObject>, indices: seq<nat>, a: nat, b: nat)
    requires ValidIndices(form, indices) && a in indices && b in indices && form[a].kind == form[b].kind
    requires ComesAfter(form[b].topLeft, form[a].topLeft)
    ensures |Before(form, indices, a)| < |Before(form, indices, b)|
  {
    NotAfterItself(form[a].topLeft);
    assert Before(form, indices, a) + {a} <= Before(form, indices, b);
    assert a !in Before(form, indices, a);
    SubsetSize(Before(form, indices, a) + {a}, Before(form, indices, b));
  }

  ghost function Places(form: seq<FormObject>, indices: seq<nat>, objects: set<nat>, n: nat): set<int>
    requires ValidIndices(form, indices) && forall i :: i in objects ==> i in indices
  {
    set i | i in objects :: Place(RankOf(form, indices, i), n)
  }

  lemma {:induction false} PlacesSize(form: seq<FormObject>, indices: seq<nat>, kind: nat, objects: set<nat>)
    requires ValidIndices(form, indices) && DistinctCorners(form, indices, kind)
    requires |SameKind(form, indices, kind)| >= 2 && objects <= SameKind(form, indices, kind)
    ensures |Places(form, indices, objects, |SameKind(form, indices, kind)|)| == |objects|
    decreases |objects|
  {
    hide RankOf, Place, DistinctCorners;
    var n := |SameKind(form, indices, kind)|;
    if objects != {} {
      var a :| a in objects;
      var rest := objects - {a};
      PlacesSize(form, indices, kind, rest);
      forall b | b in rest ensures Place(RankOf(form, indices, b), n) != Place(RankOf(form, indices, a), n) {
        PlacesFollowOrder(form, indices, kind, a, b);
      }
      assert Places(form, indices, objects, n) == Places(form, indices, rest, n) + {Place(RankOf(form, indices, a), n)};
    }
  }

  /** The places are exactly 0 up to one less than the number of objects, each taken once. */
  lemma PlacesCoverRange(form: seq<FormObject>, indices: seq<nat>, kind: nat)
    requires ValidIndices(form, indices) && DistinctCorners(form, indices, kind) && |SameKind(form, indices, kind)| >= 2
    ensures var objects := SameKind(form, indices, kind);
            Places(form, indices, objects, |objects|) == Below(|objects|)
  {
    hide RankOf, Place, DistinctCorners, Below;
    var objects := SameKind(form, indices, kind);
    var n := |objects|;
    PlacesSize(form, indices, kind, objects);
    var places, range: set<int> := Places(form, indices, objects, n), Below(n);
    forall p | p in places ensures p in range {
      var a :| a in objects && p == Place(RankOf(form, indices, a), n);
      PlaceIsCount(form, indices, a);
      BeforeIsProper(form, indices, a);
    }
    SubsetOfSameSize(places, range);
  }
}
