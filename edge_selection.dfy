/**
 Choosing the extruded tab's edges to fillet and the cutout's scoop face.
 The host's geometry tests (is an edge collinear with X, is a face
 Y-normal) and bounding boxes arrive as fields of the records below.
 */
module EdgeSelection {
  import opened Results
  import opened TabInput
  import TabProfile

  /** Edges whose minY is this close to the smallest are front edges. */
  const FRONT_TOLERANCE: real := 0.001

  /** An edge of the extruded body, reduced to its bounding box's minimum point. */
  datatype BodyEdge = BodyEdge(id: nat, minY: real, minZ: real, collinearToX: bool)

  /** A face of the inner cutout, reduced to its bounding box's minimum y. */
  datatype Face = Face(id: nat, minY: real, yNormal: bool)

  /** A fillet feature the generator asks the host for. */
  datatype FilletRequest = FilletRequest(edges: seq<BodyEdge>, radius: real, name: string)

  const TOP_FILLET_NAME: string := "label tab fillet top"
  const BOTTOM_FILLET_NAME: string := "label tab fillet bottom"
  const SINGLE_FILLET_NAME: string := "label tab fillet"

  function Abs(x: real): real
  {
    if x < 0.0 then -x else x
  }

  /** A list comprehension with a condition: the elements of s that satisfy p, in order. */
  function Filter<T(!new)>(s: seq<T>, p: T -> bool): (r: seq<T>)
    ensures |r| <= |s|
    ensures forall x :: x in r <==> x in s && p(x)
    ensures forall x :: multiset(r)[x] == if p(x) then multiset(s)[x] else 0
  {
    if s == [] then []
    else
      assert s == [s[0]] + s[1..];
      (if p(s[0]) then [s[0]] else []) + Filter(s[1..], p)
  }

  /**
   Where the k-th kept element sits in the input: if every kept element
   before it satisfies q, so does every element of the input before it
   that the comprehension keeps.
   */
  lemma {:induction false} FilterPrefix<T(!new)>(s: seq<T>, p: T -> bool, q: T -> bool, k: nat)
    returns (a: nat)
    requires k < |Filter(s, p)|
    requires forall j :: 0 <= j < k ==> q(Filter(s, p)[j])
    ensures a < |s| && s[a] == Filter(s, p)[k]
    ensures forall b :: 0 <= b < a && p(s[b]) ==> q(s[b])
    decreases |s|, 1
  {
    assert s != [];
    if p(s[0]) && k == 0 {
      assert Filter(s, p) == [s[0]] + Filter(s[1..], p);
      a := 0;
    } else if p(s[0]) {
      a := FilterPrefixKept(s, p, q, k);
    } else {
      a := FilterPrefixSkipped(s, p, q, k);
    }
  }

  /** FilterPrefix when the head is kept and k is not its index. */
  lemma {:induction false} FilterPrefixKept<T(!new)>(s: seq<T>, p: T -> bool, q: T -> bool, k: nat)
    returns (a: nat)
    requires 0 < k < |Filter(s, p)| && p(s[0])
    requires forall j :: 0 <= j < k ==> q(Filter(s, p)[j])
    ensures a < |s| && s[a] == Filter(s, p)[k]
    ensures forall b :: 0 <= b < a && p(s[b]) ==> q(s[b])
    decreases |s|, 0
  {
    var rest := Filter(s[1..], p);
    assert Filter(s, p) == [s[0]] + rest;
    assert Filter(s, p)[0] == s[0];
    assert q(s[0]);
    forall j | 0 <= j < k - 1
      ensures q(rest[j])
    {
      assert rest[j] == Filter(s, p)[j + 1];
    }
    var a' := FilterPrefix(s[1..], p, q, k - 1);
    a := a' + 1;
    ShiftPrefix(s, p, q, a');
  }

  /** FilterPrefix when the head is dropped. */
  lemma {:induction false} FilterPrefixSkipped<T(!new)>(s: seq<T>, p: T -> bool, q: T -> bool, k: nat)
    returns (a: nat)
    requires k < |Filter(s, p)| && s != [] && !p(s[0])
    requires forall j :: 0 <= j < k ==> q(Filter(s, p)[j])
    ensures a < |s| && s[a] == Filter(s, p)[k]
    ensures forall b :: 0 <= b < a && p(s[b]) ==> q(s[b])
    decreases |s|, 0
  {
    assert Filter(s, p) == Filter(s[1..], p);
    var a' := FilterPrefix(s[1..], p, q, k);
    a := a' + 1;
    ShiftPrefix(s, p, q, a');
  }

  /** One step of FilterPrefix: a prefix property of the tail, plus the head, gives it for the whole. */
  lemma ShiftPrefix<T>(s: seq<T>, p: T -> bool, q: T -> bool, a': nat)
    requires a' < |s| - 1
    requires p(s[0]) ==> q(s[0])
    requires forall b :: 0 <= b < a' && p(s[1..][b]) ==> q(s[1..][b])
    ensures forall b :: 0 <= b < a' + 1 && p(s[b]) ==> q(s[b])
  {
    forall b | 0 <= b < a' + 1 && p(s[b])
      ensures q(s[b])
    {
      if b > 0 { assert s[b] == s[1..][b - 1]; }
    }
  }

  /**
   The index `min(s, key=key)` returns: a smallest key, and the first
   element that has it.
   */
  function ArgMin<T>(s: seq<T>, key: T -> real): (i: nat)
    requires |s| > 0
    ensures i < |s|
    ensures forall j :: 0 <= j < |s| ==> key(s[i]) <= key(s[j])
    ensures forall j :: 0 <= j < i ==> key(s[i]) < key(s[j])
  {
    if |s| == 1 then 0
    else
      var k := ArgMin(s[..|s| - 1], key);
      if key(s[|s| - 1]) < key(s[k]) then |s| - 1 else k
  }

  /**
   The index `max(s, key=key)` returns: a largest key, and the first
   element that has it.
   */
  function ArgMax<T>(s: seq<T>, key: T -> real): (i: nat)
    requires |s| > 0
    ensures i < |s|
    ensures forall j :: 0 <= j < |s| ==> key(s[j]) <= key(s[i])
    ensures forall j :: 0 <= j < i ==> key(s[j]) < key(s[i])
  {
    if |s| == 1 then 0
    else
      var k := ArgMax(s[..|s| - 1], key);
      if key(s[|s| - 1]) > key(s[k]) then |s| - 1 else k
  }

  /** The edges of the body that are collinear with the X axis. */
  function XEdges(edges: seq<BodyEdge>): (xs: seq<BodyEdge>)
    ensures forall e :: e in xs <==> e in edges && e.collinearToX
    ensures forall e :: multiset(xs)[e] == if e.collinearToX then multiset(edges)[e] else 0
  {
    Filter(edges, (e: BodyEdge) => e.collinearToX)
  }

  /** The smallest minY among the X-collinear edges. */
  function MinY(xs: seq<BodyEdge>): (m: real)
    requires |xs| > 0
    ensures exists e :: e in xs && e.minY == m
    ensures forall e :: e in xs ==> m <= e.minY
  {
    assert xs[ArgMin(xs, (e: BodyEdge) => e.minY)] in xs;
    xs[ArgMin(xs, (e: BodyEdge) => e.minY)].minY
  }

  /** The X-collinear edges within FRONT_TOLERANCE of the smallest minY: the tab's tip. */
  function FrontEdges(xs: seq<BodyEdge>): (front: seq<BodyEdge>)
    ensures |xs| == 0 ==> front == []
    ensures |xs| > 0 ==> forall e :: e in front <==> e in xs && e.minY < MinY(xs) + FRONT_TOLERANCE
    ensures |xs| > 0 ==>
              forall e :: multiset(front)[e] == (if e.minY < MinY(xs) + FRONT_TOLERANCE then multiset(xs)[e] else 0)
  {
    if |xs| == 0 then []
    else
      var m := MinY(xs);
      var near := (e: BodyEdge) => Abs(e.minY - m) < FRONT_TOLERANCE;
      assert forall e :: e in xs ==> (near(e) <==> e.minY < m + FRONT_TOLERANCE);
      Filter(xs, near)
  }

  /** Given the smallest minY m of an edge list, MinY finds it. */
  lemma MinYIsSmallest(xs: seq<BodyEdge>, m: real)
    requires exists e :: e in xs && e.minY == m
    requires forall e :: e in xs ==> m <= e.minY
    ensures |xs| > 0 && MinY(xs) == m
  {
    var w :| w in xs && w.minY == m;
    var i := ArgMin(xs, (e: BodyEdge) => e.minY);
    assert xs[i] in xs;
  }

  /**
   Given the smallest minY m of an edge list, every edge that attains m is
   a front edge, so there is at least one.
   */
  lemma FrontEdgesIncludeTip(xs: seq<BodyEdge>, m: real)
    requires exists e :: e in xs && e.minY == m
    requires forall e :: e in xs ==> m <= e.minY
    ensures forall e :: e in xs && e.minY == m ==> e in FrontEdges(xs)
    ensures |FrontEdges(xs)| > 0
  {
    MinYIsSmallest(xs, m);
    var near := (e: BodyEdge) => Abs(e.minY - m) < FRONT_TOLERANCE;
    assert FrontEdges(xs) == Filter(xs, near);
    forall e | e in xs && e.minY == m
      ensures e in FrontEdges(xs)
    {
      assert near(e);
    }
    var w :| w in xs && w.minY == m;
    assert w in FrontEdges(xs);
  }

  /**
   Given the smallest minY m of an edge list, the front edges are exactly
   its edges that lie within FRONT_TOLERANCE of m.
   */
  lemma FrontEdgesNearTip(xs: seq<BodyEdge>, m: real)
    requires exists e :: e in xs && e.minY == m
    requires forall e :: e in xs ==> m <= e.minY
    ensures forall e :: e in FrontEdges(xs) ==> m <= e.minY
    ensures forall e :: e in FrontEdges(xs) <==> e in xs && e.minY < m + FRONT_TOLERANCE
  {
    MinYIsSmallest(xs, m);
    var near := (e: BodyEdge) => Abs(e.minY - m) < FRONT_TOLERANCE;
    assert FrontEdges(xs) == Filter(xs, near);
    forall e | e in FrontEdges(xs)
      ensures e in xs && m <= e.minY < m + FRONT_TOLERANCE
    {
      assert e in Filter(xs, near);
      assert e in xs && near(e);
      assert Abs(e.minY - m) < FRONT_TOLERANCE;
      assert m <= e.minY;
    }
    forall e | e in xs && e.minY < m + FRONT_TOLERANCE
      ensures e in FrontEdges(xs)
    {
      assert near(e);
    }
  }

  /** Minimum z descending, throughout the list. */
  ghost predicate DescendingZ(s: seq<BodyEdge>)
  {
    forall i, j :: 0 <= i < j < |s| ==> s[i].minZ >= s[j].minZ
  }

  /**
   Inserts e into a list sorted by minZ descending, before every element
   whose minZ is not greater than e's (e came earlier in the input, so
   ties keep input order).
   */
  function InsertByZ(e: BodyEdge, s: seq<BodyEdge>): (r: seq<BodyEdge>)
    ensures multiset(r) == multiset(s) + multiset{e}
  {
    if s == [] || e.minZ >= s[0].minZ then
      [e] + s
    else
      assert s == [s[0]] + s[1..];
      [s[0]] + InsertByZ(e, s[1..])
  }

  /** A descending list stays descending behind a head no lower than any of its elements. */
  lemma ConsDescending(x: BodyEdge, s: seq<BodyEdge>)
    requires DescendingZ(s)
    requires forall j :: 0 <= j < |s| ==> x.minZ >= s[j].minZ
    ensures DescendingZ([x] + s)
  {
    var r := [x] + s;
    forall i, j | 0 <= i < j < |r|
      ensures r[i].minZ >= r[j].minZ
    {
      assert r[j] == s[j - 1];
      if i > 0 { assert r[i] == s[i - 1]; }
    }
  }

  /** Every element of an insertion result is the inserted edge or came from the list. */
  lemma InsertMembers(e: BodyEdge, s: seq<BodyEdge>)
    ensures forall x :: x in InsertByZ(e, s) ==> x == e || x in s
  {
    var r := InsertByZ(e, s);
    forall x | x in r
      ensures x == e || x in s
    {
      assert x in multiset(r);
    }
  }

  /** Insertion keeps a descending list descending. */
  lemma {:induction false} InsertKeepsDescending(e: BodyEdge, s: seq<BodyEdge>)
    requires DescendingZ(s)
    ensures DescendingZ(InsertByZ(e, s))
  {
    if s == [] || e.minZ >= s[0].minZ {
      ConsDescending(e, s);
    } else {
      var tail := s[1..];
      InsertKeepsDescending(e, tail);
      var rest := InsertByZ(e, tail);
      InsertMembers(e, tail);
      forall j | 0 <= j < |rest|
        ensures s[0].minZ >= rest[j].minZ
      {
        assert rest[j] in rest;
        if rest[j] != e {
          var k :| 0 <= k < |tail| && tail[k] == rest[j];
          assert s[k + 1] == tail[k];
        }
      }
      ConsDescending(s[0], rest);
    }
  }

  /** `sorted(s, key=minZ, reverse=True)`: a stable sort by minZ, greatest first. */
  function SortByZDesc(s: seq<BodyEdge>): (r: seq<BodyEdge>)
    ensures multiset(r) == multiset(s)
    ensures |r| == |s|
    ensures DescendingZ(r)
  {
    if s == [] then []
    else
      assert s == [s[0]] + s[1..];
      var rest := SortByZDesc(s[1..]);
      InsertKeepsDescending(s[0], rest);
      InsertByZ(s[0], rest)
  }

  /** The first edge of the sorted list is a front edge with the greatest minZ. */
  lemma {:induction false} TopEdgeHighest(front: seq<BodyEdge>)
    requires |front| >= 1
    ensures SortByZDesc(front)[0] in front
    ensures forall e :: e in front ==> e.minZ <= SortByZDesc(front)[0].minZ
  {
    var s := SortByZDesc(front);
    assert s[0] in multiset(s);
    forall e | e in front
      ensures e.minZ <= s[0].minZ
    {
      assert e in multiset(s);
      var j :| 0 <= j < |s| && s[j] == e;
      if j > 0 { assert s[0].minZ >= s[j].minZ; }
    }
  }

  /**
   The second edge of the sorted list is another of the front edges, and
   it has the greatest minZ once the first edge is set aside.
   */
  lemma {:induction false} BottomEdgeNextHighest(front: seq<BodyEdge>)
    requires |front| >= 2
    ensures var s := SortByZDesc(front);
            s[1] in multiset(front) - multiset{s[0]} &&
            forall e :: e in multiset(front) - multiset{s[0]} ==> e.minZ <= s[1].minZ
  {
    var s := SortByZDesc(front);
    assert s == [s[0]] + s[1..];
    assert multiset(s) == multiset{s[0]} + multiset(s[1..]);
    assert s[1..][0] == s[1];
    forall e | e in multiset(front) - multiset{s[0]}
      ensures e.minZ <= s[1].minZ
    {
      assert e in s[1..];
      var j :| 0 <= j < |s[1..]| && s[1..][j] == e;
      if j > 0 { assert s[1].minZ >= s[j + 1].minZ; }
    }
  }

  /**
   The fillet features requested for the front edges. With two or more, a
   top fillet of radius filletTop on the sorted first edge exactly when
   filletTop is above the threshold and, independently, a bottom fillet of
   radius filletBottom on the second edge exactly when filletBottom is;
   with one, a single fillet of radius filletTop exactly when it is above
   the threshold; with none, nothing.
   */
  function FilletRequests(front: seq<BodyEdge>, filletTop: real, filletBottom: real)
    : (reqs: seq<FilletRequest>)
    ensures |reqs| <= 2
    ensures forall q :: q in reqs ==> q.radius > TabProfile.FILLET_THRESHOLD
    ensures |front| == 0 ==> reqs == []
    ensures |front| == 1 ==>
              (reqs != [] <==> filletTop > TabProfile.FILLET_THRESHOLD) &&
              forall q :: q in reqs ==> q == FilletRequest(front, filletTop, SINGLE_FILLET_NAME)
    ensures |front| >= 2 ==>
              var s := SortByZDesc(front);
              var top := FilletRequest([s[0]], filletTop, TOP_FILLET_NAME);
              var bottom := FilletRequest([s[1]], filletBottom, BOTTOM_FILLET_NAME);
              (top in reqs <==> filletTop > TabProfile.FILLET_THRESHOLD) &&
              (bottom in reqs <==> filletBottom > TabProfile.FILLET_THRESHOLD) &&
              forall q :: q in reqs ==> q == top || q == bottom
    ensures |reqs| == if |front| >= 2 then
                        (if filletTop > TabProfile.FILLET_THRESHOLD then 1 else 0) +
                        (if filletBottom > TabProfile.FILLET_THRESHOLD then 1 else 0)
                      else if |front| == 1 && filletTop > TabProfile.FILLET_THRESHOLD then 1
                      else 0
    ensures |front| >= 2 && filletTop > TabProfile.FILLET_THRESHOLD ==>
              reqs[0] == FilletRequest([SortByZDesc(front)[0]], filletTop, TOP_FILLET_NAME)
    ensures |front| >= 2 && filletBottom > TabProfile.FILLET_THRESHOLD ==>
              reqs[|reqs| - 1] == FilletRequest([SortByZDesc(front)[1]], filletBottom, BOTTOM_FILLET_NAME)
  {
    if |front| >= 2 then
      var s := SortByZDesc(front);
      (if filletTop > TabProfile.FILLET_THRESHOLD then [FilletRequest([s[0]], filletTop, TOP_FILLET_NAME)] else []) +
      (if filletBottom > TabProfile.FILLET_THRESHOLD then [FilletRequest([s[1]], filletBottom, BOTTOM_FILLET_NAME)] else [])
    else if |front| == 1 then
      if filletTop > TabProfile.FILLET_THRESHOLD then [FilletRequest(front, filletTop, SINGLE_FILLET_NAME)] else []
    else
      []
  }

  /**
   The fillets planned for an extruded body's edges: none when no edge is
   collinear with X, and otherwise those for its front edges.
   */
  function FilletPlan(edges: seq<BodyEdge>, filletTop: real, filletBottom: real): (reqs: seq<FilletRequest>)
    ensures (forall e :: e in edges ==> !e.collinearToX) ==> reqs == []
    ensures |reqs| <= 2
  {
    var xs := XEdges(edges);
    assert xs != [] ==> xs[0] in xs;
    FilletRequests(FrontEdges(xs), filletTop, filletBottom)
  }

  /** The component the tab is built in; it records the features created in it. */
  class Component {
    var features: seq<FilletRequest>

    constructor ()
      ensures features == []
    {
      features := [];
    }

    /** Creates a named fillet feature on the given edges. */
    method CreateFillet(edges: seq<BodyEdge>, radius: real, name: string)
      modifies this
      ensures features == old(features) + [FilletRequest(edges, radius, name)]
    {
      features := features + [FilletRequest(edges, radius, name)];
    }
  }

  /** Issues the fillet features for the front edges, one call after another. */
  method DispatchFillets(target: Component, front: seq<BodyEdge>, filletTop: real, filletBottom: real)
    modifies target
    ensures target.features == old(target.features) + FilletRequests(front, filletTop, filletBottom)
  {
    if |front| >= 2 {
      var frontSorted := SortByZDesc(front);
      var topEdge := frontSorted[0];
      var bottomEdge := frontSorted[1];
      if filletTop > TabProfile.FILLET_THRESHOLD {
        target.CreateFillet([topEdge], filletTop, TOP_FILLET_NAME);
      }
      if filletBottom > TabProfile.FILLET_THRESHOLD {
        target.CreateFillet([bottomEdge], filletBottom, BOTTOM_FILLET_NAME);
      }
    } else if |front| == 1 {
      if filletTop > TabProfile.FILLET_THRESHOLD {
        target.CreateFillet(front, filletTop, SINGLE_FILLET_NAME);
      }
    }
  }

  predicate IsYNormal(f: Face)
  {
    f.yNormal
  }

  function FaceMinY(f: Face): real
  {
    f.minY
  }

  /**
   The first Y-normal face with the smallest minY sits, in the cutout's
   own face order, after only Y-normal faces with a larger minY.
   */
  lemma FirstLowestFace(faces: seq<Face>, i: nat)
    requires i < |Filter(faces, IsYNormal)|
    requires forall j :: 0 <= j < i ==> Filter(faces, IsYNormal)[i].minY < Filter(faces, IsYNormal)[j].minY
    ensures exists a :: 0 <= a < |faces| && faces[a] == Filter(faces, IsYNormal)[i] &&
                        forall j :: 0 <= j < a && faces[j].yNormal ==> faces[j].minY > faces[a].minY
  {
    var v := Filter(faces, IsYNormal)[i].minY;
    var a := FilterPrefix(faces, IsYNormal, (f: Face) => f.minY > v, i);
    assert forall j :: 0 <= j < a && IsYNormal(faces[j]) ==> faces[j].minY > v;
  }

  /**
   The first Y-normal face with the largest minY sits after only
   Y-normal faces with a smaller minY.
   */
  lemma FirstHighestFace(faces: seq<Face>, k: nat)
    requires k < |Filter(faces, IsYNormal)|
    requires forall j :: 0 <= j < k ==> Filter(faces, IsYNormal)[j].minY < Filter(faces, IsYNormal)[k].minY
    ensures exists a :: 0 <= a < |faces| && faces[a] == Filter(faces, IsYNormal)[k] &&
                        forall j :: 0 <= j < a && faces[j].yNormal ==> faces[j].minY < faces[a].minY
  {
    var v := Filter(faces, IsYNormal)[k].minY;
    var a := FilterPrefix(faces, IsYNormal, (f: Face) => f.minY < v, k);
    assert forall j :: 0 <= j < a && IsYNormal(faces[j]) ==> faces[j].minY < v;
  }

  /**
   The scoop face and the face opposite it: among the cutout's Y-normal
   faces, the first with the smallest minY and the first with the largest.
   With no Y-normal face, `min` raises.
   */
  function InnerCutoutScoopFace(faces: seq<Face>): (r: Result<(Face, Face), TabError>)
    ensures r.Err? <==> forall f :: f in faces ==> !f.yNormal
    ensures r.Err? ==> r.error == EmptySequence
    ensures r.Ok? ==> r.value.0 in faces && r.value.0.yNormal && r.value.1 in faces && r.value.1.yNormal
    ensures r.Ok? ==> forall f :: f in faces && f.yNormal ==> r.value.0.minY <= f.minY <= r.value.1.minY
    ensures r.Ok? ==> exists i :: 0 <= i < |faces| && faces[i] == r.value.0 &&
                        forall j :: 0 <= j < i && faces[j].yNormal ==> faces[j].minY > r.value.0.minY
    ensures r.Ok? ==> exists i :: 0 <= i < |faces| && faces[i] == r.value.1 &&
                        forall j :: 0 <= j < i && faces[j].yNormal ==> faces[j].minY < r.value.1.minY
  {
    var yNormalFaces := Filter(faces, IsYNormal);
    if |yNormalFaces| == 0 then Err(EmptySequence)
    else
      assert yNormalFaces[0] in yNormalFaces;
      var i := ArgMin(yNormalFaces, FaceMinY);
      var k := ArgMax(yNormalFaces, FaceMinY);
      assert exists a :: 0 <= a < |faces| && faces[a] == yNormalFaces[i] &&
                            forall j :: 0 <= j < a && faces[j].yNormal ==> faces[j].minY > faces[a].minY by {
        FirstLowestFace(faces, i);
      }
      assert exists a :: 0 <= a < |faces| && faces[a] == yNormalFaces[k] &&
                            forall j :: 0 <= j < a && faces[j].yNormal ==> faces[j].minY < faces[a].minY by {
        FirstHighestFace(faces, k);
      }
      Ok((yNormalFaces[i], yNormalFaces[k]))
  }
}
