// Evaluation of predicted corrections against labelled ones: a maximum
// one-to-one matching found by breadth-first augmenting paths.
module Matching {
  import Wilson

  // ----- The objects being compared ------------------------------------------

  // Declared in the alphabetical order of the wire names, so that `KindRank`
  // orders kinds as the source's string comparison does.
  datatype Kind = Early | Flat | Late | Long | Missed | OctaveError | Sharp | Short | Unstable

  // A correction identifier is a UUID; its text order is its numeric order.
  datatype Prediction = Prediction(kind: Kind, start: int, end: int, id: nat)

  datatype Label = Label(kind: Kind, start: int, end: int, severe: bool)

  function KindRank(k: Kind): nat {
    match k
    case Early => 0
    case Flat => 1
    case Late => 2
    case Long => 3
    case Missed => 4
    case OctaveError => 5
    case Sharp => 6
    case Short => 7
    case Unstable => 8
  }

  function Max(a: int, b: int): int { if a >= b then a else b }

  function Min(a: int, b: int): int { if a <= b then a else b }

  function Iou(startA: int, endA: int, startB: int, endB: int): real {
    var intersection := Max(0, Min(endA, endB) - Max(startA, startB));
    var union := Max(endA, endB) - Min(startA, startB);
    if union != 0 then intersection as real / union as real else 0.0
  }

  predicate Compatible(p: Prediction, g: Label, minIou: real) {
    p.kind == g.kind && Iou(p.start, p.end, g.start, g.end) >= minIou
  }

  // ----- Intersection over union is the Jaccard index ------------------------

  ghost function Samples(start: int, end: int): (r: set<int>)
    ensures forall s :: s in r <==> start <= s < end
    ensures |r| == Max(0, end - start)
    decreases end - start
  {
    if start >= end then {} else Samples(start, end - 1) + {end - 1}
  }

  ghost predicate IsRange(a: set<int>, start: int, end: int) {
    forall s :: s in a <==> start <= s < end
  }

  lemma RangeSize(a: set<int>, start: int, end: int)
    requires IsRange(a, start, end)
    ensures |a| == Max(0, end - start)
  {
    assert a == Samples(start, end);
  }

  lemma UnionSize<T>(a: set<T>, b: set<T>)
    ensures |a + b| + |a * b| == |a| + |b|
  {
    assert a + b == (a - b) + b;
    assert a == (a - b) + (a * b);
  }

  // The numerator is always the size of the intersection; the denominator is the
  // size of the union as soon as anything is shared, and at least that otherwise.
  lemma OverlapSizes(a: set<int>, startA: int, endA: int, b: set<int>, startB: int, endB: int)
    requires startA < endA && startB < endB
    requires IsRange(a, startA, endA) && IsRange(b, startB, endB)
    ensures var shared := Max(0, Min(endA, endB) - Max(startA, startB));
            var hull := Max(endA, endB) - Min(startA, startB);
            && |a * b| == shared
            && |a + b| == (endA - startA) + (endB - startB) - shared
            && 0 < |a + b| <= hull
            && (shared > 0 ==> |a + b| == hull)
  {
    RangeSize(a, startA, endA);
    RangeSize(b, startB, endB);
    RangeSize(a * b, Max(startA, startB), Min(endA, endB));
    UnionSize(a, b);
  }

  // On non-empty ranges, overlapping or not, the computed ratio is the number of
  // shared samples over the number of samples in either range.  When the ranges
  // are disjoint the source divides by the length of the hull, which is larger
  // than the union, but the numerator is zero so the ratio is still exact.
  lemma IouIsJaccard(a: set<int>, startA: int, endA: int, b: set<int>, startB: int, endB: int)
    requires startA < endA && startB < endB
    requires IsRange(a, startA, endA) && IsRange(b, startB, endB)
    ensures |a + b| > 0
    ensures Iou(startA, endA, startB, endB) == |a * b| as real / |a + b| as real
    ensures 0.0 <= Iou(startA, endA, startB, endB) <= 1.0
    ensures Iou(startA, endA, startB, endB) == 1.0 <==> startA == startB && endA == endB
  {
    OverlapSizes(a, startA, endA, b, startB, endB);
    var shared := Max(0, Min(endA, endB) - Max(startA, startB));
    RatioAtMostOne(shared, Max(endA, endB) - Min(startA, startB));
  }

  lemma RatioAtMostOne(n: nat, d: nat)
    requires n <= d && d > 0
    ensures 0.0 <= n as real / d as real <= 1.0
    ensures n as real / d as real == 1.0 <==> n == d
  {
    var q := n as real / d as real;
    assert q * d as real == n as real;
    assert q > 1.0 ==> (q - 1.0) * d as real > 0.0;
    assert q < 0.0 ==> (-q) * d as real > 0.0;
  }

  // ----- Sorting --------------------------------------------------------------

  // Both sorts in the source compare tuples lexicographically.
  datatype Key = Key(k0: real, k1: int, k2: int, k3: int)

  predicate AtMost(a: Key, b: Key) {
    a.k0 < b.k0 || (a.k0 == b.k0 &&
    (a.k1 < b.k1 || (a.k1 == b.k1 &&
    (a.k2 < b.k2 || (a.k2 == b.k2 && a.k3 <= b.k3)))))
  }

  ghost predicate IsPermutation(order: seq<nat>, n: nat) {
    && |order| == n
    && (forall i :: 0 <= i < n ==> order[i] < n)
    && (forall i, j :: 0 <= i < j < n ==> order[i] != order[j])
    && (forall x :: 0 <= x < n ==> x in order)
  }

  ghost predicate SortedBy(order: seq<nat>, keys: seq<Key>) {
    && (forall i :: 0 <= i < |order| ==> order[i] < |keys|)
    && (forall i, j :: 0 <= i < j < |order| ==> AtMost(keys[order[i]], keys[order[j]]))
  }

  // Where a new last element goes: after every element that is not larger.
  function Place(order: seq<nat>, keys: seq<Key>, x: nat): (at: nat)
    requires x < |keys| && SortedBy(order, keys)
    ensures at <= |order|
    ensures forall i :: 0 <= i < at ==> AtMost(keys[order[i]], keys[x])
    ensures forall i :: at <= i < |order| ==> AtMost(keys[x], keys[order[i]])
  {
    if order == [] || AtMost(keys[order[|order| - 1]], keys[x]) then |order|
    else Place(order[..|order| - 1], keys, x)
  }

  function InsertAt(order: seq<nat>, at: nat, x: nat): (r: seq<nat>)
    requires at <= |order|
    ensures |r| == |order| + 1
    ensures forall i :: 0 <= i < |r| ==> r[i] == if i < at then order[i] else if i == at then x else order[i - 1]
    ensures forall y :: y in r <==> y in order || y == x
  {
    var r := order[..at] + [x] + order[at..];
    assert r[at] == x;
    assert forall i :: 0 <= i < |order| ==> order[i] == r[if i < at then i else i + 1];
    r
  }

  lemma InsertedPermutes(order: seq<nat>, at: nat, n: nat)
    requires IsPermutation(order, n) && at <= n
    ensures IsPermutation(InsertAt(order, at, n), n + 1)
  {
    var r := InsertAt(order, at, n);
    forall x | 0 <= x < n + 1
      ensures x in r
    {
      if x < n {
        assert x in order;
      }
    }
  }

  lemma InsertedSorted(order: seq<nat>, keys: seq<Key>, x: nat)
    requires x < |keys| && SortedBy(order, keys)
    ensures SortedBy(InsertAt(order, Place(order, keys, x), x), keys)
  {
    hide Place, AtMost;
  }

  function Insert(order: seq<nat>, keys: seq<Key>, x: nat): (r: seq<nat>)
    requires x < |keys| && IsPermutation(order, x) && SortedBy(order, keys)
    ensures IsPermutation(r, x + 1) && SortedBy(r, keys)
  {
    hide IsPermutation, SortedBy;
    InsertedPermutes(order, Place(order, keys, x), x);
    InsertedSorted(order, keys, x);
    InsertAt(order, Place(order, keys, x), x)
  }

  // The stable ascending order of the first n keys.
  function SortedOrder(keys: seq<Key>, n: nat): (order: seq<nat>)
    requires n <= |keys|
    ensures IsPermutation(order, n) && SortedBy(order, keys)
  {
    if n == 0 then [] else Insert(SortedOrder(keys, n - 1), keys, n - 1)
  }

  // An injective map has no more keys than it has targets to choose from.
  lemma {:induction false} InjectiveSize<K, V>(f: map<K, V>, targets: set<V>)
    requires forall k, l :: k in f && l in f && k != l ==> f[k] != f[l]
    requires forall k :: k in f ==> f[k] in targets
    ensures |f| <= |targets|
    decreases |f|
  {
    if f != map[] {
      var k :| k in f;
      var g := f - {k};
      assert f.Keys == g.Keys + {k};
      InjectiveSize(g, targets - {f[k]});
    }
  }

  // ----- Matchings --------------------------------------------------------------

  // adjacency[p] lists the labels that prediction p may be matched with.
  ghost predicate IsMatching(m: map<int, int>, adjacency: seq<seq<int>>) {
    && (forall p :: p in m ==> 0 <= p < |adjacency| && m[p] in adjacency[p])
    && (forall p, q :: p in m && q in m && p != q ==> m[p] != m[q])
  }

  ghost predicate IsMaximum(m: map<int, int>, adjacency: seq<seq<int>>) {
    && IsMatching(m, adjacency)
    && forall other :: IsMatching(other, adjacency) ==> |other| <= |m|
  }

  // The two dictionaries are inverse to one another.
  ghost predicate Inverse(predToGold: map<int, int>, goldToPred: map<int, int>) {
    && (forall p :: p in predToGold ==> predToGold[p] in goldToPred && goldToPred[predToGold[p]] == p)
    && (forall g :: g in goldToPred ==> goldToPred[g] in predToGold && predToGold[goldToPred[g]] == g)
  }

  // A set of predictions all of whose labels are matched back into the set: no
  // augmenting path that enters it can leave it again.
  ghost predicate Closed(dead: set<int>, adjacency: seq<seq<int>>, goldToPred: map<int, int>) {
    forall p, g :: p in dead && 0 <= p < |adjacency| && g in adjacency[p] ==> g in goldToPred && goldToPred[g] in dead
  }

  ghost function Neighbours(from: set<int>, adjacency: seq<seq<int>>): set<int>
    requires forall p :: p in from ==> 0 <= p < |adjacency|
  {
    set p, g | p in from && g in adjacency[p] :: g
  }

  // A matching that leaves unmatched only members of a closed set is maximum.
  lemma ClosedSetCertifiesMaximum(m: map<int, int>, goldToPred: map<int, int>, adjacency: seq<seq<int>>,
                                  dead: set<int>, other: map<int, int>)
    requires IsMatching(m, adjacency) && Inverse(m, goldToPred)
    requires Closed(dead, adjacency, goldToPred)
    requires forall p: int :: 0 <= p < |adjacency| ==> p in m || p in dead
    requires IsMatching(other, adjacency)
    ensures |other| <= |m|
  {
    // Send every prediction matched by `other` to one matched by `m`, injectively:
    // members of the closed set go through their label, the rest stay put.
    var f := map p | p in other :: if p in dead then goldToPred[other[p]] else p;
    assert f.Keys == other.Keys;
    forall p, q | p in f && q in f && p != q
      ensures f[p] != f[q]
    {
      if p in dead && q in dead {
        assert m[goldToPred[other[p]]] == other[p] && m[goldToPred[other[q]]] == other[q];
      }
    }
    forall p | p in f
      ensures f[p] in m.Keys
    {
      assert other[p] in adjacency[p];
    }
    InjectiveSize(f, m.Keys);
    assert |other| == |other.Keys| && |f| == |f.Keys| && |m| == |m.Keys|;
  }

  lemma ClosedSetIsMaximum(m: map<int, int>, goldToPred: map<int, int>, adjacency: seq<seq<int>>, dead: set<int>)
    requires IsMatching(m, adjacency) && Inverse(m, goldToPred)
    requires Closed(dead, adjacency, goldToPred)
    requires forall p: int :: 0 <= p < |adjacency| ==> p in m || p in dead
    ensures IsMaximum(m, adjacency)
  {
    hide IsMatching, Inverse, Closed;
    forall other | IsMatching(other, adjacency)
      ensures |other| <= |m|
    {
      ClosedSetCertifiesMaximum(m, goldToPred, adjacency, dead, other);
    }
  }

  lemma MembersHaveNeighbours(m: map<int, int>, adjacency: seq<seq<int>>, dead: set<int>)
    requires IsMatching(m, adjacency)
    requires forall p :: p in dead ==> 0 <= p < |adjacency|
    ensures |dead * m.Keys| <= |Neighbours(dead, adjacency)|
  {
    var around := Neighbours(dead, adjacency);
    var inside := dead * m.Keys;
    var into := map p | p in inside :: m[p];
    assert into.Keys == inside;
    InjectiveSize(into, around);
  }

  lemma NeighboursHaveMembers(m: map<int, int>, goldToPred: map<int, int>, adjacency: seq<seq<int>>, dead: set<int>)
    requires Inverse(m, goldToPred)
    requires Closed(dead, adjacency, goldToPred)
    requires forall p :: p in dead ==> 0 <= p < |adjacency|
    ensures |Neighbours(dead, adjacency)| <= |dead * m.Keys|
  {
    var around := Neighbours(dead, adjacency);
    var back := map g | g in around :: goldToPred[g];
    assert back.Keys == around;
    forall g, h | g in back && h in back && g != h
      ensures back[g] != back[h]
    {
      assert m[back[g]] == g && m[back[h]] == h;
    }
    InjectiveSize(back, dead * m.Keys);
  }

  // A closed set of predictions has as many neighbours as it has matched members.
  lemma ClosedSetNeighbours(m: map<int, int>, goldToPred: map<int, int>, adjacency: seq<seq<int>>, dead: set<int>)
    requires IsMatching(m, adjacency) && Inverse(m, goldToPred)
    requires Closed(dead, adjacency, goldToPred)
    requires forall p :: p in dead ==> 0 <= p < |adjacency|
    ensures |Neighbours(dead, adjacency)| == |dead * m.Keys|
  {
    hide IsMatching, Inverse, Closed, Neighbours;
    MembersHaveNeighbours(m, adjacency, dead);
    NeighboursHaveMembers(m, goldToPred, adjacency, dead);
  }

  // The deficiency formula: the closed set has exactly as many more members than
  // neighbours as there are unmatched predictions.
  lemma ClosedSetDeficiency(m: map<int, int>, goldToPred: map<int, int>, adjacency: seq<seq<int>>, dead: set<int>)
    requires IsMatching(m, adjacency) && Inverse(m, goldToPred)
    requires Closed(dead, adjacency, goldToPred)
    requires forall p :: p in dead ==> 0 <= p < |adjacency|
    requires forall p: int :: 0 <= p < |adjacency| ==> p in m || p in dead
    ensures |m| == |adjacency| - (|dead| - |Neighbours(dead, adjacency)|)
  {
    ClosedSetNeighbours(m, goldToPred, adjacency, dead);
    RangeSize(m.Keys + dead, 0, |adjacency|);
    UnionSize(m.Keys, dead);
    assert m.Keys * dead == dead * m.Keys;
  }

  // The breadth-first search from `start`: what has been reached and how.  Every
  // reached prediction but the first was reached through the label it is matched
  // with, from a prediction nearer to the start.
  ghost predicate Searching(adjacency: seq<seq<int>>, predToGold: map<int, int>, start: int,
                            seen: set<int>, parent: map<int, int>, depth: map<int, nat>)
  {
    && start in seen && seen == depth.Keys
    && (forall p :: p in seen ==> 0 <= p < |adjacency|)
    && (forall g :: g in parent ==> parent[g] in seen && g in adjacency[parent[g]])
    && (forall p {:trigger predToGold[p]} {:trigger p in predToGold} :: p in seen && p != start ==>
          && p in predToGold && predToGold[p] in parent
          && depth[parent[predToGold[p]]] < depth[p])
  }

  // No free label has been reached yet, and every partner of a reached label is seen.
  ghost predicate AllMatched(goldToPred: map<int, int>, seen: set<int>, parent: map<int, int>) {
    forall g :: g in parent ==> g in goldToPred && goldToPred[g] in seen
  }

  // The queue: distinct predictions that have been seen but not explored.
  ghost predicate Queue(pending: seq<int>, seen: set<int>, done: set<int>) {
    && (forall i :: 0 <= i < |pending| ==> pending[i] in seen && pending[i] !in done)
    && (forall i, j :: 0 <= i < j < |pending| ==> pending[i] != pending[j])
  }

  lemma QueuePush(pending: seq<int>, seen: set<int>, done: set<int>, x: int)
    requires Queue(pending, seen, done) && done <= seen && x !in seen
    ensures Queue(pending + [x], seen + {x}, done)
  {
  }

  ghost predicate Visited(golds: seq<int>, upTo: int, parent: map<int, int>) {
    forall k :: 0 <= k < |golds| && k < upTo ==> golds[k] in parent
  }

  lemma VisitNext(golds: seq<int>, i: int, parent: map<int, int>, parent': map<int, int>)
    requires 0 <= i < |golds| && Visited(golds, i, parent)
    requires parent.Keys <= parent'.Keys && golds[i] in parent'
    ensures Visited(golds, i + 1, parent')
  {
  }

  // Predictions taken off the queue have had all their labels visited.
  ghost predicate Explored(adjacency: seq<seq<int>>, done: set<int>, parent: map<int, int>) {
    forall p :: p in done && 0 <= p < |adjacency| ==> Visited(adjacency[p], |adjacency[p]|, parent)
  }

  lemma SearchStarts(adjacency: seq<seq<int>>, predToGold: map<int, int>, goldToPred: map<int, int>, start: int)
    requires 0 <= start < |adjacency|
    ensures Searching(adjacency, predToGold, start, {start}, map[], map[start := 0])
    ensures AllMatched(goldToPred, {start}, map[]) && Explored(adjacency, {}, map[]) && Queue([start], {start}, {})
  {
  }

  lemma QueuePop(pending: seq<int>, seen: set<int>, done: set<int>)
    requires Queue(pending, seen, done) && pending != []
    ensures pending[0] in seen && pending[0] !in done && pending[0] !in pending[1..]
    ensures Queue(pending[1..], seen, done)
    ensures forall p :: p in pending ==> p == pending[0] || p in pending[1..]
  {
  }

  lemma QueueDone(pending: seq<int>, seen: set<int>, done: set<int>, x: int)
    requires Queue(pending, seen, done) && x !in pending
    ensures Queue(pending, seen, done + {x})
  {
  }

  lemma SeenInRange(adjacency: seq<seq<int>>, predToGold: map<int, int>, start: int, seen: set<int>,
                    parent: map<int, int>, depth: map<int, nat>)
    requires Searching(adjacency, predToGold, start, seen, parent, depth)
    ensures seen == depth.Keys && forall p :: p in seen ==> 0 <= p < |adjacency|
  {
  }

  // Reaching a free label ends the search.
  lemma ReachFree(adjacency: seq<seq<int>>, predToGold: map<int, int>, start: int, seen: set<int>,
                  parent: map<int, int>, depth: map<int, nat>, prediction: int, gold: int)
    requires Searching(adjacency, predToGold, start, seen, parent, depth)
    requires prediction in seen && gold in adjacency[prediction] && gold !in parent
    ensures Searching(adjacency, predToGold, start, seen, parent[gold := prediction], depth)
  {
  }

  lemma ExploredGrows(adjacency: seq<seq<int>>, done: set<int>, parent: map<int, int>, parent': map<int, int>)
    requires Explored(adjacency, done, parent) && parent.Keys <= parent'.Keys
    ensures Explored(adjacency, done, parent')
  {
  }

  lemma ExploredOne(adjacency: seq<seq<int>>, done: set<int>, parent: map<int, int>, prediction: int)
    requires Explored(adjacency, done, parent) && 0 <= prediction < |adjacency|
    requires Visited(adjacency[prediction], |adjacency[prediction]|, parent)
    ensures Explored(adjacency, done + {prediction}, parent)
  {
  }

  lemma NothingVisited(golds: seq<int>, parent: map<int, int>)
    ensures Visited(golds, 0, parent)
  {
  }

  // Reaching the partner of a matched label.
  lemma Discover(adjacency: seq<seq<int>>, predToGold: map<int, int>, goldToPred: map<int, int>, start: int,
                 seen: set<int>, parent: map<int, int>, depth: map<int, nat>, prediction: int, gold: int)
    requires IsMatching(predToGold, adjacency) && Inverse(predToGold, goldToPred)
    requires Searching(adjacency, predToGold, start, seen, parent, depth) && AllMatched(goldToPred, seen, parent)
    requires prediction in seen && gold in adjacency[prediction] && gold !in parent && gold in goldToPred
    ensures var previous := goldToPred[gold];
            var seen', parent' := seen + {previous}, parent[gold := prediction];
            var depth' := if previous in seen then depth else depth[previous := depth[prediction] + 1];
            Searching(adjacency, predToGold, start, seen', parent', depth') && AllMatched(goldToPred, seen', parent')
  {
  }

  // Part way through a flip: the dictionaries are inverse but for `current`, which
  // no prediction is matched with and which may still name its former partner.
  ghost predicate HalfFlipped(predToGold: map<int, int>, goldToPred: map<int, int>, current: int) {
    && (forall p :: p in predToGold ==> predToGold[p] in goldToPred && goldToPred[predToGold[p]] == p)
    && (forall p :: p in predToGold ==> predToGold[p] != current)
    && (forall g :: g in goldToPred && g != current ==>
          goldToPred[g] in predToGold && predToGold[goldToPred[g]] == g)
  }

  // The dictionaries part way through a flip of the path found by a search that
  // started from dictionaries `was` and `wasGold`: predictions at least as near to
  // the start as the next one to rematch still have their old label.
  ghost predicate Flipping(dead: set<int>, seen: set<int>, parent: map<int, int>, depth: map<int, nat>,
                           was: map<int, int>, free: int, current: int,
                           predToGold: map<int, int>, goldToPred: map<int, int>)
  {
    && predToGold.Keys == was.Keys
    && current in parent && parent[current] in depth
    && (current in goldToPred ==> goldToPred[current] !in dead)
    && (current == free || current in goldToPred)
    && HalfFlipped(predToGold, goldToPred, current)
    && (forall p :: p in seen && p in was && p in depth && depth[p] <= depth[parent[current]] ==>
        predToGold[p] == was[p])
  }

  // One step of a flip.
  lemma RematchKeepsMatching(adjacency: seq<seq<int>>, predToGold: map<int, int>, goldToPred: map<int, int>,
                             current: int, prediction: int)
    requires IsMatching(predToGold, adjacency)
    requires HalfFlipped(predToGold, goldToPred, current)
    requires 0 <= prediction < |adjacency| && current in adjacency[prediction]
    ensures var p2g, g2p := predToGold[prediction := current], goldToPred[current := prediction];
            && IsMatching(p2g, adjacency)
            && if prediction in predToGold then HalfFlipped(p2g, g2p, predToGold[prediction])
               else Inverse(p2g, g2p)
  {
  }

  // The set closed under failed searches is left alone: the label rematched is not
  // one of its neighbours, and neither is the next one.
  lemma FlipKeepsClosed(adjacency: seq<seq<int>>, dead: set<int>, goldToPred: map<int, int>, current: int,
                        prediction: int)
    requires Closed(dead, adjacency, goldToPred)
    requires 0 <= prediction < |adjacency| && current in adjacency[prediction]
    requires current in goldToPred ==> goldToPred[current] !in dead
    ensures prediction !in dead
    ensures Closed(dead, adjacency, goldToPred[current := prediction])
  {
  }

  // The next label back along the path.
  lemma FlipStep(adjacency: seq<seq<int>>, dead: set<int>, start: int, seen: set<int>, parent: map<int, int>,
                 depth: map<int, nat>, was: map<int, int>, free: int, current: int,
                 predToGold: map<int, int>, goldToPred: map<int, int>)
    requires IsMatching(predToGold, adjacency) && Closed(dead, adjacency, goldToPred)
    requires Searching(adjacency, was, start, seen, parent, depth) && start !in was
    requires forall p :: p in was ==> was[p] != free
    requires Flipping(dead, seen, parent, depth, was, free, current, predToGold, goldToPred)
    ensures var prediction := parent[current];
            var p2g, g2p := predToGold[prediction := current], goldToPred[current := prediction];
            && prediction in seen && 0 <= prediction < |adjacency| && current in adjacency[prediction]
            && (current == free || current in goldToPred)
            && IsMatching(p2g, adjacency) && Closed(dead, adjacency, g2p)
            && if prediction in predToGold then
                 && Flipping(dead, seen, parent, depth, was, free, predToGold[prediction], p2g, g2p)
                 && predToGold[prediction] in goldToPred && predToGold[prediction] != free
                 && predToGold[prediction] in parent && parent[predToGold[prediction]] in depth
                 && depth[parent[predToGold[prediction]]] < depth[prediction]
               else
                 p2g.Keys == was.Keys + {start} && Inverse(p2g, g2p)
  {
    var prediction := parent[current];
    RematchKeepsMatching(adjacency, predToGold, goldToPred, current, prediction);
    FlipKeepsClosed(adjacency, dead, goldToPred, current, prediction);
  }

  lemma FlipStarts(adjacency: seq<seq<int>>, dead: set<int>, start: int, seen: set<int>, parent: map<int, int>,
                   depth: map<int, nat>, predToGold: map<int, int>, goldToPred: map<int, int>, free: int)
    requires Inverse(predToGold, goldToPred) && free in parent && free !in goldToPred
    requires Searching(adjacency, predToGold, start, seen, parent, depth)
    ensures parent[free] in depth && forall p :: p in predToGold ==> predToGold[p] != free
    ensures Flipping(dead, seen, parent, depth, predToGold, free, free, predToGold, goldToPred)
  {
  }

  // ----- The two match dictionaries and the augmenting search --------------------

  class Matcher {
    const adjacency: seq<seq<int>>
    var goldToPred: map<int, int>
    var predToGold: map<int, int>
    // Everything reached by a failed search; later searches cannot profit from it.
    ghost var dead: set<int>

    ghost predicate Valid()
      reads this
    {
      && IsMatching(predToGold, adjacency)
      && Inverse(predToGold, goldToPred)
      && Closed(dead, adjacency, goldToPred)
      && forall p :: p in dead ==> 0 <= p < |adjacency|
    }

    constructor (adjacency: seq<seq<int>>)
      ensures Valid() && this.adjacency == adjacency
      ensures goldToPred == map[] && predToGold == map[] && dead == {}
    {
      this.adjacency := adjacency;
      goldToPred, predToGold, dead := map[], map[], {};
    }

    // The breadth-first half of an augmenting search: stops at the first free label,
    // or shows that everything reachable is matched back into what was seen.
    method Search(start: int)
      returns (found: bool, free: int, seen: set<int>, parent: map<int, int>, ghost depth: map<int, nat>)
      requires Valid() && 0 <= start < |adjacency| && start !in predToGold
      ensures Searching(adjacency, predToGold, start, seen, parent, depth)
      ensures found ==> free in parent && free !in goldToPred
      ensures !found ==> AllMatched(goldToPred, seen, parent) && Explored(adjacency, seen, parent)
    {
      hide Searching, AllMatched, Explored, Visited, Queue, IsMatching, Inverse, Closed, Samples;
      var pending := [start];
      ghost var done: set<int> := {};
      seen, parent, depth := {start}, map[], map[start := 0];
      SearchStarts(adjacency, predToGold, goldToPred, start);
      while pending != []
        invariant Searching(adjacency, predToGold, start, seen, parent, depth) && AllMatched(goldToPred, seen, parent)
        invariant Explored(adjacency, done, parent)
        invariant Queue(pending, seen, done)
        invariant forall p :: p in seen ==> p in done || p in pending
        invariant done <= seen
        decreases Samples(0, |adjacency|) - done
      {
        var prediction := pending[0];
        QueuePop(pending, seen, done);
        SeenInRange(adjacency, predToGold, start, seen, parent, depth);
        pending := pending[1..];
        var i := 0;
        NothingVisited(adjacency[prediction], parent);
        while i < |adjacency[prediction]|
          invariant 0 <= i <= |adjacency[prediction]|
          invariant Searching(adjacency, predToGold, start, seen, parent, depth) && AllMatched(goldToPred, seen, parent)
          invariant Explored(adjacency, done, parent)
          invariant Visited(adjacency[prediction], i, parent)
          invariant prediction in seen && prediction !in done && prediction !in pending
          invariant Queue(pending, seen, done)
          invariant forall p :: p in seen ==> p in done || p == prediction || p in pending
          invariant done <= seen
        {
          var gold := adjacency[prediction][i];
          ghost var before := parent;
          if gold !in parent {
            if gold !in goldToPred {
              ReachFree(adjacency, predToGold, start, seen, parent, depth, prediction, gold);
              parent := parent[gold := prediction];
              return true, gold, seen, parent, depth;
            }
            Discover(adjacency, predToGold, goldToPred, start, seen, parent, depth, prediction, gold);
            ExploredGrows(adjacency, done, parent, parent[gold := prediction]);
            parent := parent[gold := prediction];
            var previous := goldToPred[gold];
            assert previous in seen ==> seen + {previous} == seen;
            if previous !in seen {
              SeenInRange(adjacency, predToGold, start, seen, before, depth);
              QueuePush(pending, seen, done, previous);
              seen := seen + {previous};
              pending := pending + [previous];
              depth := depth[previous := depth[prediction] + 1];
            }
          }
          VisitNext(adjacency[prediction], i, before, parent);
          i := i + 1;
        }
        assert i == |adjacency[prediction]|;
        ExploredOne(adjacency, done, parent, prediction);
        QueueDone(pending, seen, done, prediction);
        done := done + {prediction};
      }
      assert forall p :: p in seen ==> p in done;
      assert done == seen;
      found, free := false, 0;
    }

    // One augmenting search.  No matched prediction or label becomes unmatched, and
    // the matching grows by exactly one prediction and one label when the search
    // succeeds; when it fails nothing changes.
    method Assign(start: int) returns (found: bool)
      requires Valid() && 0 <= start < |adjacency| && start !in predToGold && start !in dead
      modifies this
      ensures Valid()
      ensures found ==> dead == old(dead)
      ensures found ==> predToGold.Keys == old(predToGold.Keys) + {start}
      ensures found ==> exists g :: g !in old(goldToPred) && goldToPred.Keys == old(goldToPred.Keys) + {g}
      ensures !found ==> predToGold == old(predToGold) && goldToPred == old(goldToPred)
      ensures !found ==> start in dead && old(dead) <= dead <= old(dead) + predToGold.Keys + {start}
    {
      var free, seen, parent;
      ghost var depth;
      found, free, seen, parent, depth := Search(start);
      if found {
        Flip(start, seen, parent, depth, free);
      } else {
        assert forall p :: p in seen && p != start ==> p in predToGold;
        dead := dead + seen;
      }
    }

    // Walk back along the parents from a free label, rematching each prediction to
    // the label it was reached through.
    method Flip(start: int, seen: set<int>, parent: map<int, int>, ghost depth: map<int, nat>, free: int)
      requires Valid() && start !in predToGold
      requires free in parent && free !in goldToPred
      requires Searching(adjacency, predToGold, start, seen, parent, depth)
      modifies this
      ensures Valid() && dead == old(dead)
      ensures predToGold.Keys == old(predToGold.Keys) + {start}
      ensures goldToPred.Keys == old(goldToPred.Keys) + {free}
    {
      hide IsMatching, Inverse, Closed, Searching, Flipping;
      var current := free;
      var more := true;
      ghost var was := predToGold;
      ghost var wasGold := goldToPred;
      FlipStarts(adjacency, dead, start, seen, parent, depth, predToGold, goldToPred, free);
      while more
        invariant dead == old(dead)
        invariant IsMatching(predToGold, adjacency) && Closed(dead, adjacency, goldToPred)
        invariant more ==> current in parent && parent[current] in depth
        invariant more ==> Flipping(dead, seen, parent, depth, was, free, current, predToGold, goldToPred)
        invariant !more ==> Inverse(predToGold, goldToPred) && predToGold.Keys == was.Keys + {start}
        invariant wasGold.Keys <= goldToPred.Keys <= wasGold.Keys + {free}
        invariant !more || current != free ==> free in goldToPred
        decreases more, if more then depth[parent[current]] else 0
      {
        FlipStep(adjacency, dead, start, seen, parent, depth, was, free, current, predToGold, goldToPred);
        var prediction := parent[current];
        var hasPrevious := prediction in predToGold;
        var previous := if hasPrevious then predToGold[prediction] else 0;
        goldToPred, predToGold := goldToPred[current := prediction], predToGold[prediction := current];
        current, more := previous, hasPrevious;
      }
    }
  }

  // ----- Pairings of predictions with labels ---------------------------------------

  ghost predicate IsPairing(m: map<int, int>, predicted: seq<Prediction>, gold: seq<Label>, minIou: real) {
    && (forall p :: p in m ==>
        0 <= p < |predicted| && 0 <= m[p] < |gold| && Compatible(predicted[p], gold[m[p]], minIou))
    && (forall p, q :: p in m && q in m && p != q ==> m[p] != m[q])
  }

  // `k` is the size of a largest one-to-one pairing.
  ghost predicate IsMaximumSize(k: int, predicted: seq<Prediction>, gold: seq<Label>, minIou: real) {
    && (exists m :: IsPairing(m, predicted, gold, minIou) && |m| == k)
    && (forall m :: IsPairing(m, predicted, gold, minIou) ==> |m| <= k)
  }

  ghost predicate Reorders<T>(order: seq<nat>, from: seq<T>, to: seq<T>) {
    && IsPermutation(order, |from|) && |to| == |from|
    && forall i :: 0 <= i < |to| ==> to[i] == from[order[i]]
  }

  lemma InverseOrder<T>(order: seq<nat>, from: seq<T>, to: seq<T>) returns (back: seq<nat>)
    requires Reorders(order, from, to)
    ensures Reorders(back, to, from)
    ensures forall x :: 0 <= x < |from| ==> order[back[x]] == x && back[order[x]] == x
  {
    back := seq(|from|, x requires 0 <= x < |from| =>
                (assert x in order; var i :| 0 <= i < |order| && order[i] == x; i));
    forall x | 0 <= x < |back|
      ensures order[back[x]] == x
    {
      assert x in order;
    }
    forall i | 0 <= i < |back|
      ensures i in back
    {
      assert back[order[i]] == i;
    }
  }

  // Moving the keys of a map along a permutation keeps its size.
  lemma MovedSize(keys: set<int>, moved: set<int>, order: seq<nat>, back: seq<nat>, n: nat)
    requires IsPermutation(order, n) && |back| == n
    requires forall i :: 0 <= i < n ==> back[i] < n && order[back[i]] == i
    requires forall p :: p in keys ==> 0 <= p < n && order[p] in moved
    requires forall q :: q in moved ==> 0 <= q < n && back[q] in keys
    ensures |keys| == |moved|
  {
    var there := map p | p in keys :: order[p] as int;
    assert there.Keys == keys;
    InjectiveSize(there, moved);
    var home := map q | q in moved :: back[q] as int;
    assert home.Keys == moved;
    assert forall q, r :: q in home && r in home && q != r ==> order[home[q]] == q && order[home[r]] == r;
    InjectiveSize(home, keys);
  }

  // A pairing of reordered predictions is a pairing of the originals, of the same size.
  lemma RelabelPredictions(m: map<int, int>, minIou: real, gold: seq<Label>,
                           order: seq<nat>, predicted: seq<Prediction>, predicted': seq<Prediction>)
                             returns (r: map<int, int>)
    requires Reorders(order, predicted, predicted')
    requires IsPairing(m, predicted', gold, minIou)
    ensures IsPairing(r, predicted, gold, minIou) && |r| == |m|
    ensures forall p :: p in r ==> exists q :: q in m && m[q] == r[p]
  {
    var back := InverseOrder(order, predicted, predicted');
    var keys := set p | p in m :: order[p] as int;
    r := map q | q in keys :: m[back[q]];
    assert r.Keys == keys;
    MovedSize(m.Keys, keys, order, back, |predicted|);
  }

  // Likewise for reordered labels.
  lemma RelabelGold(m: map<int, int>, minIou: real, predicted: seq<Prediction>,
                    order: seq<nat>, gold: seq<Label>, gold': seq<Label>) returns (r: map<int, int>)
    requires Reorders(order, gold, gold')
    requires IsPairing(m, predicted, gold', minIou)
    ensures IsPairing(r, predicted, gold, minIou) && |r| == |m|
  {
    r := map p | p in m :: order[m[p]] as int;
    assert r.Keys == m.Keys;
  }

  lemma Relabel(m: map<int, int>, minIou: real,
                predOrder: seq<nat>, predicted: seq<Prediction>, predicted': seq<Prediction>,
                goldOrder: seq<nat>, gold: seq<Label>, gold': seq<Label>) returns (r: map<int, int>)
    requires Reorders(predOrder, predicted, predicted') && Reorders(goldOrder, gold, gold')
    requires IsPairing(m, predicted', gold', minIou)
    ensures IsPairing(r, predicted, gold, minIou) && |r| == |m|
  {
    r := RelabelPredictions(m, minIou, gold', predOrder, predicted, predicted');
    r := RelabelGold(r, minIou, predicted, goldOrder, gold, gold');
  }

  // The size of a maximum pairing is the same for every order of the two lists.
  lemma OrderDoesNotMatter(k: int, minIou: real,
                           predOrder: seq<nat>, predicted: seq<Prediction>, predicted': seq<Prediction>,
                           goldOrder: seq<nat>, gold: seq<Label>, gold': seq<Label>)
    requires Reorders(predOrder, predicted, predicted') && Reorders(goldOrder, gold, gold')
    ensures IsMaximumSize(k, predicted, gold, minIou) <==> IsMaximumSize(k, predicted', gold', minIou)
  {
    var predBack := InverseOrder(predOrder, predicted, predicted');
    var goldBack := InverseOrder(goldOrder, gold, gold');
    if IsMaximumSize(k, predicted', gold', minIou) {
      OrderDoesNotMatterOneWay(k, minIou, predOrder, predicted, predicted', goldOrder, gold, gold');
    }
    if IsMaximumSize(k, predicted, gold, minIou) {
      OrderDoesNotMatterOneWay(k, minIou, predBack, predicted', predicted, goldBack, gold', gold);
    }
  }

  lemma OrderDoesNotMatterOneWay(k: int, minIou: real,
                                 predOrder: seq<nat>, predicted: seq<Prediction>, predicted': seq<Prediction>,
                                 goldOrder: seq<nat>, gold: seq<Label>, gold': seq<Label>)
    requires Reorders(predOrder, predicted, predicted') && Reorders(goldOrder, gold, gold')
    requires IsMaximumSize(k, predicted', gold', minIou)
    ensures IsMaximumSize(k, predicted, gold, minIou)
  {
    var m :| IsPairing(m, predicted', gold', minIou) && |m| == k;
    var r := Relabel(m, minIou, predOrder, predicted, predicted', goldOrder, gold, gold');
    var predBack := InverseOrder(predOrder, predicted, predicted');
    var goldBack := InverseOrder(goldOrder, gold, gold');
    forall other | IsPairing(other, predicted, gold, minIou)
      ensures |other| <= k
    {
      var _ := Relabel(other, minIou, predBack, predicted', predicted, goldBack, gold', gold);
    }
  }

  // Raising the overlap threshold never lets more predictions be matched.
  lemma TighterThreshold(k: int, k': int, predicted: seq<Prediction>, gold: seq<Label>, minIou: real, minIou': real)
    requires minIou <= minIou'
    requires IsMaximumSize(k, predicted, gold, minIou) && IsMaximumSize(k', predicted, gold, minIou')
    ensures k' <= k
  {
    var m :| IsPairing(m, predicted, gold, minIou') && |m| == k';
    assert IsPairing(m, predicted, gold, minIou);
  }

  // One more prediction changes the count by at most one, and never downwards.
  lemma OneMorePrediction(k: int, k': int, predicted: seq<Prediction>, x: Prediction, gold: seq<Label>, minIou: real)
    requires IsMaximumSize(k, predicted, gold, minIou) && IsMaximumSize(k', predicted + [x], gold, minIou)
    ensures k <= k' <= k + 1
  {
    var m :| IsPairing(m, predicted, gold, minIou) && |m| == k;
    assert IsPairing(m, predicted + [x], gold, minIou);
    var m' :| IsPairing(m', predicted + [x], gold, minIou) && |m'| == k';
    var fewer := m' - {|predicted|};
    assert IsPairing(fewer, predicted, gold, minIou);
    assert fewer.Keys == m'.Keys - {|predicted|};
  }

  lemma DropLabel(m: map<int, int>, predicted: seq<Prediction>, gold: seq<Label>, y: Label, minIou: real)
    requires forall p :: p in m ==> m[p] != |gold|
    ensures IsPairing(m, predicted, gold + [y], minIou) <==> IsPairing(m, predicted, gold, minIou)
  {
  }

  // So does one more label.
  lemma OneMoreLabel(k: int, k': int, predicted: seq<Prediction>, gold: seq<Label>, y: Label, minIou: real)
    requires IsMaximumSize(k, predicted, gold, minIou) && IsMaximumSize(k', predicted, gold + [y], minIou)
    ensures k <= k' <= k + 1
  {
    var m :| IsPairing(m, predicted, gold, minIou) && |m| == k;
    DropLabel(m, predicted, gold, y, minIou);
    var m' :| IsPairing(m', predicted, gold + [y], minIou) && |m'| == k';
    if p :| p in m' && m'[p] == |gold| {
      var fewer := m' - {p};
      assert fewer.Keys == m'.Keys - {p};
      DropLabel(fewer, predicted, gold, y, minIou);
    } else {
      DropLabel(m', predicted, gold, y, minIou);
    }
  }

  // ----- The evaluation --------------------------------------------------------------

  function PredictionKeys(predicted: seq<Prediction>): (keys: seq<Key>)
    ensures |keys| == |predicted|
  {
    seq(|predicted|, i requires 0 <= i < |predicted| =>
      Key(predicted[i].start as real, predicted[i].end, KindRank(predicted[i].kind), predicted[i].id))
  }

  // The indices of the first n labels of the prediction's kind.
  function Candidates(p: Prediction, gold: seq<Label>, n: nat): (c: seq<int>)
    requires n <= |gold|
    ensures forall i :: 0 <= i < |c| ==> 0 <= c[i] < n
    ensures forall g :: g in c <==> 0 <= g < n && gold[g].kind == p.kind
  {
    if n == 0 then []
    else Candidates(p, gold, n - 1) + (if gold[n - 1].kind == p.kind then [n - 1] else [])
  }

  function Overlap(p: Prediction, g: Label): real {
    Iou(p.start, p.end, g.start, g.end)
  }

  // Candidates by decreasing overlap, then increasing index, keeping those that
  // reach the threshold.
  function Keep(p: Prediction, gold: seq<Label>, minIou: real, candidates: seq<int>, order: seq<nat>): (row: seq<int>)
    requires forall i :: 0 <= i < |candidates| ==> 0 <= candidates[i] < |gold|
    requires forall i :: 0 <= i < |order| ==> order[i] < |candidates|
    ensures forall g :: g in row ==> 0 <= g < |gold| && g in candidates && Overlap(p, gold[g]) >= minIou
    ensures forall i :: 0 <= i < |order| && Overlap(p, gold[candidates[order[i]]]) >= minIou ==>
              candidates[order[i]] in row
  {
    if order == [] then []
    else
      var g := candidates[order[|order| - 1]];
      Keep(p, gold, minIou, candidates, order[..|order| - 1]) + (if Overlap(p, gold[g]) >= minIou then [g] else [])
  }

  function Row(p: Prediction, gold: seq<Label>, minIou: real): (row: seq<int>)
    ensures forall g :: g in row <==> 0 <= g < |gold| && Compatible(p, gold[g], minIou)
  {
    var candidates := Candidates(p, gold, |gold|);
    var keys := seq(|candidates|, i requires 0 <= i < |candidates| =>
                    Key(-Overlap(p, gold[candidates[i]]), candidates[i], 0, 0));
    var order := SortedOrder(keys, |keys|);
    var row := Keep(p, gold, minIou, candidates, order);
    assert forall i :: 0 <= i < |candidates| && Overlap(p, gold[candidates[i]]) >= minIou ==> candidates[i] in row by {
      forall i | 0 <= i < |candidates| && Overlap(p, gold[candidates[i]]) >= minIou
        ensures candidates[i] in row
      {
        assert i in order;
      }
    }
    row
  }

  // The number of severe labels among the first n whose index is in `which`.
  function SevereCount(gold: seq<Label>, which: set<int>, n: nat): (c: nat)
    requires n <= |gold|
    ensures c <= n
  {
    if n == 0 then 0
    else SevereCount(gold, which, n - 1) + (if n - 1 in which && gold[n - 1].severe then 1 else 0)
  }

  datatype Evaluation = Evaluation(
    truePositives: int, falsePositives: int, falseNegatives: int, severeFalseNegatives: int,
    emitted: int, concluded: int, eligible: int,
    precision: real, recall: real, coverage: real, severeMissRate: real, precisionInterval: Wilson.Interval)

  datatype Outcome = Evaluated(value: Evaluation) | BadCounts | BadThreshold

  function Ratio(n: int, d: int, otherwise: real): real {
    if d != 0 then n as real / d as real else otherwise
  }

  // A row lists exactly the labels its prediction may be matched with.
  ghost predicate IsRow(row: seq<int>, p: Prediction, gold: seq<Label>, minIou: real) {
    forall g :: g in row <==> 0 <= g < |gold| && Compatible(p, gold[g], minIou)
  }

  ghost predicate IsAdjacency(adjacency: seq<seq<int>>, ordered: seq<Prediction>, gold: seq<Label>, minIou: real) {
    |adjacency| == |ordered| && forall p :: 0 <= p < |adjacency| ==> IsRow(adjacency[p], ordered[p], gold, minIou)
  }

  method BuildAdjacency(ordered: seq<Prediction>, gold: seq<Label>, minIou: real) returns (adjacency: seq<seq<int>>)
    ensures IsAdjacency(adjacency, ordered, gold, minIou)
  {
    adjacency := [];
    for p := 0 to |ordered|
      invariant |adjacency| == p
      invariant forall q :: 0 <= q < p ==> IsRow(adjacency[q], ordered[q], gold, minIou)
    {
      var row := Row(ordered[p], gold, minIou);
      assert IsRow(row, ordered[p], gold, minIou);
      adjacency := adjacency + [row];
    }
  }

  // Match every prediction in turn.  The result is a largest matching, and the
  // predictions reached by failed searches certify it: they have exactly as many
  // fewer neighbours as there are predictions left over.
  method MatchAll(adjacency: seq<seq<int>>)
    returns (predToGold: map<int, int>, goldToPred: map<int, int>, ghost dead: set<int>)
    ensures IsMaximum(predToGold, adjacency) && Inverse(predToGold, goldToPred)
    ensures forall p :: p in dead ==> 0 <= p < |adjacency|
    ensures |predToGold| == |adjacency| - (|dead| - |Neighbours(dead, adjacency)|)
  {
    hide IsMatching, Inverse, Closed, Neighbours;
    var matcher := new Matcher(adjacency);
    for p := 0 to |adjacency|
      invariant fresh(matcher) && matcher.Valid() && matcher.adjacency == adjacency
      invariant forall q :: 0 <= q < p ==> q in matcher.predToGold || q in matcher.dead
      invariant forall q :: q in matcher.predToGold || q in matcher.dead ==> q < p
    {
      var _ := matcher.Assign(p);
    }
    predToGold, goldToPred, dead := matcher.predToGold, matcher.goldToPred, matcher.dead;
    assert forall q: int :: 0 <= q < |adjacency| ==> q in predToGold || q in dead;
    ClosedSetIsMaximum(predToGold, goldToPred, adjacency, dead);
    ClosedSetDeficiency(predToGold, goldToPred, adjacency, dead);
  }

  lemma InverseSameSize(predToGold: map<int, int>, goldToPred: map<int, int>)
    requires Inverse(predToGold, goldToPred)
    ensures |predToGold| == |goldToPred|
  {
    forall k, l | k in predToGold && l in predToGold && k != l
      ensures predToGold[k] != predToGold[l]
    {
      assert goldToPred[predToGold[k]] == k && goldToPred[predToGold[l]] == l;
    }
    InjectiveSize(predToGold, goldToPred.Keys);
    forall k, l | k in goldToPred && l in goldToPred && k != l
      ensures goldToPred[k] != goldToPred[l]
    {
      assert predToGold[goldToPred[k]] == k && predToGold[goldToPred[l]] == l;
    }
    InjectiveSize(goldToPred, predToGold.Keys);
  }

  // Matchings of the adjacency lists are pairings of the ordered predictions.
  lemma MatchingIsPairing(adjacency: seq<seq<int>>, ordered: seq<Prediction>, gold: seq<Label>, minIou: real,
                          m: map<int, int>)
    requires IsAdjacency(adjacency, ordered, gold, minIou)
    ensures IsMatching(m, adjacency) <==> IsPairing(m, ordered, gold, minIou)
  {
  }

  lemma MaximumMatchingIsMaximumSize(adjacency: seq<seq<int>>, ordered: seq<Prediction>, gold: seq<Label>,
                                     minIou: real, m: map<int, int>)
    requires IsAdjacency(adjacency, ordered, gold, minIou)
    requires IsMaximum(m, adjacency)
    ensures IsMaximumSize(|m|, ordered, gold, minIou)
  {
    MatchingIsPairing(adjacency, ordered, gold, minIou, m);
    forall other | IsPairing(other, ordered, gold, minIou)
      ensures |other| <= |m|
    {
      MatchingIsPairing(adjacency, ordered, gold, minIou, other);
    }
  }

  // Every label paired off is one fewer missed.
  lemma MatchedWithinBounds(m: map<int, int>, n: nat)
    requires forall p :: p in m ==> 0 <= p < n
    ensures |m| <= n
  {
    var id := map p | p in m :: p;
    assert id.Keys == m.Keys;
    InjectiveSize(id, Samples(0, n));
  }

  lemma UnmatchedSize(matched: set<int>, unmatched: set<int>, n: nat)
    requires forall g :: g in unmatched <==> 0 <= g < n && g !in matched
    requires forall g :: g in matched ==> 0 <= g < n
    ensures |unmatched| == n - |matched|
  {
    assert forall g :: g in unmatched ==> g !in matched;
    assert |matched + unmatched| == |matched| + |unmatched| by {
      assert matched !! unmatched;
    }
    RangeSize(matched + unmatched, 0, n);
  }

  lemma {:induction false} SevereCountBounds(gold: seq<Label>, which: set<int>, all: set<int>, n: nat)
    requires n <= |gold|
    requires forall g :: 0 <= g < n ==> g in all
    ensures SevereCount(gold, which, n) <= SevereCount(gold, all, n)
    ensures SevereCount(gold, which, n) <= |set g | g in which && 0 <= g < n|
  {
    if n > 0 {
      SevereCountBounds(gold, which, all, n - 1);
      var shorter := set g | g in which && 0 <= g < n - 1;
      assert (set g | g in which && 0 <= g < n) == if n - 1 in which then shorter + {n - 1} else shorter;
    }
  }

  lemma RatioInUnit(n: nat, d: nat, otherwise: real)
    requires n <= d && 0.0 <= otherwise <= 1.0
    ensures 0.0 <= Ratio(n, d, otherwise) <= 1.0
  {
    if d != 0 {
      RatioAtMostOne(n, d);
    }
  }

  // The interval's default quantile.
  const QUANTILE: real := 1.959963984540054

  // The whole evaluation.  `unmatched` are the labels a largest pairing leaves over.
  method EvaluateCorrections(
      predicted: seq<Prediction>, gold: seq<Label>, concluded: int, eligible: int, minIou: real, sqrt: real -> real)
      returns (r: Outcome, ghost unmatched: set<int>)
    ensures r.BadCounts? <==> !(0 <= concluded <= eligible)
    ensures r.BadThreshold? <==> 0 <= concluded <= eligible && !(0.0 < minIou <= 1.0)
    ensures r.Evaluated? ==>
              var e := r.value;
              && IsMaximumSize(e.truePositives, predicted, gold, minIou)
              && e.truePositives + e.falsePositives == e.emitted == |predicted| && 0 <= e.falsePositives
              && e.truePositives + e.falseNegatives == |gold| && 0 <= e.falseNegatives == |unmatched|
                 && unmatched <= Samples(0, |gold|)
              && (exists m :: IsPairing(m, predicted, gold, minIou) && |m| == e.truePositives && forall p ::
                  p in m ==> m[p] !in unmatched)
              && e.severeFalseNegatives == SevereCount(gold, unmatched, |gold|) <= e.falseNegatives
              && e.precision == Ratio(e.truePositives, |predicted|, 0.0)
              && e.recall == Ratio(e.truePositives, |gold|, 1.0)
              && e.coverage == Ratio(concluded, eligible, 0.0)
              && e.severeMissRate == Ratio(e.severeFalseNegatives, SevereCount(gold, Samples(0, |gold|), |gold|), 0.0)
              && 0.0 <= e.precision <= 1.0 && 0.0 <= e.recall <= 1.0 && 0.0 <= e.coverage <= 1.0
              && 0.0 <= e.severeMissRate <= 1.0
              && e.concluded == concluded && e.eligible == eligible
              && Wilson.WilsonInterval(e.truePositives, |predicted|, QUANTILE, sqrt) ==
                 Wilson.Bounds(e.precisionInterval)
  {
    hide Ratio, SevereCount, IsPairing, IsMaximumSize, IsAdjacency, Inverse, IsMaximum, IsMatching, SortedBy;
    hide SortedOrder, Samples, PredictionKeys, Neighbours, Compatible;
    unmatched := {};
    if !(0 <= concluded <= eligible) {
      r := BadCounts;
      return;
    }
    if !(0.0 < minIou <= 1.0) {
      r := BadThreshold;
      return;
    }
    var order := SortedOrder(PredictionKeys(predicted), |predicted|);
    var ordered := seq(|predicted|, i requires 0 <= i < |predicted| => predicted[order[i]]);
    var adjacency := BuildAdjacency(ordered, gold, minIou);
    var predToGold, goldToPred;
    ghost var dead;
    predToGold, goldToPred, dead := MatchAll(adjacency);

    MatchAllIsMaximum(predicted, gold, minIou, order, ordered, adjacency, predToGold, goldToPred);
    var matched := goldToPred.Keys;
    var truePositives := |matched|;
    var left := set g | 0 <= g < |gold| && g !in matched;
    unmatched := left;
    UnmatchedSize(matched, left, |gold|);
    var severeTotal := SevereCount(gold, matched + left, |gold|);
    var severeMissed := SevereCount(gold, left, |gold|);
    SevereCountBounds(gold, left, matched + left, |gold|);
    assert matched + left == Samples(0, |gold|);
    assert (set g | g in left && 0 <= g < |gold|) == left;
    RatioInUnit(truePositives, |predicted|, 0.0);
    RatioInUnit(truePositives, |gold|, 1.0);
    RatioInUnit(concluded, eligible, 0.0);
    RatioInUnit(severeMissed, severeTotal, 0.0);
    var interval := Wilson.WilsonInterval(truePositives, |predicted|, QUANTILE, sqrt);
    assert interval.Bounds?;
    r := Evaluated(Evaluation(
      truePositives, |predicted| - truePositives, |left|, severeMissed, |predicted|, concluded, eligible,
      Ratio(truePositives, |predicted|, 0.0), Ratio(truePositives, |gold|, 1.0), Ratio(concluded, eligible, 0.0),
      Ratio(severeMissed, severeTotal, 0.0), interval.value));
  }

  lemma MatchAllIsMaximum(predicted: seq<Prediction>, gold: seq<Label>, minIou: real, order: seq<nat>,
                          ordered: seq<Prediction>, adjacency: seq<seq<int>>,
                          predToGold: map<int, int>, goldToPred: map<int, int>)
    requires Reorders(order, predicted, ordered) && IsAdjacency(adjacency, ordered, gold, minIou)
    requires IsMaximum(predToGold, adjacency) && Inverse(predToGold, goldToPred)
    ensures IsMaximumSize(|goldToPred|, predicted, gold, minIou)
    ensures |goldToPred| <= |predicted| && |goldToPred| <= |gold|
    ensures forall g :: g in goldToPred ==> 0 <= g < |gold|
    ensures exists m :: IsPairing(m, predicted, gold, minIou) && |m| == |goldToPred| && forall p :: p in m ==>
              m[p] in goldToPred
  {
    MaximumMatchingIsMaximumSize(adjacency, ordered, gold, minIou, predToGold);
    InverseSameSize(predToGold, goldToPred);
    MatchingIsPairing(adjacency, ordered, gold, minIou, predToGold);
    var same: seq<nat> := seq(|gold|, i => i);
    forall x | 0 <= x < |gold|
      ensures x in same
    {
      assert same[x] == x;
    }
    OrderDoesNotMatter(|predToGold|, minIou, order, predicted, ordered, same, gold, gold);
    var m := RelabelPredictions(predToGold, minIou, gold, order, predicted, ordered);
    MatchedWithinBounds(predToGold, |predicted|);
    MatchedWithinBounds(goldToPred, |gold|);
  }
}
