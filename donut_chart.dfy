/**
 * The keyed join of `DonutChart.updateVis` (js/donutChart.js): arcs of the
 * pie layout are bound to path elements by coin; a path that leaves or
 * enters is given a zero-width starting or ending shape taken from a
 * neighbouring arc, so that sectors grow from and shrink into their
 * neighbours.  Angles are taken as given: the pie layout is not modelled.
 */
module Donut {
  import opened JsValues
  import opened CoinData

  /** One element of `vis.pie(chartData.donutData)`: its entry's coin and its angles. */
  datatype Arc = Arc(coin: Coin, startAngle: real, endAngle: real)

  /** A bare `{startAngle, endAngle}` shape, as `findNeighborArc` builds and `_current` holds. */
  datatype Angles = Angles(startAngle: real, endAngle: real)

  /** `key(d)`: arcs are joined by the coin of their data. */
  function Key(d: Arc): (k: Coin)
    ensures k == d.coin
  {
    d.coin
  }

  /** The shape of arc `d`. */
  function AnglesOf(d: Arc): Angles
  {
    Angles(d.startAngle, d.endAngle)
  }

  /** Some arc of `arcs` has key `k`. */
  ghost predicate HasKey(arcs: seq<Arc>, k: Coin)
  {
    exists q :: 0 <= q < |arcs| && Key(arcs[q]) == k
  }

  /** The position of the first arc with key `k`: the hit of the inner `for` loops. */
  function IndexOfKey(arcs: seq<Arc>, k: Coin): (r: Option<nat>)
    ensures r.Some? ==> r.value < |arcs| && Key(arcs[r.value]) == k
  {
    if |arcs| == 0 then None
    else if Key(arcs[0]) == k then Some(0)
    else
      match IndexOfKey(arcs[1..], k)
      case None => None
      case Some(j) => Some(j + 1)
  }

  /** No arc before the one `IndexOfKey` finds has key `k`, and it finds none exactly when no arc has it. */
  lemma {:induction false} IndexOfKeyFirst(arcs: seq<Arc>, k: Coin)
    ensures IndexOfKey(arcs, k).Some? ==> forall q :: 0 <= q < IndexOfKey(arcs, k).value ==> Key(arcs[q]) != k
    ensures IndexOfKey(arcs, k).None? <==> forall q :: 0 <= q < |arcs| ==> Key(arcs[q]) != k
  {
    if |arcs| > 0 && Key(arcs[0]) != k {
      IndexOfKeyFirst(arcs[1..], k);
      assert forall q :: 1 <= q < |arcs| ==> arcs[q] == arcs[1..][q - 1];
    }
  }

  /** The first arc with key `k` is the one `IndexOfKey` finds. */
  lemma IndexOfKeyAt(arcs: seq<Arc>, k: Coin, j: nat)
    requires j < |arcs| && Key(arcs[j]) == k
    requires forall q :: 0 <= q < j ==> Key(arcs[q]) != k
    ensures IndexOfKey(arcs, k) == Some(j)
  {
    IndexOfKeyFirst(arcs, k);
  }

  /** A key no arc has is found nowhere. */
  lemma IndexOfKeyAbsent(arcs: seq<Arc>, k: Coin)
    requires !HasKey(arcs, k)
    ensures IndexOfKey(arcs, k).None?
  {
    IndexOfKeyFirst(arcs, k);
  }

  /** The old arc that new arc `j` joins: the first arc of `data0` with its key. */
  function OldArcFor(data0: seq<Arc>, data1: seq<Arc>, j: nat): (r: Arc)
    requires j < |data1| && IndexOfKey(data0, Key(data1[j])).Some?
    ensures r in data0 && Key(r) == Key(data1[j])
  {
    data0[IndexOfKey(data0, Key(data1[j])).value]
  }

  /**
   * The index `findPreceding` stops at: the largest `j < i` whose new arc
   * has a key occurring in the old data.
   */
  function PrecedingIndex(i: nat, data0: seq<Arc>, data1: seq<Arc>): (r: Option<nat>)
    requires i <= |data1|
    ensures r.Some? ==> r.value < i && IndexOfKey(data0, Key(data1[r.value])).Some?
    ensures forall j :: 0 <= j < i && (r.Some? ==> r.value < j) ==> IndexOfKey(data0, Key(data1[j])).None?
  {
    if i == 0 then None
    else if IndexOfKey(data0, Key(data1[i - 1])).Some? then Some(i - 1)
    else PrecedingIndex(i - 1, data0, data1)
  }

  /**
   * The index `findFollowing` stops at: the smallest `j > i`, `j < |data1|`,
   * whose new arc has a key occurring in the old data.
   */
  function FollowingIndex(i: nat, data0: seq<Arc>, data1: seq<Arc>): (r: Option<nat>)
    ensures r.Some? ==> i < r.value < |data1| && IndexOfKey(data0, Key(data1[r.value])).Some?
    ensures forall j :: i < j < |data1| && (r.Some? ==> j < r.value) ==> IndexOfKey(data0, Key(data1[j])).None?
    decreases |data1| - i
  {
    if i + 1 >= |data1| then None
    else if IndexOfKey(data0, Key(data1[i + 1])).Some? then Some(i + 1)
    else FollowingIndex(i + 1, data0, data1)
  }

  /**
   * `findPreceding(i)` over the chart's `data0`/`data1`.  Starting above the
   * end of `data1` its first step reads `data1[i - 1] == undefined`, and
   * `key(undefined)` throws.
   */
  function Preceding(i: nat, data0: seq<Arc>, data1: seq<Arc>): (r: Result<Option<Arc>>)
    ensures r.Err? <==> i > |data1|
  {
    if i > |data1| then Err(TypeError)
    else
      match PrecedingIndex(i, data0, data1)
      case None => Ok(None)
      case Some(j) => Ok(Some(OldArcFor(data0, data1, j)))
  }

  /** `findFollowing(i)` over the chart's `data0`/`data1`; it never reads past `data1`. */
  function Following(i: nat, data0: seq<Arc>, data1: seq<Arc>): (r: Option<Arc>)
    ensures r.Some? ==> r.value in data0 && exists j :: i < j < |data1| && Key(data1[j]) == Key(r.value)
  {
    match FollowingIndex(i, data0, data1)
    case None => None
    case Some(j) => Some(OldArcFor(data0, data1, j))
  }

  /**
   * `findNeighborArc(i)`: a zero-width shape at the end of the preceding
   * match, else at the start of the following match, else `null` (None).
   */
  function NeighborArc(i: nat, data0: seq<Arc>, data1: seq<Arc>): (r: Result<Option<Angles>>)
    ensures r.Err? <==> i > |data1|
    ensures r.Ok? && r.value.Some? ==> r.value.value.startAngle == r.value.value.endAngle
  {
    match Preceding(i, data0, data1)
    case Err(e) => Err(e)
    case Ok(Some(p)) => Ok(Some(Angles(p.endAngle, p.endAngle)))
    case Ok(None) =>
      match Following(i, data0, data1)
      case Some(f) => Ok(Some(Angles(f.startAngle, f.startAngle)))
      case None => Ok(None)
  }

  /**
   * A preceding match wins: when `j` is the largest index below `i` whose
   * key occurs in the old data, and `p` is the first old arc with that key,
   * the neighbour is the zero-width shape at `data0[p]`'s end angle.
   */
  lemma NeighborArcFromPreceding(i: nat, data0: seq<Arc>, data1: seq<Arc>, j: nat, p: nat)
    requires j < i <= |data1| && p < |data0|
    requires Key(data0[p]) == Key(data1[j])
    requires forall q :: 0 <= q < p ==> Key(data0[q]) != Key(data1[j])
    requires forall j' :: j < j' < i ==> !HasKey(data0, Key(data1[j']))
    ensures NeighborArc(i, data0, data1) == Ok(Some(Angles(data0[p].endAngle, data0[p].endAngle)))
  {
    IndexOfKeyAt(data0, Key(data1[j]), p);
    var r := PrecedingIndex(i, data0, data1);
    assert r.Some? && j <= r.value;
    var w := IndexOfKey(data0, Key(data1[r.value])).value;
    assert Key(data0[w]) == Key(data1[r.value]);
    assert r == Some(j);
  }

  /**
   * With no preceding match, the first following match wins: `j` is the
   * smallest index above `i` whose key occurs in the old data, `p` the first
   * old arc with that key, and the neighbour sits at `data0[p]`'s start angle.
   */
  lemma NeighborArcFromFollowing(i: nat, data0: seq<Arc>, data1: seq<Arc>, j: nat, p: nat)
    requires i < j < |data1| && p < |data0|
    requires Key(data0[p]) == Key(data1[j])
    requires forall q :: 0 <= q < p ==> Key(data0[q]) != Key(data1[j])
    requires forall j' :: 0 <= j' < i ==> !HasKey(data0, Key(data1[j']))
    requires forall j' :: i < j' < j ==> !HasKey(data0, Key(data1[j']))
    ensures NeighborArc(i, data0, data1) == Ok(Some(Angles(data0[p].startAngle, data0[p].startAngle)))
  {
    forall j' | 0 <= j' < i
      ensures IndexOfKey(data0, Key(data1[j'])).None?
    {
      IndexOfKeyAbsent(data0, Key(data1[j']));
    }
    assert PrecedingIndex(i, data0, data1).None?;
    IndexOfKeyAt(data0, Key(data1[j]), p);
    var r := FollowingIndex(i, data0, data1);
    assert r.Some? && r.value <= j;
    var w := IndexOfKey(data0, Key(data1[r.value])).value;
    assert Key(data0[w]) == Key(data1[r.value]);
    assert r == Some(j);
  }

  /** When no other new arc's key occurs in the old data, the neighbour is `null`. */
  lemma NeighborArcNone(i: nat, data0: seq<Arc>, data1: seq<Arc>)
    requires i <= |data1|
    requires forall j :: 0 <= j < |data1| && j != i ==> !HasKey(data0, Key(data1[j]))
    ensures NeighborArc(i, data0, data1) == Ok(None)
  {
    forall j | 0 <= j < |data1| && j != i
      ensures IndexOfKey(data0, Key(data1[j])).None?
    {
      IndexOfKeyAbsent(data0, Key(data1[j]));
    }
    assert PrecedingIndex(i, data0, data1).None?;
    assert FollowingIndex(i, data0, data1).None?;
  }

  /**
   * Whatever `findNeighborArc` returns is a zero-width shape placed at an
   * angle of an arc of the OLD data, and it throws exactly when `i` lies
   * above the end of the new data.
   */
  lemma NeighborArcIsCollapsedOldArc(i: nat, data0: seq<Arc>, data1: seq<Arc>)
    ensures NeighborArc(i, data0, data1).Err? <==> i > |data1|
    ensures NeighborArc(i, data0, data1).Ok? && NeighborArc(i, data0, data1).value.Some? ==>
      var a := NeighborArc(i, data0, data1).value.value;
      a.startAngle == a.endAngle &&
      exists p :: 0 <= p < |data0| && (a.startAngle == data0[p].endAngle || a.startAngle == data0[p].startAngle)
  {
    match Preceding(i, data0, data1)
    case Err(_) =>
    case Ok(Some(d)) =>
      var p :| 0 <= p < |data0| && data0[p] == d;
    case Ok(None) =>
      match Following(i, data0, data1)
      case Some(d) =>
        var p :| 0 <= p < |data0| && data0[p] == d;
      case None =>
  }

  /** The state a path is left in once it shows arc `a`. */
  ghost predicate Shows(path: ArcPath, a: Arc, coins: seq<Coin>)
    reads path
  {
    path.datum == a && path.current == AnglesOf(a) && path.fillOpacity == FillOpacity(Key(a), coins)
  }

  /** `chartData.coins.indexOf(d.data.coin) > -1 ? 1 : 0.3`. */
  function FillOpacity(coin: Coin, coins: seq<Coin>): (r: real)
    ensures r == (if coin in coins then 1.0 else 0.3)
  {
    if IndexOf(coins, coin) > -1 then 1.0 else 0.3
  }

  /*
   * The keyed join `vis.path.data(vis.data1, key)`.  An old path is kept when
   * it is the first old path with its key and that key is still in the new
   * data; it is then bound to the first new arc with that key.  Every other
   * old path exits, every other new arc enters.
   */

  /** Old path `j` stays on the page. */
  predicate Kept(data0: seq<Arc>, data1: seq<Arc>, j: nat)
    requires j < |data0|
  {
    IndexOfKey(data0, Key(data0[j])) == Some(j) && IndexOfKey(data1, Key(data0[j])).Some?
  }

  /** New arc `i` is drawn by an old path. */
  predicate Updates(data0: seq<Arc>, data1: seq<Arc>, i: nat)
    requires i < |data1|
  {
    IndexOfKey(data1, Key(data1[i])) == Some(i) && IndexOfKey(data0, Key(data1[i])).Some?
  }

  /** An old path is kept exactly when no earlier old path has its key and some new arc has it. */
  lemma KeptExactly(data0: seq<Arc>, data1: seq<Arc>, j: nat)
    requires j < |data0|
    ensures Kept(data0, data1, j) <==>
      (forall q :: 0 <= q < j ==> Key(data0[q]) != Key(data0[j])) && HasKey(data1, Key(data0[j]))
  {
    IndexOfKeyFirst(data0, Key(data0[j]));
    IndexOfKeyFirst(data1, Key(data0[j]));
    if forall q :: 0 <= q < j ==> Key(data0[q]) != Key(data0[j]) {
      IndexOfKeyAt(data0, Key(data0[j]), j);
    }
  }

  /** A new arc updates exactly when no earlier new arc has its key and some old path has it. */
  lemma UpdatesExactly(data0: seq<Arc>, data1: seq<Arc>, i: nat)
    requires i < |data1|
    ensures Updates(data0, data1, i) <==>
      (forall q :: 0 <= q < i ==> Key(data1[q]) != Key(data1[i])) && HasKey(data0, Key(data1[i]))
  {
    IndexOfKeyFirst(data1, Key(data1[i]));
    IndexOfKeyFirst(data0, Key(data1[i]));
    if forall q :: 0 <= q < i ==> Key(data1[q]) != Key(data1[i]) {
      IndexOfKeyAt(data1, Key(data1[i]), i);
    }
  }

  /** The new arc a kept old path is bound to: one with its key. */
  function MatchOf(data0: seq<Arc>, data1: seq<Arc>, j: nat): (r: nat)
    requires j < |data0| && Kept(data0, data1, j)
    ensures r < |data1| && Key(data1[r]) == Key(data0[j])
  {
    IndexOfKey(data1, Key(data0[j])).value
  }

  /** The old path an updating new arc is bound to: one with its key. */
  function JoinedFrom(data0: seq<Arc>, data1: seq<Arc>, i: nat): (r: nat)
    requires i < |data1| && Updates(data0, data1, i)
    ensures r < |data0| && Key(data0[r]) == Key(data1[i])
  {
    IndexOfKey(data0, Key(data1[i])).value
  }

  /** An updating new arc is bound to a kept old path, which is bound back to it. */
  lemma UpdatedJoinsKept(data0: seq<Arc>, data1: seq<Arc>, i: nat)
    requires i < |data1| && Updates(data0, data1, i)
    ensures JoinedFrom(data0, data1, i) < |data0|
    ensures Kept(data0, data1, JoinedFrom(data0, data1, i))
    ensures MatchOf(data0, data1, JoinedFrom(data0, data1, i)) == i
  {
  }

  /** A kept old path is bound to an updating new arc, which is bound back to it. */
  lemma KeptJoinsUpdated(data0: seq<Arc>, data1: seq<Arc>, j: nat)
    requires j < |data0| && Kept(data0, data1, j)
    ensures MatchOf(data0, data1, j) < |data1|
    ensures Updates(data0, data1, MatchOf(data0, data1, j))
    ensures JoinedFrom(data0, data1, MatchOf(data0, data1, j)) == j
  {
  }

  /**
   * The `_current` an entering path starts from (line 104):
   * `findNeighborArc(i, vis.data0, vis.data1, key) || d`.
   */
  function EnterSeed(i: nat, data0: seq<Arc>, data1: seq<Arc>): (r: Angles)
    requires i < |data1|
    ensures r == AnglesOf(data1[i]) ||
      (r.startAngle == r.endAngle &&
       exists p :: 0 <= p < |data0| && (r.startAngle == data0[p].endAngle || r.startAngle == data0[p].startAngle))
    ensures data0 == [] ==> r == AnglesOf(data1[i])
  {
    NeighborArcIsCollapsedOldArc(i, data0, data1);
    match NeighborArc(i, data0, data1)
    case Ok(Some(a)) => a
    case _ => AnglesOf(data1[i])
  }

  /**
   * The datum an exiting path collapses to (line 85):
   * `findNeighborArc(i, vis.data1, vis.data0, key) || d`, where `i` is the
   * path's old index.  The helpers ignore the swapped arguments, so this is
   * the very search of `EnterSeed`, indexing the new data by an old index.
   */
  function ExitTarget(j: nat, data0: seq<Arc>, data1: seq<Arc>): (r: Result<Angles>)
    requires j < |data0|
    ensures r.Err? <==> j > |data1|
  {
    NeighborArcIsCollapsedOldArc(j, data0, data1);
    match NeighborArc(j, data0, data1)
    case Err(e) => Err(e)
    case Ok(Some(a)) => Ok(a)
    case Ok(None) => Ok(AnglesOf(data0[j]))
  }

  /** On the first render there is no old data, so every path enters growing from its own arc. */
  lemma FirstRenderSeedsOwnArc(data1: seq<Arc>, i: nat)
    requires i < |data1|
    ensures EnterSeed(i, [], data1) == AnglesOf(data1[i])
  {
    NeighborArcNone(i, [], data1);
  }

  /**
   * A leaving path collapses onto a zero-width shape at an angle of the OLD
   * data, or, when no neighbour is found, onto its own old arc.
   */
  lemma ExitCollapsesOntoOldArc(j: nat, data0: seq<Arc>, data1: seq<Arc>)
    requires j < |data0| && ExitTarget(j, data0, data1).Ok?
    ensures
      var a := ExitTarget(j, data0, data1).value;
      a == AnglesOf(data0[j]) ||
      (a.startAngle == a.endAngle &&
       exists p :: 0 <= p < |data0| && (a.startAngle == data0[p].endAngle || a.startAngle == data0[p].startAngle))
  {
    NeighborArcIsCollapsedOldArc(j, data0, data1);
  }

  /** The endpoints of one `d3.interpolate(this._current, d)` run. */
  datatype Tween = Tween(from: Angles, to: Angles)

  /**
   * What one `updateVis` call animates: for each old path its exit tween
   * (None when the join keeps it), and for each new arc its tween.
   */
  datatype Frame = Frame(exits: seq<Option<Tween>>, arcs: seq<Tween>)

  /** Some exiting path's old index lies above the end of the new data. */
  predicate ExitThrows(data0: seq<Arc>, data1: seq<Arc>)
  {
    exists j :: 0 <= j < |data0| && !Kept(data0, data1, j) && j > |data1|
  }

  /** The datum the exit pass gives old path `j`: None when it is kept. */
  function ExitDatum(data0: seq<Arc>, data1: seq<Arc>, j: nat): Option<Angles>
    requires j < |data0| && (!Kept(data0, data1, j) ==> j <= |data1|)
  {
    if Kept(data0, data1, j) then None else Some(ExitTarget(j, data0, data1).value)
  }

  /** The tween of old path `j`: None when kept, else from its `_current` to its exit target. */
  function PlannedExit(data0: seq<Arc>, data1: seq<Arc>, currents: seq<Angles>, j: nat): Option<Tween>
    requires |currents| == |data0| && j < |data0|
    requires !Kept(data0, data1, j) ==> j <= |data1|
  {
    match ExitDatum(data0, data1, j)
    case None => None
    case Some(a) => Some(Tween(currents[j], a))
  }

  /**
   * The tween of new arc `i`: from the `_current` of the old path it joins,
   * or from its enter seed, to the arc itself.
   */
  function PlannedArc(data0: seq<Arc>, data1: seq<Arc>, currents: seq<Angles>, i: nat): Tween
    requires |currents| == |data0| && i < |data1|
  {
    Tween(if Updates(data0, data1, i) then currents[IndexOfKey(data0, Key(data1[i])).value]
          else EnterSeed(i, data0, data1),
          AnglesOf(data1[i]))
  }

  /** Proof step of the enter pass: a new arc that joins no old path tweens in from its enter seed. */
  lemma EnteringArcPlan(data0: seq<Arc>, data1: seq<Arc>, currents: seq<Angles>, i: nat)
    requires |currents| == |data0| && i < |data1| && !Updates(data0, data1, i)
    ensures PlannedArc(data0, data1, currents, i) == Tween(EnterSeed(i, data0, data1), AnglesOf(data1[i]))
  {
  }

  /**
   * The frame `updateVis` runs, given the old paths' data `data0` and their
   * `_current` shapes `currents`; it throws when an exit does.
   */
  function PlannedFrame(data0: seq<Arc>, data1: seq<Arc>, currents: seq<Angles>): (r: Result<Frame>)
    requires |currents| == |data0|
    ensures r.Err? <==> ExitThrows(data0, data1)
    ensures r.Ok? ==> |r.value.exits| == |data0| && |r.value.arcs| == |data1|
  {
    if ExitThrows(data0, data1) then Err(TypeError)
    else
      Ok(Frame(
        seq(|data0|, j requires 0 <= j < |data0| => PlannedExit(data0, data1, currents, j)),
        seq(|data1|, i requires 0 <= i < |data1| => PlannedArc(data0, data1, currents, i))))
  }

  /**
   * Every tween of a frame ends at its new arc.  An updating arc starts
   * from the `_current` of the old path with its key; an entering arc
   * starts from its own shape or from a zero-width shape at an angle of an
   * old arc, and on the first render from its own shape.
   */
  lemma FrameArcsStart(data0: seq<Arc>, data1: seq<Arc>, currents: seq<Angles>)
    requires |currents| == |data0| && PlannedFrame(data0, data1, currents).Ok?
    ensures forall i :: 0 <= i < |data1| ==> PlannedFrame(data0, data1, currents).value.arcs[i].to == AnglesOf(data1[i])
    ensures forall i :: 0 <= i < |data1| && Updates(data0, data1, i) ==>
      exists p :: 0 <= p < |data0| && Key(data0[p]) == Key(data1[i]) &&
        PlannedFrame(data0, data1, currents).value.arcs[i].from == currents[p]
    ensures forall i :: 0 <= i < |data1| && !Updates(data0, data1, i) ==>
      var a := PlannedFrame(data0, data1, currents).value.arcs[i].from;
      a == AnglesOf(data1[i]) ||
      (a.startAngle == a.endAngle &&
       exists p :: 0 <= p < |data0| && (a.startAngle == data0[p].endAngle || a.startAngle == data0[p].startAngle))
    ensures data0 == [] ==> forall i :: 0 <= i < |data1| ==>
      PlannedFrame(data0, data1, currents).value.arcs[i].from == AnglesOf(data1[i])
  {
    var arcs := PlannedFrame(data0, data1, currents).value.arcs;
    forall i | 0 <= i < |data1| && Updates(data0, data1, i)
      ensures exists p :: 0 <= p < |data0| && Key(data0[p]) == Key(data1[i]) && arcs[i].from == currents[p]
    {
      var p := JoinedFrom(data0, data1, i);
      assert arcs[i] == PlannedArc(data0, data1, currents, i);
    }
    forall i | 0 <= i < |data1| && !Updates(data0, data1, i)
      ensures arcs[i].from == EnterSeed(i, data0, data1)
    {
      assert arcs[i] == PlannedArc(data0, data1, currents, i);
    }
  }

  /**
   * The exits of a frame: exactly the old paths the join does not keep
   * tween, each from its `_current` to its own old shape or to a zero-width
   * shape at an angle of an old arc.
   */
  lemma FrameExitsCollapse(data0: seq<Arc>, data1: seq<Arc>, currents: seq<Angles>)
    requires |currents| == |data0| && PlannedFrame(data0, data1, currents).Ok?
    ensures forall j :: 0 <= j < |data0| ==>
      (PlannedFrame(data0, data1, currents).value.exits[j].None? <==> Kept(data0, data1, j))
    ensures forall j :: 0 <= j < |data0| && PlannedFrame(data0, data1, currents).value.exits[j].Some? ==>
      var t := PlannedFrame(data0, data1, currents).value.exits[j].value;
      t.from == currents[j] &&
      (t.to == AnglesOf(data0[j]) ||
       (t.to.startAngle == t.to.endAngle &&
        exists p :: 0 <= p < |data0| && (t.to.startAngle == data0[p].endAngle || t.to.startAngle == data0[p].startAngle)))
  {
    var exits := PlannedFrame(data0, data1, currents).value.exits;
    forall j | 0 <= j < |data0|
      ensures exits[j] == PlannedExit(data0, data1, currents, j)
      ensures exits[j].Some? ==> exits[j].value == Tween(currents[j], ExitTarget(j, data0, data1).value)
    {
      if !Kept(data0, data1, j) {
        ExitCollapsesOntoOldArc(j, data0, data1);
      }
    }
    forall j | 0 <= j < |data0| && !Kept(data0, data1, j)
      ensures var a := ExitTarget(j, data0, data1).value;
        a == AnglesOf(data0[j]) ||
        (a.startAngle == a.endAngle &&
         exists p :: 0 <= p < |data0| && (a.startAngle == data0[p].endAngle || a.startAngle == data0[p].startAngle))
    {
      ExitCollapsesOntoOldArc(j, data0, data1);
    }
  }

  /** Every path's `_current` equals its bound arc: what `arcTween` leaves behind. */
  predicate Settled(data: seq<Arc>, currents: seq<Angles>)
  {
    |data| == |currents| && forall k :: 0 <= k < |data| ==> currents[k] == AnglesOf(data[k])
  }

  /** The keys of `arcs` are pairwise distinct, as the coins of `donutData` are. */
  predicate DistinctKeys(arcs: seq<Arc>)
  {
    forall a, b :: 0 <= a < b < |arcs| ==> Key(arcs[a]) != Key(arcs[b])
  }

  /**
   * The first render animates every arc from its own shape (nothing exits,
   * everything enters, and each seed is the arc itself).
   */
  lemma FirstRenderIsStill(data1: seq<Arc>, currents: seq<Angles>)
    requires |currents| == 0
    ensures PlannedFrame([], data1, currents).Ok?
    ensures forall i :: 0 <= i < |data1| ==>
      PlannedFrame([], data1, currents).value.arcs[i] == Tween(AnglesOf(data1[i]), AnglesOf(data1[i]))
  {
    forall i | 0 <= i < |data1|
      ensures EnterSeed(i, [], data1) == AnglesOf(data1[i])
    {
      FirstRenderSeedsOwnArc(data1, i);
    }
  }

  /**
   * Re-joining settled paths against the data they already show keeps every
   * path and animates nothing: each tween starts where it ends.
   */
  lemma SameDataIsStill(data: seq<Arc>, currents: seq<Angles>)
    requires DistinctKeys(data) && Settled(data, currents)
    ensures PlannedFrame(data, data, currents).Ok?
    ensures forall j :: 0 <= j < |data| ==> PlannedFrame(data, data, currents).value.exits[j].None?
    ensures forall i :: 0 <= i < |data| ==>
      PlannedFrame(data, data, currents).value.arcs[i].from == PlannedFrame(data, data, currents).value.arcs[i].to
  {
    assert forall k :: 0 <= k < |data| ==> IndexOfKey(data, Key(data[k])) == Some(k) by {
      forall k | 0 <= k < |data|
        ensures IndexOfKey(data, Key(data[k])) == Some(k)
      {
        IndexOfKeyAt(data, Key(data[k]), k);
      }
    }
    assert forall k :: 0 <= k < |data| ==> Kept(data, data, k) && Updates(data, data, k);
  }

  /** A `<path>` element of the chart: its bound datum, `_current` and fill-opacity. */
  class ArcPath {
    var datum: Arc
    var current: Angles
    var fillOpacity: real

    /** An entering path: appended, seeded by `.each`, and given its fill-opacity. */
    constructor (d: Arc, seed: Angles, opacity: real)
      ensures datum == d && current == seed && fillOpacity == opacity
    {
      datum, current, fillOpacity := d, seed, opacity;
    }

    /**
     * `arcTween(d)`: interpolate from `_current` to `target`, storing
     * `i(1)`, the target itself, in `_current` at once.
     */
    method ArcTween(target: Angles) returns (t: Tween)
      modifies this
      ensures t == Tween(old(current), target)
      ensures current == target && datum == old(datum) && fillOpacity == old(fillOpacity)
    {
      t := Tween(current, target);
      current := target;
    }

    /** The update pass on a kept path: tween to its new arc and restyle its fill-opacity. */
    method Retween(target: Angles, opacity: real) returns (t: Tween)
      modifies this
      ensures t == Tween(old(current), target)
      ensures current == target && datum == old(datum) && fillOpacity == opacity
    {
      t := ArcTween(target);
      fillOpacity := opacity;
    }
  }

  /** Two tweens in a row: the second starts from the first one's target, not from a midway shape. */
  method RetweenStartsAtTarget(path: ArcPath, a: Angles, b: Angles) returns (first: Tween, second: Tween)
    modifies path
    ensures first == Tween(old(path.current), a) && second == Tween(a, b)
    ensures path.current == b
  {
    first := path.ArcTween(a);
    second := path.ArcTween(b);
  }

  function DataOf(paths: seq<ArcPath>): (r: seq<Arc>)
    reads paths
    ensures |r| == |paths| && forall k :: 0 <= k < |paths| ==> r[k] == paths[k].datum
  {
    if paths == [] then [] else [paths[0].datum] + DataOf(paths[1..])
  }

  function CurrentsOf(paths: seq<ArcPath>): (r: seq<Angles>)
    reads paths
    ensures |r| == |paths| && forall k :: 0 <= k < |paths| ==> r[k] == paths[k].current
  {
    if paths == [] then [] else [paths[0].current] + CurrentsOf(paths[1..])
  }

  class DonutChart {
    /** `vis.data0`: the data of the paths found at the start of `updateVis`. */
    var data0: seq<Arc>
    /** `vis.data1`: the new pie layout. */
    var data1: seq<Arc>
    /** The chart's path elements, in document order. */
    var paths: seq<ArcPath>

    ghost predicate Valid()
      reads this
    {
      forall a, b :: 0 <= a < b < |paths| ==> paths[a] != paths[b]
    }

    constructor ()
      ensures Valid() && data0 == [] && data1 == [] && paths == []
    {
      data0, data1, paths := [], [], [];
    }

    /**
     * `findPreceding(i, data0, data1, key)`: scans `vis.data1` downward from
     * `i`, returning the first old arc joined by the first key it meets.  The
     * `data0`/`data1` arguments are ignored, as in the source.
     */
    method FindPreceding(i: nat, data0: seq<Arc>, data1: seq<Arc>) returns (r: Result<Option<Arc>>)
      ensures r == Preceding(i, this.data0, this.data1)
    {
      var m := |this.data0|;
      var s: nat := i;
      while s > 0
        invariant s <= i
        invariant s < i ==> i <= |this.data1| && PrecedingIndex(i, this.data0, this.data1) == PrecedingIndex(s, this.data0, this.data1)
      {
        s := s - 1;
        if s >= |this.data1| {
          // key(vis.data1[i]) with vis.data1[i] === undefined
          return Err(TypeError);
        }
        var k := Key(this.data1[s]);
        for j := 0 to m
          invariant forall q :: 0 <= q < j ==> Key(this.data0[q]) != k
        {
          if Key(this.data0[j]) == k {
            IndexOfKeyAt(this.data0, k, j);
            return Ok(Some(this.data0[j]));
          }
        }
      }
      return Ok(None);
    }

    /**
     * `findFollowing(i, data0, data1, key)`: scans `vis.data1` upward from
     * `i` in the same way; the arguments are ignored here too.
     */
    method FindFollowing(i: nat, data0: seq<Arc>, data1: seq<Arc>) returns (r: Option<Arc>)
      ensures r == Following(i, this.data0, this.data1)
    {
      var n, m := |this.data1|, |this.data0|;
      var s: nat := i;
      while s + 1 < n
        invariant i <= s
        invariant FollowingIndex(i, this.data0, this.data1) == FollowingIndex(s, this.data0, this.data1)
        decreases n - s
      {
        s := s + 1;
        var k := Key(this.data1[s]);
        for j := 0 to m
          invariant forall q :: 0 <= q < j ==> Key(this.data0[q]) != k
        {
          if Key(this.data0[j]) == k {
            IndexOfKeyAt(this.data0, k, j);
            return Some(this.data0[j]);
          }
        }
      }
      return None;
    }

    /**
     * `findNeighborArc(i, data0, data1, key)`: its result depends on `i` and
     * on the chart's stored `data0`/`data1` only, never on its arguments.
     */
    method FindNeighborArc(i: nat, data0: seq<Arc>, data1: seq<Arc>) returns (r: Result<Option<Angles>>)
      ensures r == NeighborArc(i, this.data0, this.data1)
    {
      var p := FindPreceding(i, this.data0, this.data1);
      match p {
        case Err(e) =>
          return Err(e);
        case Ok(Some(d)) =>
          return Ok(Some(Angles(d.endAngle, d.endAngle)));
        case Ok(None) =>
          var f := FindFollowing(i, this.data0, this.data1);
          match f {
            case Some(d) =>
              return Ok(Some(Angles(d.startAngle, d.startAngle)));
            case None =>
              return Ok(None);
          }
      }
    }
  
    /** The arc old path `k` is bound to after the join at line 80. */
    static function ReboundAt(data0: seq<Arc>, data1: seq<Arc>, k: nat): (r: Arc)
      requires k < |data0|
      ensures Key(r) == Key(data0[k])
      ensures Kept(data0, data1, k) ==> r in data1
      ensures !Kept(data0, data1, k) ==> r == data0[k]
    {
      if Kept(data0, data1, k) then data1[IndexOfKey(data1, Key(data0[k])).value] else data0[k]
    }

    /** The join at line 80: each kept path takes the first new arc with its key. */
    method Rebind()
      requires Valid() && |paths| == |data0| && forall k :: 0 <= k < |paths| ==> paths[k].datum == data0[k]
      modifies paths
      ensures forall k {:trigger ReboundAt(data0, data1, k)} :: 0 <= k < |paths| ==>
        paths[k].datum == ReboundAt(data0, data1, k)
      ensures forall k :: 0 <= k < |paths| ==>
        paths[k].current == old(paths[k].current) && paths[k].fillOpacity == old(paths[k].fillOpacity)
    {
      for j := 0 to |paths|
        invariant forall k :: 0 <= k < |paths| ==>
          paths[k].current == old(paths[k].current) && paths[k].fillOpacity == old(paths[k].fillOpacity)
        invariant forall k {:trigger ReboundAt(data0, data1, k)} :: 0 <= k < j ==>
          paths[k].datum == ReboundAt(data0, data1, k)
        invariant forall k :: j <= k < |paths| ==> paths[k].datum == data0[k]
      {
        if Kept(data0, data1, j) {
          paths[j].datum := data1[IndexOfKey(data1, Key(data0[j])).value];
        }
      }
    }

    /**
     * The exit `.datum` pass at lines 83-86: every leaving path's new datum,
     * `findNeighborArc(i, vis.data1, vis.data0, key) || d`, in old order;
     * it throws at the first leaving path whose search throws.
     */
    method ExitTargets() returns (r: Result<seq<Option<Angles>>>)
      ensures r.Err? <==> ExitThrows(data0, data1)
      ensures r.Ok? ==> |r.value| == |data0| && forall k :: 0 <= k < |data0| ==> !Kept(data0, data1, k) ==> k <= |data1|
      ensures r.Ok? ==> forall k {:trigger ExitDatum(data0, data1, k)} :: 0 <= k < |data0| ==>
        r.value[k] == ExitDatum(data0, data1, k)
    {
      var targets: seq<Option<Angles>> := [];
      for j := 0 to |data0|
        invariant |targets| == j
        invariant forall k :: 0 <= k < j ==> !Kept(data0, data1, k) ==> k <= |data1|
        invariant forall k {:trigger ExitDatum(data0, data1, k)} :: 0 <= k < j ==>
          targets[k] == ExitDatum(data0, data1, k)
      {
        if Kept(data0, data1, j) {
          targets := targets + [None];
        } else {
          var hit := FindNeighborArc(j, this.data1, this.data0);
          if hit.Err? {
            return Err(hit.error);
          }
          targets := targets + [Some(hit.value.GetOr(AnglesOf(data0[j])))];
        }
      }
      return Ok(targets);
    }

    /** The exit transitions: each leaving path tweens to its target. */
    method TweenExits(targets: seq<Option<Angles>>) returns (exits: seq<Option<Tween>>)
      requires Valid() && |targets| == |paths|
      modifies paths
      ensures |exits| == |paths|
      ensures forall k :: 0 <= k < |paths| ==>
        exits[k] == (if targets[k].Some? then Some(Tween(old(paths[k].current), targets[k].value)) else None) &&
        paths[k].current == (if targets[k].Some? then targets[k].value else old(paths[k].current)) &&
        paths[k].datum == old(paths[k].datum) && paths[k].fillOpacity == old(paths[k].fillOpacity)
    {
      exits := [];
      for j := 0 to |paths|
        invariant |exits| == j
        invariant forall k :: 0 <= k < j ==>
          exits[k] == if targets[k].Some? then Some(Tween(old(paths[k].current), targets[k].value)) else None
        invariant forall k :: 0 <= k < |paths| ==>
          paths[k].current == (if k < j && targets[k].Some? then targets[k].value else old(paths[k].current)) &&
          paths[k].datum == old(paths[k].datum) && paths[k].fillOpacity == old(paths[k].fillOpacity)
      {
        if targets[j].Some? {
          var t := paths[j].ArcTween(targets[j].value);
          exits := exits + [Some(t)];
        } else {
          exits := exits + [None];
        }
      }
    }

    /**
     * The state after the update and enter passes have handled new arcs
     * `0..i-1`: their tweens are the planned ones, their paths show them, an
     * updating arc reuses the old path it joins, the paths are distinct, and
     * every kept old path still waiting for its arc is untouched.
     */
    ghost predicate Tweened(i: nat, coins: seq<Coin>, currents: seq<Angles>, plan: seq<Tween>,
                            arcs: seq<Tween>, next: seq<ArcPath>)
      reads this, paths, next
    {
      i <= |data1| && |plan| == |data1| && |paths| == |data0| == |currents| &&
      arcs == plan[..i] && |next| == i &&
      (forall q :: 0 <= q < i ==> Shows(next[q], data1[q], coins)) &&
      (forall q :: 0 <= q < i && Updates(data0, data1, q) ==> next[q] == paths[JoinedFrom(data0, data1, q)]) &&
      (forall a, b :: 0 <= a < b < i ==> next[a] != next[b]) &&
      (forall k :: 0 <= k < |paths| && Kept(data0, data1, k) && i <= MatchOf(data0, data1, k) ==>
        paths[k].current == currents[k] && paths[k].datum == ReboundAt(data0, data1, k) &&
        forall q :: 0 <= q < i ==> next[q] != paths[k])
    }

    /** The fact the plan holds: entry `q` is the tween of new arc `q`. */
    ghost predicate Plans(currents: seq<Angles>, plan: seq<Tween>)
      reads this
    {
      |currents| == |data0| && |plan| == |data1| &&
      forall q {:trigger PlannedArc(data0, data1, currents, q)} :: 0 <= q < |data1| ==>
        plan[q] == PlannedArc(data0, data1, currents, q)
    }

    /** The update pass on new arc `i`: its old path tweens from `_current` to it. */
    method UpdateArc(i: nat, coins: seq<Coin>, ghost currents: seq<Angles>, ghost plan: seq<Tween>,
                     arcs: seq<Tween>, next: seq<ArcPath>) returns (arcs': seq<Tween>, next': seq<ArcPath>)
      requires Valid() && Plans(currents, plan)
      requires i < |data1| && Updates(data0, data1, i)
      requires Tweened(i, coins, currents, plan, arcs, next)
      modifies paths
      ensures Tweened(i + 1, coins, currents, plan, arcs', next')
      ensures next' == next + [paths[JoinedFrom(data0, data1, i)]]
    {
      var p := JoinedFrom(data0, data1, i);
      UpdatedJoinsKept(data0, data1, i);
      var node := paths[p];
      assert forall q :: 0 <= q < i ==> next[q] != node;
      var t := node.Retween(AnglesOf(data1[i]), FillOpacity(Key(data1[i]), coins));
      forall q | 0 <= q < i
        ensures Shows(next[q], data1[q], coins)
      {
        assert next[q] != node;
      }
      assert t == PlannedArc(data0, data1, currents, i) == plan[i];
      forall k | 0 <= k < |paths| && Kept(data0, data1, k) && i + 1 <= MatchOf(data0, data1, k)
        ensures paths[k] != node
      {
        assert k != p;
      }
      PrefixExtend(plan, i);
      arcs', next' := arcs + [t], next + [node];
    }

    /** An entering path for new arc `i`, seeded by its neighbour; it tweens in. */
    method EnterArc(i: nat, coins: seq<Coin>) returns (node: ArcPath, t: Tween)
      requires i < |data1|
      ensures fresh(node)
      ensures node.datum == data1[i] && node.current == AnglesOf(data1[i])
      ensures node.fillOpacity == FillOpacity(Key(data1[i]), coins)
      ensures t == Tween(EnterSeed(i, data0, data1), AnglesOf(data1[i]))
    {
      var hit := FindNeighborArc(i, data0, data1);
      var seed := if hit.Ok? && hit.value.Some? then hit.value.value else AnglesOf(data1[i]);
      node := new ArcPath(data1[i], seed, FillOpacity(Key(data1[i]), coins));
      t := node.ArcTween(AnglesOf(data1[i]));
    }

    /** The enter pass on new arc `i`: a fresh path tweens in from its seed. */
    method EnterStep(i: nat, coins: seq<Coin>, ghost currents: seq<Angles>, ghost plan: seq<Tween>,
                     arcs: seq<Tween>, next: seq<ArcPath>) returns (arcs': seq<Tween>, next': seq<ArcPath>)
      requires Plans(currents, plan)
      requires i < |data1| && !Updates(data0, data1, i)
      requires Tweened(i, coins, currents, plan, arcs, next)
      ensures Tweened(i + 1, coins, currents, plan, arcs', next')
      ensures |next'| == i + 1 && next' == next + [next'[i]] && fresh(next'[i])
    {
      var node, t := EnterArc(i, coins);
      assert forall q :: 0 <= q < i ==> Shows(next[q], data1[q], coins);
      EnteringArcPlan(data0, data1, currents, i);
      assert t == plan[i];
      PrefixExtend(plan, i);
      arcs', next' := arcs + [t], next + [node];
    }

    /**
     * The update and enter passes (lines 88-115): every new arc is drawn by
     * the path of the old arc it joins, or by a new path, tweening to it.
     * The result lists the paths in new-data order.
     */
    method TweenArcs(coins: seq<Coin>, ghost currents: seq<Angles>, ghost plan: seq<Tween>, ghost joined: seq<bool>)
      returns (arcs: seq<Tween>, next: seq<ArcPath>)
      requires Valid() && |paths| == |data0| && Plans(currents, plan)
      requires |joined| == |data1| && forall q {:trigger Updates(data0, data1, q)} :: 0 <= q < |data1| ==>
        joined[q] == Updates(data0, data1, q)
      requires forall k :: 0 <= k < |paths| && Kept(data0, data1, k) ==>
        paths[k].current == currents[k] && paths[k].datum == ReboundAt(data0, data1, k)
      modifies paths
      ensures arcs == plan && |next| == |data1|
      ensures forall q :: 0 <= q < |data1| ==> Shows(next[q], data1[q], coins)
      ensures forall q :: 0 <= q < |data1| ==>
        if Updates(data0, data1, q) then next[q] == paths[JoinedFrom(data0, data1, q)] else fresh(next[q])
      ensures forall a, b :: 0 <= a < b < |data1| ==> next[a] != next[b]
    {
      arcs, next := [], [];
      for i := 0 to |data1|
        invariant Tweened(i, coins, currents, plan, arcs, next)
        invariant forall q :: 0 <= q < i && !joined[q] ==> fresh(next[q])
      {
        if Updates(data0, data1, i) {
          arcs, next := UpdateArc(i, coins, currents, plan, arcs, next);
        } else {
          arcs, next := EnterStep(i, coins, currents, plan, arcs, next);
        }
      }
    }

    /** Lines 77-80: store the old and new arcs and bind the new arcs to the paths by key. */
    method Join(layout: seq<Arc>)
      requires Valid()
      modifies this, paths
      ensures Valid() && paths == old(paths)
      ensures data0 == old(DataOf(paths)) && data1 == layout
      ensures forall k {:trigger ReboundAt(data0, data1, k)} :: 0 <= k < |paths| ==>
        paths[k].datum == ReboundAt(data0, data1, k)
      ensures forall k :: 0 <= k < |paths| ==>
        paths[k].current == old(paths[k].current) && paths[k].fillOpacity == old(paths[k].fillOpacity)
      ensures CurrentsOf(paths) == old(CurrentsOf(paths))
    {
      data0 := DataOf(paths);
      data1 := layout;
      Rebind();
    }

    /**
     * Lines 82-115 once every exit target exists: the exit, update and
     * enter passes, after which only the paths of the new arcs remain.
     */
    method Animate(coins: seq<Coin>, targets: seq<Option<Angles>>, ghost currents: seq<Angles>)
      returns (f: Frame)
      requires Valid() && |paths| == |data0| == |currents| && !ExitThrows(data0, data1)
      requires |targets| == |data0| && forall k :: 0 <= k < |data0| ==> !Kept(data0, data1, k) ==> k <= |data1|
      requires forall k {:trigger ExitDatum(data0, data1, k)} :: 0 <= k < |data0| ==>
        targets[k] == ExitDatum(data0, data1, k)
      requires forall k {:trigger ReboundAt(data0, data1, k)} :: 0 <= k < |paths| ==>
        paths[k].datum == ReboundAt(data0, data1, k)
      requires forall k :: 0 <= k < |paths| ==> paths[k].current == currents[k]
      modifies this, paths
      ensures data0 == old(data0) && data1 == old(data1)
      ensures Ok(f) == PlannedFrame(data0, data1, currents)
      ensures Valid() && |paths| == |data1|
      ensures forall i :: 0 <= i < |data1| ==> Shows(paths[i], data1[i], coins)
      ensures forall i :: 0 <= i < |data1| ==>
        if Updates(data0, data1, i) then paths[i] == old(paths)[JoinedFrom(data0, data1, i)]
        else fresh(paths[i])
    {
      assert forall k :: 0 <= k < |paths| && Kept(data0, data1, k) ==> targets[k] == ExitDatum(data0, data1, k) == None;
      var exits := TweenExits(targets);
      ghost var plan := PlannedFrame(data0, data1, currents).value.arcs;
      ghost var d0, d1 := data0, data1;
      ghost var joined := seq(|d1|, q requires 0 <= q < |d1| => Updates(d0, d1, q));
      var arcs, next := TweenArcs(coins, currents, plan, joined);
      assert exits == PlannedFrame(data0, data1, currents).value.exits;
      paths := next;
      f := Frame(exits, arcs);
    }

    /**
     * Lines 82-115 after the join: the exit targets, then the passes; the
     * first missing exit target throws before any path changes.
     */
    method Transition(coins: seq<Coin>, ghost currents: seq<Angles>) returns (r: Result<Frame>)
      requires Valid() && |paths| == |data0| == |currents|
      requires forall k {:trigger ReboundAt(data0, data1, k)} :: 0 <= k < |paths| ==>
        paths[k].datum == ReboundAt(data0, data1, k)
      requires forall k :: 0 <= k < |paths| ==> paths[k].current == currents[k]
      modifies this, paths
      ensures data0 == old(data0) && data1 == old(data1)
      ensures r == PlannedFrame(data0, data1, currents)
      ensures r.Err? ==> paths == old(paths) && forall k :: 0 <= k < |paths| ==> paths[k].current == currents[k]
      ensures r.Err? ==> forall k :: 0 <= k < |paths| ==> paths[k].fillOpacity == old(paths[k].fillOpacity)
      ensures r.Err? ==> forall k {:trigger ReboundAt(data0, data1, k)} :: 0 <= k < |paths| ==>
        paths[k].datum == ReboundAt(data0, data1, k)
      ensures r.Ok? ==> Valid() && |paths| == |data1|
      ensures r.Ok? ==> forall i :: 0 <= i < |data1| ==> Shows(paths[i], data1[i], coins)
      ensures r.Ok? ==> forall i :: 0 <= i < |data1| ==>
        if Updates(data0, data1, i) then paths[i] == old(paths)[JoinedFrom(data0, data1, i)]
        else fresh(paths[i])
    {
      var targets := ExitTargets();
      if targets.Err? {
        return Err(targets.error);
      }
      var f := Animate(coins, targets.value, currents);
      r := Ok(f);
    }

    /**
     * `updateVis(chartData)` with `layout == vis.pie(chartData.donutData)`:
     * stores `data0`/`data1`, joins by key, runs the exit, update and enter
     * passes, and removes the exiting paths.  A missing exit target
     * throws before any transition starts.
     */
    method UpdateVis(layout: seq<Arc>, coins: seq<Coin>) returns (r: Result<Frame>)
      requires Valid()
      modifies this, paths
      ensures data0 == old(DataOf(paths)) && data1 == layout
      ensures r == PlannedFrame(data0, data1, old(CurrentsOf(paths)))
      ensures r.Err? ==> paths == old(paths)
      ensures r.Err? ==> forall k :: 0 <= k < |paths| ==> paths[k].current == old(CurrentsOf(paths))[k]
      ensures r.Err? ==> forall k :: 0 <= k < |paths| ==> paths[k].fillOpacity == old(paths[k].fillOpacity)
      ensures r.Err? ==> forall k {:trigger ReboundAt(data0, data1, k)} :: 0 <= k < |paths| ==>
        paths[k].datum == ReboundAt(data0, data1, k)
      ensures r.Ok? ==> Valid() && |paths| == |layout|
      ensures r.Ok? ==> forall i :: 0 <= i < |layout| ==> Shows(paths[i], layout[i], coins)
      ensures r.Ok? ==> forall i :: 0 <= i < |layout| ==>
        if Updates(data0, data1, i) then paths[i] == old(paths)[JoinedFrom(data0, data1, i)]
        else fresh(paths[i])
    {
      ghost var currents := CurrentsOf(paths);
      Join(layout);
      r := Transition(coins, currents);
    }
  }
}
