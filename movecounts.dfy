/**
 The `moveCounts` map of the game: how often the player has chosen each
 move. It starts empty; a move becomes a key only once it has been played.
 */
module MoveCounts {
  import opened Moves

  datatype Option<T> = None | Some(value: T)

  type Counts = map<Move, nat>

  /** `moveCounts.getOrDefault(m, 0)`. */
  function Get(counts: Counts, m: Move): nat {
    if m in counts then counts[m] else 0
  }

  /** Sum of the counts of all three moves. */
  function Total(counts: Counts): nat {
    Get(counts, Rock) + Get(counts, Paper) + Get(counts, Scissors)
  }

  /** `moveCounts.put(m, moveCounts.getOrDefault(m, 0) + 1)`. */
  function Record(counts: Counts, m: Move): (r: Counts)
    ensures Get(r, m) == Get(counts, m) + 1
    ensures forall k :: k != m ==> Get(r, k) == Get(counts, k)
    ensures r.Keys == counts.Keys + {m}
    ensures Total(r) == Total(counts) + 1
  {
    var r := counts[m := Get(counts, m) + 1];
    assert m == Rock || m == Paper || m == Scissors;
    r
  }

  /**
   An iteration order of the map's entries, as a `HashMap` yields them:
   every key exactly once, in an order the model does not fix.
   */
  predicate IsIterationOrder(counts: Counts, order: seq<Move>) {
    && (forall m :: m in order <==> m in counts)
    && (forall i, j :: 0 <= i < j < |order| ==> order[i] != order[j])
  }

  /**
   The left fold behind `Stream.max(comparingByValue())` over the entries
   listed in `order`: it keeps the earlier entry when two counts are equal,
   as `BinaryOperator.maxBy` does.
   */
  function MaxFold(counts: Counts, order: seq<Move>): (r: Option<Move>)
    requires forall m :: m in order ==> m in counts
    ensures r.None? <==> order == []
    ensures r.Some? ==> r.value in order
    ensures r.Some? ==> forall k :: k in order ==> counts[k] <= counts[r.value]
    ensures r.Some? ==> exists j :: 0 <= j < |order| && order[j] == r.value
                                    && forall i :: 0 <= i < j ==> counts[order[i]] < counts[r.value]
    decreases |order|
  {
    if order == [] then None
    else
      var prefix, last := order[..|order| - 1], order[|order| - 1];
      assert order == prefix + [last];
      match MaxFold(counts, prefix)
      case None => Some(last)
      case Some(best) => if counts[best] >= counts[last] then Some(best) else Some(last)
  }

  /** The fold behind `Stream.min(comparingByValue())`, keeping the earlier entry on equal counts. */
  function MinFold(counts: Counts, order: seq<Move>): (r: Option<Move>)
    requires forall m :: m in order ==> m in counts
    ensures r.None? <==> order == []
    ensures r.Some? ==> r.value in order
    ensures r.Some? ==> forall k :: k in order ==> counts[r.value] <= counts[k]
    ensures r.Some? ==> exists j :: 0 <= j < |order| && order[j] == r.value
                                    && forall i :: 0 <= i < j ==> counts[r.value] < counts[order[i]]
    decreases |order|
  {
    if order == [] then None
    else
      var prefix, last := order[..|order| - 1], order[|order| - 1];
      assert order == prefix + [last];
      match MinFold(counts, prefix)
      case None => Some(last)
      case Some(best) => if counts[best] <= counts[last] then Some(best) else Some(last)
  }

  /**
   `moveCounts.entrySet().stream().max(comparingByValue()).map(getKey)`,
   with `order` the map's iteration order: empty exactly for an empty
   map, otherwise a key of greatest count, the first such key in `order`.
   */
  function MaxEntry(counts: Counts, order: seq<Move>): (r: Option<Move>)
    requires IsIterationOrder(counts, order)
    ensures r.None? <==> counts == map[]
    ensures r.Some? ==> r.value in counts && forall k :: k in counts ==> counts[k] <= counts[r.value]
    ensures r.Some? ==> exists j :: 0 <= j < |order| && order[j] == r.value
                                    && forall i :: 0 <= i < j ==> counts[order[i]] < counts[r.value]
  {
    NonEmptyOrder(counts, order);
    MaxFold(counts, order)
  }

  /**
   `moveCounts.entrySet().stream().min(comparingByValue()).map(getKey)`:
   empty exactly for an empty map, otherwise a key of least count, the
   first such key in `order`.
   */
  function MinEntry(counts: Counts, order: seq<Move>): (r: Option<Move>)
    requires IsIterationOrder(counts, order)
    ensures r.None? <==> counts == map[]
    ensures r.Some? ==> r.value in counts && forall k :: k in counts ==> counts[r.value] <= counts[k]
    ensures r.Some? ==> exists j :: 0 <= j < |order| && order[j] == r.value
                                    && forall i :: 0 <= i < j ==> counts[r.value] < counts[order[i]]
  {
    NonEmptyOrder(counts, order);
    MinFold(counts, order)
  }

  /** An iteration order is empty exactly when the map is. */
  lemma NonEmptyOrder(counts: Counts, order: seq<Move>)
    requires IsIterationOrder(counts, order)
    ensures order == [] <==> counts == map[]
  {
    if counts != map[] {
      var k :| k in counts;
      assert k in order;
    }
    if order != [] {
      assert order[0] in counts;
    }
  }
}
