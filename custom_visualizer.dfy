/** The colour iterator of the custom visualizer example: `clamped_or` yields the given values,
    then repeats the last one forever (or a fallback forever when there are none), and the
    visualizer pairs it, position by position, with the instance positions. */
module CustomVisualizer {

  /** The state of `values.iter().chain(repeat(repeated))` after `consumed` elements. */
  datatype ClampedIter<T> = ClampedIter(values: seq<T>, consumed: nat, repeated: T)

  /** `clamped_or(values, ifEmpty)`: yields the values in order, then the last value forever, or
      `ifEmpty` forever when there are no values. */
  function ClampedOr<T>(values: seq<T>, ifEmpty: T): (it: ClampedIter<T>)
    ensures forall i: nat ::
              Nth(it, i) == if i < |values| then values[i] else if values != [] then values[|values| - 1] else ifEmpty
  {
    var it := ClampedIter(values, 0, if values == [] then ifEmpty else values[|values| - 1]);
    NthSkipsAll(it);
    it
  }

  /** One call of `next`: the chain never ends, so there is always an element. */
  function Next<T>(it: ClampedIter<T>): (T, ClampedIter<T>)
  {
    var item := if it.consumed < |it.values| then it.values[it.consumed] else it.repeated;
    (item, it.(consumed := it.consumed + 1))
  }

  /** The element the iterator yields after `i` calls of `next`. */
  function Nth<T>(it: ClampedIter<T>, i: nat): T
    decreases i
  {
    if i == 0 then Next(it).0 else Nth(Next(it).1, i - 1)
  }

  /** `positions.iter().zip(colors).enumerate()`: one triple per position, stopping when the
      positions run out; the colours are drawn from the iterator in step. */
  function ZipEnumerate<P, T>(positions: seq<P>, colors: ClampedIter<T>, index: nat): (r: seq<(nat, P, T)>)
    decreases |positions|
  {
    if positions == [] then []
    else
      var (color, rest) := Next(colors);
      [(index, positions[0], color)] + ZipEnumerate(positions[1..], rest, index + 1)
  }

  // ---------------------------------------------------------------------------------------------
  // Lemmas
  // ---------------------------------------------------------------------------------------------

  /** Skipping ahead: the `i`-th element is the value at position `consumed + i` while values
      remain, and the repeated element after that. */
  lemma {:induction false} NthSkips<T>(it: ClampedIter<T>, i: nat)
    ensures Nth(it, i) ==
      if it.consumed + i < |it.values| then it.values[it.consumed + i] else it.repeated
    decreases i
  {
    if i > 0 {
      NthSkips(Next(it).1, i - 1);
    }
  }

  /** `NthSkips` for every position at once. */
  lemma NthSkipsAll<T>(it: ClampedIter<T>)
    ensures forall i: nat ::
              Nth(it, i) == if it.consumed + i < |it.values| then it.values[it.consumed + i] else it.repeated
  {
    forall i: nat
      ensures Nth(it, i) == if it.consumed + i < |it.values| then it.values[it.consumed + i] else it.repeated
    {
      NthSkips(it, i);
    }
  }

  /** The zip ends with the positions: one triple per position, numbered from `index`, pairing
      the `k`-th position with the iterator's `k`-th element. */
  lemma {:induction false} ZipEnumerateIndexed<P, T>(positions: seq<P>, colors: ClampedIter<T>, index: nat)
    ensures |ZipEnumerate(positions, colors, index)| == |positions|
    ensures forall k :: 0 <= k < |positions| ==>
      ZipEnumerate(positions, colors, index)[k] == (index + k, positions[k], Nth(colors, k))
    decreases |positions|
  {
    if positions != [] {
      var rest := Next(colors).1;
      ZipEnumerateIndexed(positions[1..], rest, index + 1);
      var r := ZipEnumerate(positions, colors, index);
      forall k | 0 <= k < |positions|
        ensures r[k] == (index + k, positions[k], Nth(colors, k))
      {
        if k > 0 {
          assert r[k] == ZipEnumerate(positions[1..], rest, index + 1)[k - 1];
        }
      }
    }
  }

  /** Instance `k` of a chunk gets index `k`, the `k`-th position and the `k`-th colour, which is
      the `k`-th colour of the chunk, else its last colour, else the fallback colour. */
  lemma InstanceColors<P, T>(positions: seq<P>, colors: seq<T>, fallback: T)
    ensures |ZipEnumerate(positions, ClampedOr(colors, fallback), 0)| == |positions|
    ensures forall k :: 0 <= k < |positions| ==>
      var (index, position, color) := ZipEnumerate(positions, ClampedOr(colors, fallback), 0)[k];
      && index == k
      && position == positions[k]
      && color == (if k < |colors| then colors[k] else if colors != [] then colors[|colors| - 1] else fallback)
  {
    ZipEnumerateIndexed(positions, ClampedOr(colors, fallback), 0);
  }
}
