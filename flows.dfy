/** The two Kotlin flow operators the core relies on, over finite
    sequences of emitted values: `scan` and `distinctUntilChanged`. */
module Flows {
  import opened Types

  /** `scan(init, step)`: emits `init`, then every intermediate fold result. */
  function Scan<S, I>(step: (S, I) -> S, init: S, inputs: seq<I>): (r: seq<S>)
    ensures |r| == |inputs| + 1
    ensures r[0] == init
    ensures forall i {:trigger inputs[i]} :: 0 <= i < |inputs| ==> r[i + 1] == step(r[i], inputs[i])
    decreases |inputs|
  {
    if inputs == [] then [init]
    else [init] + Scan(step, step(init, inputs[0]), inputs[1..])
  }

  /** `distinctUntilChanged` continued after having emitted `last`: a value
      is passed on exactly when it differs from the last one passed on. */
  function DistinctFrom<T(==)>(last: Option<T>, s: seq<T>): (r: seq<T>)
    ensures |r| <= |s|
    ensures forall i :: 0 <= i < |r| ==> r[i] in s
    ensures forall j :: 0 <= j < |s| ==> s[j] in r || last == Some(s[j])
    ensures forall i :: 0 <= i < |r| - 1 ==> r[i] != r[i + 1]
    ensures r != [] && last.Some? ==> r[0] != last.value
    ensures s != [] ==> LastOr(r, OrElse(last, s[0])) == s[|s| - 1]
    decreases |s|
  {
    if s == [] then []
    else if last == Some(s[0]) then DistinctFrom(last, s[1..])
    else [s[0]] + DistinctFrom(Some(s[0]), s[1..])
  }

  /** `distinctUntilChanged` from the start of a flow. */
  function DistinctUntilChanged<T(==)>(s: seq<T>): (r: seq<T>)
    ensures s == [] <==> r == []
    ensures s != [] ==> r[0] == s[0] && r[|r| - 1] == s[|s| - 1]
    ensures forall i :: 0 <= i < |r| - 1 ==> r[i] != r[i + 1]
    ensures forall i :: 0 <= i < |r| ==> r[i] in s
    ensures forall j :: 0 <= j < |s| ==> s[j] in r
  {
    DistinctFrom(None, s)
  }

  /** One more input: it is passed on exactly when it differs from the input
      before it (or, for the first input, from `last`); what was already
      passed on stays as it was, in order. */
  lemma {:induction false} DistinctFromSnoc<T>(last: Option<T>, s: seq<T>, x: T)
    ensures var previous := if s == [] then last else Some(s[|s| - 1]);
            DistinctFrom(last, s + [x]) == DistinctFrom(last, s) + (if previous == Some(x) then [] else [x])
    decreases |s|
  {
    if s == [] {
      assert [x][1..] == [];
    } else {
      var rest := s[1..];
      var next := if last == Some(s[0]) then last else Some(s[0]);
      var head := if last == Some(s[0]) then [] else [s[0]];
      var previous := Some(s[|s| - 1]);
      var tail := if previous == Some(x) then [] else [x];
      SplitSnoc(s, x);
      assert (if rest == [] then next else Some(rest[|rest| - 1])) == previous;
      DistinctFromSnoc(next, rest, x);
      var before := DistinctFrom(next, rest);
      var after := DistinctFrom(next, rest + [x]);
      DistinctFromCons(last, s[0], rest);
      DistinctFromCons(last, s[0], rest + [x]);
      PrefixThenTail(DistinctFrom(last, s), DistinctFrom(last, s + [x]), head, before, after, tail);
    }
  }

  lemma PrefixThenTail<T>(whole: seq<T>, longer: seq<T>, head: seq<T>, before: seq<T>, after: seq<T>, tail: seq<T>)
    requires whole == head + before && longer == head + after && after == before + tail
    ensures longer == whole + tail
  {
  }

  lemma SplitSnoc<T>(s: seq<T>, x: T)
    requires s != []
    ensures s == [s[0]] + s[1..]
    ensures s + [x] == [s[0]] + (s[1..] + [x])
    ensures s[1..] != [] ==> s[1..][|s[1..]| - 1] == s[|s| - 1]
  {
  }

  /** `DistinctFrom` unfolded once, naming the value last passed on. */
  lemma DistinctFromCons<T>(last: Option<T>, y: T, rest: seq<T>)
    ensures var next := if last == Some(y) then last else Some(y);
            DistinctFrom(last, [y] + rest) == (if last == Some(y) then [] else [y]) + DistinctFrom(next, rest)
  {
    assert ([y] + rest)[0] == y;
    assert ([y] + rest)[1..] == rest;
  }

  /** `distinctUntilChanged` drops exactly the values equal to the value
      just before them in the input: it is determined input by input. */
  lemma DistinctUntilChangedSnoc<T>(s: seq<T>, x: T)
    ensures DistinctUntilChanged(s + [x])
            == DistinctUntilChanged(s) + (if s != [] && s[|s| - 1] == x then [] else [x])
  {
    DistinctFromSnoc(None, s, x);
  }

  /** If consecutive inputs are equal or related by `R`, then consecutive
      outputs of `distinctUntilChanged` are related by `R`. */
  lemma {:induction false} DistinctKeepsSteps<T>(R: (T, T) -> bool, last: Option<T>, s: seq<T>)
    requires forall i :: 0 <= i < |s| - 1 ==> s[i] == s[i + 1] || R(s[i], s[i + 1])
    requires last.Some? && s != [] ==> last.value == s[0] || R(last.value, s[0])
    ensures var r := DistinctFrom(last, s);
            && (forall i :: 0 <= i < |r| - 1 ==> R(r[i], r[i + 1]))
            && (last.Some? && r != [] ==> R(last.value, r[0]))
    decreases |s|
  {
    if s == [] {
    } else if last == Some(s[0]) {
      DistinctKeepsSteps(R, last, s[1..]);
    } else {
      DistinctKeepsSteps(R, Some(s[0]), s[1..]);
      var r' := DistinctFrom(Some(s[0]), s[1..]);
      assert DistinctFrom(last, s) == [s[0]] + r';
    }
  }
}
