/** The connection-state store: a `BehaviorRelay` created with a default value
    (replay of the latest value to every new subscriber), optionally viewed
    through `distinctUntilChanged`. The relay is a class whose ghost `log`
    records every value it has held; what a subscriber receives is a pure
    function of that log. */
module ConnectionStore {
  import opened PsiphonStates

  function Last<T>(s: seq<T>): T
    requires s != []
  {
    s[|s| - 1]
  }

  /** No two consecutive elements are equal. */
  predicate NoAdjacentDuplicates(s: seq<PsiphonState>) {
    forall i :: 0 < i < |s| ==> s[i - 1] != s[i]
  }

  /** `distinctUntilChanged` after it has last emitted `prev`: an element is
      emitted exactly when it differs from the last emitted one. */
  function DistinctFrom(prev: PsiphonState, s: seq<PsiphonState>): (r: seq<PsiphonState>)
    ensures |r| <= |s|
    ensures Last([prev] + r) == Last([prev] + s)
    decreases |s|
  {
    if s == [] then []
    else if s[0] == prev then DistinctFrom(prev, s[1..])
    else [s[0]] + DistinctFrom(s[0], s[1..])
  }

  /** After `prev`, de-duplication never emits two equal values in a row. */
  lemma {:induction false} DistinctFromNoRepeats(prev: PsiphonState, s: seq<PsiphonState>)
    ensures NoAdjacentDuplicates([prev] + DistinctFrom(prev, s))
    decreases |s|
  {
    if s != [] {
      if s[0] == prev {
        DistinctFromNoRepeats(prev, s[1..]);
      } else {
        var rest := DistinctFrom(s[0], s[1..]);
        DistinctFromNoRepeats(s[0], s[1..]);
        assert ([prev] + ([s[0]] + rest))[1..] == [s[0]] + rest;
      }
    }
  }

  /** De-duplication drops only repeats: every value it emits comes from the
      stream, and every value of the stream is emitted unless it is the one
      emitted last before. */
  lemma {:induction false} DistinctFromKeepsValues(prev: PsiphonState, s: seq<PsiphonState>)
    ensures forall x :: x in DistinctFrom(prev, s) ==> x in s
    ensures forall x :: x in s ==> x in DistinctFrom(prev, s) || x == prev
    decreases |s|
  {
    if s != [] {
      assert s == [s[0]] + s[1..];
      if s[0] == prev {
        DistinctFromKeepsValues(prev, s[1..]);
      } else {
        DistinctFromKeepsValues(s[0], s[1..]);
      }
    }
  }

  /** `distinctUntilChanged` applied to a whole stream: its first element is
      always emitted, then every element that differs from the last emitted. */
  function Distinct(s: seq<PsiphonState>): (r: seq<PsiphonState>)
    ensures |r| <= |s|
    ensures s != [] ==> r != [] && r[0] == s[0] && Last(r) == Last(s)
    ensures NoAdjacentDuplicates(r)
    ensures forall x :: x in r <==> x in s
  {
    if s == [] then []
    else
      var rest := DistinctFrom(s[0], s[1..]);
      assert [s[0]] + s[1..] == s;
      DistinctFromKeepsValues(s[0], s[1..]);
      DistinctFromNoRepeats(s[0], s[1..]);
      [s[0]] + rest
  }

  /** Publishing one more value: it is delivered exactly when it differs from
      the value delivered last (de-duplication by value, no coalescing). */
  lemma {:induction false} DistinctFromSnoc(prev: PsiphonState, s: seq<PsiphonState>, x: PsiphonState)
    ensures DistinctFrom(prev, s + [x])
         == DistinctFrom(prev, s) + (if Last([prev] + s) == x then [] else [x])
    decreases |s|
  {
    if s != [] {
      var t := s[1..];
      assert (s + [x])[0] == s[0] && (s + [x])[1..] == t + [x];
      assert Last([prev] + s) == Last([s[0]] + t) by { assert [s[0]] + t == s; }
      if s[0] == prev {
        DistinctFromSnoc(prev, t, x);
      } else {
        DistinctFromSnoc(s[0], t, x);
      }
    }
  }

  /** The tail of a duplicate-free stream is duplicate-free and does not
      start with the stream's head. */
  lemma TailDuplicateFree(s: seq<PsiphonState>)
    requires s != [] && NoAdjacentDuplicates(s)
    ensures NoAdjacentDuplicates(s[1..])
    ensures |s| > 1 ==> s[1..][0] != s[0]
  {
    var tail := s[1..];
    forall i | 0 < i < |tail| ensures tail[i - 1] != tail[i] {
      assert tail[i - 1] == s[i] && tail[i] == s[i + 1];
    }
  }

  /** A stream that already has no repeated consecutive values passes
      through `distinctUntilChanged` unchanged: no distinct transition is lost
      and none is reordered. */
  lemma {:induction false} DistinctFromOfDuplicateFree(prev: PsiphonState, s: seq<PsiphonState>)
    requires s != [] ==> s[0] != prev
    requires NoAdjacentDuplicates(s)
    ensures DistinctFrom(prev, s) == s
    decreases |s|
  {
    if s != [] {
      TailDuplicateFree(s);
      calc {
        DistinctFrom(prev, s);
        [s[0]] + DistinctFrom(s[0], s[1..]);
        { DistinctFromOfDuplicateFree(s[0], s[1..]); }
        [s[0]] + s[1..];
        s;
      }
    }
  }

  lemma DistinctOfDuplicateFree(s: seq<PsiphonState>)
    requires NoAdjacentDuplicates(s)
    ensures Distinct(s) == s
  {
    if s != [] {
      TailDuplicateFree(s);
      DistinctFromOfDuplicateFree(s[0], s[1..]);
      assert [s[0]] + s[1..] == s;
    }
  }

  /** De-duplicating twice is de-duplicating once. */
  lemma DistinctIdempotent(s: seq<PsiphonState>)
    ensures Distinct(Distinct(s)) == Distinct(s)
  {
    DistinctOfDuplicateFree(Distinct(s));
  }

  /** What a subscriber receives from the bare relay when it registers while
      `log[at]` is the current value: that value, then every later one. */
  function Replay(log: seq<PsiphonState>, at: nat): (r: seq<PsiphonState>)
    requires at < |log|
    ensures r != [] && r[0] == log[at] && Last(r) == Last(log)
    ensures |r| == |log| - at
  {
    log[at..]
  }

  /** A subscriber of the de-duplicated view first receives the value current
      at its registration, and never two equal values in a row. */
  lemma DistinctSubscriberStartsWithCurrent(log: seq<PsiphonState>, at: nat)
    requires at < |log|
    ensures Distinct(Replay(log, at)) != []
    ensures Distinct(Replay(log, at))[0] == log[at]
    ensures NoAdjacentDuplicates(Distinct(Replay(log, at)))
  {
  }

  /** One more `accept` on the relay extends what a registered subscriber of
      the de-duplicated view receives by the new value exactly when it differs
      from the current one. */
  lemma {:induction false} PublishDelivery(log: seq<PsiphonState>, at: nat, x: PsiphonState)
    requires at < |log|
    ensures Distinct(Replay(log + [x], at))
         == Distinct(Replay(log, at)) + (if Last(log) == x then [] else [x])
  {
    var s := log[at..];
    var t := (log + [x])[at..];
    assert t == s + [x];
    assert t[0] == s[0];
    assert t[1..] == s[1..] + [x];
    assert Last([s[0]] + s[1..]) == Last(log) by {
      assert [s[0]] + s[1..] == s;
    }
    DistinctFromSnoc(s[0], s[1..], x);
    assert Distinct(t) == [t[0]] + DistinctFrom(t[0], t[1..]);
    assert Distinct(s) == [s[0]] + DistinctFrom(s[0], s[1..]);
  }

  /** A `BehaviorRelay<PsiphonState>`: `value` is what `getValue` returns and
      what a new subscriber receives first; `log` is every value it has held,
      from its default on. */
  class StateRelay {
    var value: PsiphonState
    ghost var log: seq<PsiphonState>

    ghost predicate Valid()
      reads this
    {
      |log| > 0 && value == Last(log)
    }

    /** `BehaviorRelay.createDefault(initial)`. */
    constructor CreateDefault(initial: PsiphonState)
      ensures Valid() && value == initial && log == [initial]
    {
      value := initial;
      log := [initial];
    }

    /** `accept(v)`: every value is recorded, equal or not. */
    method Accept(v: PsiphonState)
      requires Valid()
      modifies this
      ensures Valid() && value == v && log == old(log) + [v]
    {
      value := v;
      log := log + [v];
    }
  }
}
