/** The two list helpers of app/helpers/reducer-helpers.ts that every status
    reducer builds on. */
module ReducerHelpers {
  import opened Lists
  import opened JsString

  /** No value occurs twice. */
  predicate NoDuplicates<T(==)>(s: seq<T>)
  {
    forall i, j :: 0 <= i < j < |s| ==> s[i] != s[j]
  }

  /** `safeUpdateState(states, newState)`: appends `newState` unless it is already present. */
  function SafeUpdateState<T(==)>(states: seq<T>, newState: T): (r: seq<T>)
    ensures newState in r
    ensures states <= r && |r| <= |states| + 1
    ensures r == states <==> newState in states
    ensures forall i :: 0 <= i < |r| ==> r[i] in states || r[i] == newState
  {
    if newState in states then states else states + [newState]
  }

  /** Adding the same state twice is adding it once. */
  lemma SafeUpdateStateIdempotent<T>(states: seq<T>, newState: T)
    ensures SafeUpdateState(SafeUpdateState(states, newState), newState) == SafeUpdateState(states, newState)
  {
  }

  /** A list without duplicates stays without duplicates. */
  lemma SafeUpdateStateKeepsNoDuplicates<T>(states: seq<T>, newState: T)
    requires NoDuplicates(states)
    ensures NoDuplicates(SafeUpdateState(states, newState))
  {
    var r := SafeUpdateState(states, newState);
    forall i, j | 0 <= i < j < |r| ensures r[i] != r[j] {
      if j == |states| {
        assert r[j] == newState && r[i] == states[i];
      }
    }
  }

  /** JavaScript's `a || b` on strings: `a` when it is non-empty (truthy), else `b`. */
  function Or(a: string, b: string): string
  {
    if a != "" then a else b
  }

  /** The text `removeLoadingState` searches for: `FETCHING_` followed by the part of
      `newState` before its first `_`. The `|| ..._ERROR` alternative of the source is
      never chosen because its first operand is never empty. */
  function LoadingMarker(newState: string): (m: string)
    ensures m == "FETCHING_" + Split(newState, "_")[0]
  {
    var typeToRemove := Split(newState, "_")[0];
    Or("FETCHING_" + typeToRemove, typeToRemove + "_ERROR")
  }

  /** `removeLoadingState(states, newState)`: keeps the states that do not contain the marker. */
  function RemoveLoadingState(states: seq<string>, newState: string): (r: seq<string>)
    ensures IsSubsequence(r, states)
    ensures forall i :: 0 <= i < |r| ==> !Includes(r[i], LoadingMarker(newState))
    ensures forall i :: 0 <= i < |states| && !Includes(states[i], LoadingMarker(newState)) ==> states[i] in r
    ensures forall s :: multiset(r)[s] == if Includes(s, LoadingMarker(newState)) then 0 else multiset(states)[s]
  {
    var marker := LoadingMarker(newState);
    var r := Filter(states, s => !Includes(s, marker));
    FilterIsSubsequence(states, s => !Includes(s, marker));
    forall s ensures multiset(r)[s] == if Includes(s, marker) then 0 else multiset(states)[s] {
      FilterCount(states, s => !Includes(s, marker), s);
    }
    r
  }

  /** Removing the loading states twice removes nothing more. */
  lemma RemoveLoadingStateIdempotent(states: seq<string>, newState: string)
    ensures RemoveLoadingState(RemoveLoadingState(states, newState), newState) == RemoveLoadingState(states, newState)
  {
    var marker := LoadingMarker(newState);
    FilterIdempotent(states, s => !Includes(s, marker));
  }

  /** A state that does not mention `FETCHING_` at all (every `*_FETCHED` and `*_ERROR`
      state) is never removed. */
  lemma RemoveLoadingStateKeepsNonLoading(states: seq<string>, newState: string, s: string)
    requires s in states && !Includes(s, "FETCHING_")
    ensures s in RemoveLoadingState(states, newState)
  {
    var marker := LoadingMarker(newState);
    assert marker[..9] == "FETCHING_";
    forall j: nat | OccursAt(s, marker, j) ensures OccursAt(s, "FETCHING_", j) {
      assert s[j..j + |marker|][..9] == s[j..j + 9];
    }
    IndexOfLeftmost(s, "FETCHING_");
    assert !Includes(s, marker);
  }

  /** Filtering keeps a list free of duplicates. */
  lemma {:induction false} FilterKeepsNoDuplicates<T>(s: seq<T>, p: T -> bool)
    requires NoDuplicates(s)
    ensures NoDuplicates(Filter(s, p))
  {
    if s != [] {
      var tail := Filter(s[1..], p);
      FilterKeepsNoDuplicates(s[1..], p);
      if p(s[0]) {
        var r := Filter(s, p);
        assert r == [s[0]] + tail;
        forall i, j | 0 <= i < j < |r| ensures r[i] != r[j] {
          if i == 0 {
            assert r[j] == tail[j - 1] && tail[j - 1] in s[1..];
          } else {
            assert r[i] == tail[i - 1] && r[j] == tail[j - 1];
          }
        }
      }
    }
  }

  /** Every string includes itself. */
  lemma IncludesItself(s: string)
    ensures Includes(s, s)
  {
    assert s[..|s|] == s;
  }

  /** A string shorter than `sub` does not include it. */
  lemma ShortNotIncluded(s: string, sub: string)
    requires |s| < |sub|
    ensures !Includes(s, sub)
  {
  }

  /** For a state type made of a kind without `_` and an optional `_...` suffix, the
      loading marker is `FETCHING_` followed by the kind. */
  lemma LoadingMarkerOfKind(kind: string, suffix: string)
    requires '_' !in kind
    requires suffix == "" || suffix[0] == '_'
    ensures LoadingMarker(kind + suffix) == "FETCHING_" + kind
  {
    var s := kind + suffix;
    FirstPiece(s, '_');
    var p := Split(s, "_")[0];
    assert "_" == ['_'];
    if suffix != "" {
      assert s[|kind|] == '_';
    }
    assert forall i :: 0 <= i < |p| ==> p[i] == s[i];
    assert |p| == |kind|;
    assert p == s[..|p|] == kind;
  }

  /** A settled status list: the loading marker for `removeKey` removed, then
      `newState` added once, as every `*_FETCHED` and `*_ERROR` case does. */
  function MarkSettled(states: seq<string>, removeKey: string, newState: string): seq<string>
  {
    SafeUpdateState(RemoveLoadingState(states, removeKey), newState)
  }

  /** `r` is `states` settled for kind `kind` with state `newState`: `newState` is
      present, no `FETCHING_<kind>` entry is left, every other state keeps its count,
      and a list free of duplicates stays so. */
  ghost predicate SettledFrom(r: seq<string>, states: seq<string>, kind: string, newState: string)
  {
    && newState in r
    && (forall i :: 0 <= i < |r| ==> !Includes(r[i], "FETCHING_" + kind))
    && (forall x :: x != newState && !Includes(x, "FETCHING_" + kind) ==> multiset(r)[x] == multiset(states)[x])
    && (NoDuplicates(states) ==> NoDuplicates(r))
  }

  /** Settling a kind without `_`, by a state type that is the kind itself or the kind
      followed by `_...`, with a recorded state shorter than the marker. */
  lemma MarkSettledFacts(states: seq<string>, kind: string, suffix: string, newState: string)
    requires '_' !in kind
    requires suffix == "" || suffix[0] == '_'
    requires |newState| < |"FETCHING_" + kind|
    ensures SettledFrom(MarkSettled(states, kind + suffix, newState), states, kind, newState)
  {
    LoadingMarkerOfKind(kind, suffix);
    ShortNotIncluded(newState, "FETCHING_" + kind);
    var removed := RemoveLoadingState(states, kind + suffix);
    assert multiset(removed)[newState] == multiset(states)[newState];
    if NoDuplicates(states) {
      FilterKeepsNoDuplicates(states, s => !Includes(s, "FETCHING_" + kind));
      SafeUpdateStateKeepsNoDuplicates(removed, newState);
    }
  }
}
