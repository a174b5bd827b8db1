/** Order-preserving filters and sums over session lists, shared by the list
    reducers (Kotlin `filter` and `sumOf`). */
module SessionLists {
  import opened Wrappers
  import opened ScoreFilters
  import opened SessionEntities

  /** `r` is `s` with some elements dropped and the rest kept in order. */
  predicate IsSubsequence<T(==)>(r: seq<T>, s: seq<T>)
    decreases |s|
  {
    if r == [] then true
    else if s == [] then false
    else if r[0] == s[0] then IsSubsequence(r[1..], s[1..])
    else IsSubsequence(r, s[1..])
  }

  /** Every list is a subsequence of itself. */
  lemma {:induction false} SubsequenceOfItself<T>(s: seq<T>)
    ensures IsSubsequence(s, s)
    decreases |s|
  {
    if s != [] {
      SubsequenceOfItself(s[1..]);
    }
  }

  /** Kotlin `filter`: the elements of `s` that `keep` accepts, in order. */
  function Filter<T(==,!new)>(s: seq<T>, keep: T -> bool): (r: seq<T>)
    ensures |r| <= |s|
    ensures forall x :: x in r <==> x in s && keep(x)
    ensures IsSubsequence(r, s)
    ensures (forall i :: 0 <= i < |s| ==> keep(s[i])) ==> r == s
  {
    if s == [] then []
    else if keep(s[0]) then [s[0]] + Filter(s[1..], keep)
    else Filter(s[1..], keep)
  }

  /** Filtering a list with one more element at the end filters the list,
      then keeps or drops that element. */
  lemma {:induction false} FilterAppendOne<T(!new)>(s: seq<T>, x: T, keep: T -> bool)
    ensures Filter(s + [x], keep) == Filter(s, keep) + (if keep(x) then [x] else [])
    decreases |s|
  {
    if s == [] {
      assert s + [x] == [x];
      assert [x][1..] == [];
    } else {
      assert (s + [x])[1..] == s[1..] + [x];
      FilterAppendOne(s[1..], x, keep);
    }
  }

  /** No two elements of `s` share a key. */
  ghost predicate KeysDistinct<T>(s: seq<T>, key: T -> int) {
    forall i, j :: 0 <= i < j < |s| ==> key(s[i]) != key(s[j])
  }

  /** Filtering keeps pairwise distinct keys pairwise distinct. */
  lemma {:induction false} FilterKeepsKeysDistinct<T(!new)>(s: seq<T>, key: T -> int, keep: T -> bool)
    requires KeysDistinct(s, key)
    ensures KeysDistinct(Filter(s, keep), key)
    decreases |s|
  {
    if s != [] {
      var tail := s[1..];
      assert KeysDistinct(tail, key) by {
        assert forall i :: 0 <= i < |tail| ==> tail[i] == s[i + 1];
      }
      FilterKeepsKeysDistinct(tail, key, keep);
      var rest := Filter(tail, keep);
      forall x | x in rest
        ensures key(x) != key(s[0])
      {
        var k :| 0 <= k < |tail| && tail[k] == x;
        assert s[k + 1] == x;
      }
      if keep(s[0]) {
        var r := [s[0]] + rest;
        assert Filter(s, keep) == r;
        forall i, j | 0 <= i < j < |r|
          ensures key(r[i]) != key(r[j])
        {
          if i == 0 {
            assert r[j] == rest[j - 1];
            assert r[j] in rest;
          } else {
            assert r[i] == rest[i - 1] && r[j] == rest[j - 1];
          }
        }
      } else {
        assert Filter(s, keep) == rest;
      }
    }
  }

  /** The sessions carrying `tagId`. */
  function WithTag(sessions: seq<SessionEntity>, tagId: int): seq<SessionEntity> {
    Filter(sessions, (s: SessionEntity) => s.tagId == tagId)
  }

  /** The tag filter of the list screens: every session when nothing is
      selected, else the sessions of the selected tag. */
  function ByOptionalTag(sessions: seq<SessionEntity>, selected: Option<int>): (r: seq<SessionEntity>)
    ensures selected.None? ==> r == sessions
    ensures selected.Some? ==> forall s :: s in r <==> s in sessions && s.tagId == selected.value
    ensures IsSubsequence(r, sessions)
  {
    match selected
    case None => SubsequenceOfItself(sessions); sessions
    case Some(id) => WithTag(sessions, id)
  }

  /** The sessions inside the score window `f` at `nowMs`. */
  function InWindow(sessions: seq<SessionEntity>, nowMs: int, f: ScoreFilter): (r: seq<SessionEntity>)
    ensures forall s :: s in r <==> s in sessions && IsInScoreWindow(s, nowMs, f)
    ensures IsSubsequence(r, sessions)
    ensures f == AllTime ==> r == sessions
  {
    Filter(sessions, (s: SessionEntity) => IsInScoreWindow(s, nowMs, f))
  }

  /** `sumOf { it.durationMs }` */
  function TotalDuration(sessions: seq<SessionEntity>): int {
    if sessions == [] then 0 else sessions[0].durationMs + TotalDuration(sessions[1..])
  }

  /** The summed duration is additive over concatenation. */
  lemma {:induction false} TotalDurationAdditive(a: seq<SessionEntity>, b: seq<SessionEntity>)
    ensures TotalDuration(a + b) == TotalDuration(a) + TotalDuration(b)
  {
    if a == [] {
      assert a + b == b;
    } else {
      assert (a + b)[1..] == a[1..] + b;
      TotalDurationAdditive(a[1..], b);
    }
  }

  /** With non-negative durations, dropping sessions never raises the total. */
  lemma {:induction false} SubsequenceDurationBounded(r: seq<SessionEntity>, s: seq<SessionEntity>)
    requires IsSubsequence(r, s)
    requires forall i :: 0 <= i < |s| ==> s[i].durationMs >= 0
    ensures 0 <= TotalDuration(r) <= TotalDuration(s)
    decreases |s|
  {
    if r == [] {
      NonNegativeDuration(s);
    } else if r[0] == s[0] {
      SubsequenceDurationBounded(r[1..], s[1..]);
    } else {
      SubsequenceDurationBounded(r, s[1..]);
    }
  }

  /** A list of non-negative durations sums to a non-negative total. */
  lemma {:induction false} NonNegativeDuration(s: seq<SessionEntity>)
    requires forall i :: 0 <= i < |s| ==> s[i].durationMs >= 0
    ensures TotalDuration(s) >= 0
  {
    if s != [] {
      NonNegativeDuration(s[1..]);
    }
  }
}
