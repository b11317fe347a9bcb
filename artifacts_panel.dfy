/**
 * The artifacts panel: which artifacts it lists (those of the current
 * session, or all of them when the current thread has no session), the
 * newest-first order it sorts them into in place, and the set of expanded
 * cards.
 */
module ArtifactsPanelView {
  import opened ChatTypes
  import opened ChatStore

  /** `id` flipped in or out of `expanded`. */
  function Toggled(expanded: set<string>, id: string): (r: set<string>)
    ensures id in r <==> id !in expanded
    ensures forall x :: x != id ==> (x in r <==> x in expanded)
  {
    if id in expanded then expanded - {id} else expanded + {id}
  }

  /** Toggling a card twice leaves the expanded set as it was. */
  lemma ToggleTwice(expanded: set<string>, id: string)
    ensures Toggled(Toggled(expanded, id), id) == expanded
  {
    var once := Toggled(expanded, id);
    var twice := Toggled(once, id);
    assert forall x :: x in twice <==> x in expanded;
  }

  /** Toggling different cards commutes. */
  lemma ToggleCommutes(expanded: set<string>, a: string, b: string)
    ensures Toggled(Toggled(expanded, a), b) == Toggled(Toggled(expanded, b), a)
  {
    var ab := Toggled(Toggled(expanded, a), b);
    var ba := Toggled(Toggled(expanded, b), a);
    assert forall x :: x in ab <==> x in ba;
  }

  /** The artifacts of session `sessionId`. */
  function OfSession(artifacts: seq<Artifact>, sessionId: string): (r: seq<Artifact>)
    ensures |r| <= |artifacts|
    ensures forall a :: multiset(r)[a] == if a.sessionId == sessionId then multiset(artifacts)[a] else 0
    decreases |artifacts|
  {
    if artifacts == [] then []
    else
      var rest := OfSession(artifacts[1..], sessionId);
      assert artifacts == [artifacts[0]] + artifacts[1..];
      if artifacts[0].sessionId == sessionId then [artifacts[0]] + rest else rest
  }

  /** What the panel lists, before sorting: filtered by session only when there is a session id. */
  function SessionArtifacts(artifacts: seq<Artifact>, sessionId: Option<string>): seq<Artifact>
  {
    if Truthy(sessionId) then OfSession(artifacts, sessionId.value) else artifacts
  }

  /** Every listed artifact belongs to the session, and every artifact of the session is listed. */
  lemma SessionArtifactsExact(artifacts: seq<Artifact>, sessionId: Option<string>)
    ensures Truthy(sessionId) ==>
              forall a :: a in SessionArtifacts(artifacts, sessionId) <==> a in artifacts && a.sessionId == sessionId.value
    ensures !Truthy(sessionId) ==> SessionArtifacts(artifacts, sessionId) == artifacts
  {
    if Truthy(sessionId) {
      var r := SessionArtifacts(artifacts, sessionId);
      forall a ensures a in r <==> a in artifacts && a.sessionId == sessionId.value {
        assert a in r <==> multiset(r)[a] > 0;
        assert a in artifacts <==> multiset(artifacts)[a] > 0;
      }
    }
  }

  ghost predicate NewestFirst(s: seq<Artifact>)
  {
    forall p, q :: 0 <= p < q < |s| ==> s[p].timestamp >= s[q].timestamp
  }

  /**
   * The artifact events of `es`, dispatched from `s`, follow the clock: each
   * added artifact is no older than the newest one already listed, and each
   * wholesale replacement is itself newest first.
   */
  ghost predicate ClockOrdered(s: AppState, es: seq<Event>)
    decreases |es|
  {
    es == [] ||
    ((es[0].AddArtifact? ==> s.artifacts == [] || es[0].artifact.timestamp >= s.artifacts[0].timestamp) &&
     (es[0].SetArtifacts? ==> NewestFirst(es[0].allArtifacts)) &&
     ClockOrdered(Apply(s, es[0]), es[1..]))
  }

  /**
   * The store's own artifact list stays newest first while its events follow
   * the clock, so the panel's sort finds it already in order.
   */
  lemma {:induction false} StoreKeepsNewestFirst(s: AppState, es: seq<Event>)
    requires NewestFirst(s.artifacts) && ClockOrdered(s, es)
    ensures NewestFirst(ApplyAll(s, es).artifacts)
    decreases |es|
  {
    if es != [] {
      var s1 := Apply(s, es[0]);
      if es[0].AddArtifact? {
        var r := s1.artifacts;
        assert r == [es[0].artifact] + s.artifacts;
        forall p, q | 0 <= p < q < |r| ensures r[p].timestamp >= r[q].timestamp {
          if p > 0 {
            assert r[p] == s.artifacts[p - 1] && r[q] == s.artifacts[q - 1];
          } else {
            assert r[q] == s.artifacts[q - 1];
          }
        }
      }
      StoreKeepsNewestFirst(s1, es[1..]);
    }
  }

  /**
   * The panel's `sort`, newest first, in place: insertion by adjacent swaps.
   * The result is a reordering of the input, and an input already newest
   * first is left exactly as it was.
   */
  method SortNewestFirst(a: array<Artifact>)
    modifies a
    ensures NewestFirst(a[..])
    ensures multiset(a[..]) == multiset(old(a[..]))
    ensures NewestFirst(old(a[..])) ==> a[..] == old(a[..])
  {
    var i := 0;
    while i < a.Length
      invariant 0 <= i <= a.Length
      invariant NewestFirst(a[..i])
      invariant multiset(a[..]) == multiset(old(a[..]))
      invariant NewestFirst(old(a[..])) ==> a[..] == old(a[..])
    {
      if 0 < i && NewestFirst(old(a[..])) {
        assert old(a[..])[i - 1] == a[i - 1] && old(a[..])[i] == a[i];
      }
      Insert(a, i);
      i := i + 1;
    }
    assert a[..a.Length] == a[..];
  }

  /** Moves `a[i]` left past every older artifact, extending the sorted prefix by one. */
  method Insert(a: array<Artifact>, i: int)
    requires 0 <= i < a.Length
    requires NewestFirst(a[..i])
    modifies a
    ensures NewestFirst(a[..i + 1])
    ensures multiset(a[..]) == multiset(old(a[..]))
    ensures i == 0 || old(a[i - 1]).timestamp >= old(a[i]).timestamp ==> a[..] == old(a[..])
  {
    var j := i;
    while j > 0 && a[j - 1].timestamp < a[j].timestamp
      invariant 0 <= j <= i
      invariant forall p, q :: 0 <= p < q <= i && p != j && q != j ==> a[p].timestamp >= a[q].timestamp
      invariant forall q :: j < q <= i ==> a[j].timestamp >= a[q].timestamp
      invariant multiset(a[..]) == multiset(old(a[..]))
      invariant j < i ==> 0 < i && old(a[i - 1]).timestamp < old(a[i]).timestamp
      invariant j == i ==> a[..] == old(a[..])
    {
      Swap(a, j - 1, j);
      j := j - 1;
    }
  }

  method Swap(a: array<Artifact>, i: int, j: int)
    requires 0 <= i < a.Length && 0 <= j < a.Length
    modifies a
    ensures a[..] == old(a[..])[i := old(a[j])][j := old(a[i])]
    ensures multiset(a[..]) == multiset(old(a[..]))
  {
    a[i], a[j] := a[j], a[i];
  }

  /** What the panel shows: an empty-state notice, or a list with its item count. */
  datatype PanelView = EmptyState | Listing(count: nat)

  function ViewOf(shown: seq<Artifact>): (v: PanelView)
    ensures v.EmptyState? <==> shown == []
    ensures v.Listing? ==> v.count == |shown|
  {
    if |shown| == 0 then EmptyState else Listing(|shown|)
  }

  class ArtifactsPanel {
    /** The ids of the expanded cards. */
    var expanded: set<string>

    constructor()
      ensures expanded == {}
    {
      expanded := {};
    }

    /** `toggleExpanded`: copy the set, flip the id in the copy, store the copy. */
    method ToggleExpanded(artifactId: string)
      modifies this
      ensures expanded == Toggled(old(expanded), artifactId)
    {
      var newExpanded := expanded;
      if artifactId in newExpanded {
        newExpanded := newExpanded - {artifactId};
      } else {
        newExpanded := newExpanded + {artifactId};
      }
      expanded := newExpanded;
    }

    /**
     * The list the panel renders. With a session id, a fresh filtered array
     * is sorted; without one, the sort reorders the caller's own array.
     * Either way the list is the session's artifacts, newest first, and the
     * view is empty exactly when that list is.
     */
    method Arrange(artifacts: array<Artifact>, sessionId: Option<string>) returns (shown: array<Artifact>, view: PanelView)
      modifies artifacts
      ensures Truthy(sessionId) ==> fresh(shown) && artifacts[..] == old(artifacts[..])
      ensures !Truthy(sessionId) ==> shown == artifacts
      ensures !Truthy(sessionId) && NewestFirst(old(artifacts[..])) ==> artifacts[..] == old(artifacts[..])
      ensures multiset(shown[..]) == multiset(SessionArtifacts(old(artifacts[..]), sessionId))
      ensures NewestFirst(shown[..])
      ensures view == ViewOf(SessionArtifacts(old(artifacts[..]), sessionId))
    {
      if Truthy(sessionId) {
        var filtered := OfSession(artifacts[..], sessionId.value);
        shown := new Artifact[|filtered|](k requires 0 <= k < |filtered| => filtered[k]);
        assert shown[..] == filtered;
      } else {
        shown := artifacts;
      }
      SortNewestFirst(shown);
      view := if shown.Length == 0 then EmptyState else Listing(shown.Length);
      assert |shown[..]| == |multiset(shown[..])|;
    }
  }
}
