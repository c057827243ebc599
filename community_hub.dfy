/** components/CommunityHub.tsx: the optimistic like toggle and the scenario sort. */
module CommunityHub {
  import opened Wrappers
  import opened Types

  /** A shared scenario. `likes` is `None` when missing or not a number (`NaN`). */
  datatype CommunityScenario = CommunityScenario(
    scenario: Scenario,
    authorId: string,
    authorName: string,
    downloads: int,
    likes: Option<int>,
    likedBy: Option<seq<string>>)

  datatype SortBy = Newest | Popular

  /** The error shown when a visitor who is not signed in presses like. */
  datatype HubError = LoginToLike

  /** `likedBy?.includes(uid) || false`. */
  predicate Liked(s: CommunityScenario, uid: string) {
    s.likedBy.Some? && uid in s.likedBy.value
  }

  /** `uids.filter(u => u !== uid)`. */
  function RemoveAll(uids: seq<string>, uid: string): (r: seq<string>)
    ensures forall u :: u in r <==> u in uids && u != uid
  {
    if uids == [] then []
    else (if uids[0] != uid then [uids[0]] else []) + RemoveAll(uids[1..], uid)
  }

  lemma {:induction false} RemoveAllAbsent(uids: seq<string>, uid: string)
    requires uid !in uids
    ensures RemoveAll(uids, uid) == uids
  {
    if uids != [] {
      RemoveAllAbsent(uids[1..], uid);
    }
  }

  lemma {:induction false} RemoveAllAppend(a: seq<string>, b: seq<string>, uid: string)
    ensures RemoveAll(a + b, uid) == RemoveAll(a, uid) + RemoveAll(b, uid)
  {
    if a == [] {
      assert a + b == b;
    } else {
      assert (a + b)[1..] == a[1..] + b;
      RemoveAllAppend(a[1..], b, uid);
    }
  }

  /** `likes + (isLiked ? -1 : 1)`: a missing count stays `NaN`. */
  function AddLike(likes: Option<int>, delta: int): Option<int> {
    if likes.Some? then Some(likes.value + delta) else None
  }

  /** The entry after the toggle, for a click computed with `isLiked`. */
  function Toggled(s: CommunityScenario, uid: string, isLiked: bool): (r: CommunityScenario)
    ensures r.scenario == s.scenario && r.authorId == s.authorId && r.authorName == s.authorName && r.downloads == s.downloads
    ensures isLiked ==> (r.likes == AddLike(s.likes, -1) && !Liked(r, uid)
      && (s.likedBy.Some? ==> r.likedBy == Some(RemoveAll(s.likedBy.value, uid))))
    ensures !isLiked ==> r.likes == AddLike(s.likes, 1) && Liked(r, uid) && r.likedBy == Some(s.likedBy.GetOr([]) + [uid])
  {
    if isLiked then
      s.(likes := AddLike(s.likes, -1), likedBy := if s.likedBy.Some? then Some(RemoveAll(s.likedBy.value, uid)) else None)
    else
      s.(likes := AddLike(s.likes, 1), likedBy := Some(s.likedBy.GetOr([]) + [uid]))
  }

  /** `handleLike`: the new list, or the sign-in error with the list untouched.
      Whether the click likes or unlikes is read from the clicked card. */
  function HandleLike(user: Option<string>, clicked: CommunityScenario, list: seq<CommunityScenario>)
    : (r: Result<seq<CommunityScenario>, HubError>)
    ensures user.None? <==> r == Err(LoginToLike)
    ensures r.Ok? ==> |r.value| == |list|
    ensures r.Ok? ==> forall i :: 0 <= i < |list| && list[i].scenario.id != clicked.scenario.id ==> r.value[i] == list[i]
    ensures r.Ok? ==> forall i :: 0 <= i < |list| && list[i].scenario.id == clicked.scenario.id ==>
      r.value[i] == Toggled(list[i], user.value, Liked(clicked, user.value))
  {
    if user.None? then Err(LoginToLike)
    else
      var isLiked := Liked(clicked, user.value);
      Ok(seq(|list|, i requires 0 <= i < |list| =>
        if list[i].scenario.id == clicked.scenario.id then Toggled(list[i], user.value, isLiked) else list[i]))
  }

  /** Liking and then unliking the same card restores the count and the uid's absence
      (and the list itself, when one was stored). */
  lemma LikeThenUnlike(s: CommunityScenario, uid: string)
    requires !Liked(s, uid)
    ensures var back := Toggled(Toggled(s, uid, false), uid, true);
      back.likes == s.likes && !Liked(back, uid) && (s.likedBy.Some? ==> back.likedBy == s.likedBy)
  {
    var liked := Toggled(s, uid, false);
    var before := s.likedBy.GetOr([]);
    assert liked.likedBy == Some(before + [uid]);
    RemoveAllAppend(before, [uid], uid);
    assert RemoveAll([uid], uid) == [] + RemoveAll([], uid);
    RemoveAllAbsent(before, uid);
    assert RemoveAll(before + [uid], uid) == before;
  }

  /** The sort key `likes || 0`. */
  function Key(s: CommunityScenario): int {
    if s.likes.Some? then s.likes.value else 0
  }

  predicate ByLikesDescending(list: seq<CommunityScenario>) {
    forall i, j :: 0 <= i < j < |list| ==> Key(list[i]) >= Key(list[j])
  }

  /** Inserts `x` before the first entry with no more likes than it. */
  function Insert(x: CommunityScenario, sorted: seq<CommunityScenario>): (r: seq<CommunityScenario>)
    requires ByLikesDescending(sorted)
    ensures ByLikesDescending(r)
    ensures multiset(r) == multiset(sorted) + multiset{x}
  {
    if sorted == [] || Key(sorted[0]) <= Key(x) then
      HeadBounds(sorted, Key(x));
      ConsDescending(x, sorted);
      [x] + sorted
    else
      var rest := Insert(x, sorted[1..]);
      assert sorted == [sorted[0]] + sorted[1..];
      InsertBelow(x, sorted[1..], rest, Key(sorted[0]));
      ConsDescending(sorted[0], rest);
      [sorted[0]] + rest
  }

  /** In a descending list a bound on the head bounds every entry. */
  lemma HeadBounds(sorted: seq<CommunityScenario>, bound: int)
    requires ByLikesDescending(sorted) && (sorted != [] ==> Key(sorted[0]) <= bound)
    ensures AtMost(sorted, bound)
  {
    forall i | 0 < i < |sorted| ensures Key(sorted[i]) <= bound {
      assert Key(sorted[0]) >= Key(sorted[i]);
    }
  }

  /** Putting an entry in front of a descending list it bounds keeps the list descending. */
  lemma ConsDescending(head: CommunityScenario, tail: seq<CommunityScenario>)
    requires ByLikesDescending(tail) && AtMost(tail, Key(head))
    ensures ByLikesDescending([head] + tail)
  {
    var list := [head] + tail;
    forall i, j | 0 <= i < j < |list| ensures Key(list[i]) >= Key(list[j]) {
      assert list[j] == tail[j - 1];
      if i > 0 {
        assert list[i] == tail[i - 1];
      }
    }
  }

  predicate AtMost(list: seq<CommunityScenario>, bound: int) {
    forall i :: 0 <= i < |list| ==> Key(list[i]) <= bound
  }

  /** Every entry of the inserted list is `x` or came from `sorted`, so a bound on both bounds it. */
  lemma InsertBelow(x: CommunityScenario, sorted: seq<CommunityScenario>, rest: seq<CommunityScenario>, bound: int)
    requires multiset(rest) == multiset(sorted) + multiset{x}
    requires Key(x) <= bound && ByLikesDescending(sorted) && (sorted != [] ==> Key(sorted[0]) <= bound)
    ensures AtMost(rest, bound)
  {
    forall i | 0 <= i < |rest| ensures Key(rest[i]) <= bound {
      assert rest[i] in multiset(rest);
      if rest[i] != x {
        assert rest[i] in multiset(sorted);
        var j :| 0 <= j < |sorted| && sorted[j] == rest[i];
        if j > 0 {
          assert Key(sorted[0]) >= Key(sorted[j]);
        }
      }
    }
  }

  /** `[...list].sort(...)`: most likes first for `popular`; `newest` keeps the fetched order. */
  function SortedScenarios(list: seq<CommunityScenario>, sortBy: SortBy): (r: seq<CommunityScenario>)
    ensures multiset(r) == multiset(list)
    ensures sortBy == Newest ==> r == list
    ensures sortBy == Popular ==> ByLikesDescending(r)
  {
    if sortBy == Newest then list else SortByLikes(list)
  }

  function SortByLikes(list: seq<CommunityScenario>): (r: seq<CommunityScenario>)
    ensures multiset(r) == multiset(list)
    ensures ByLikesDescending(r)
  {
    if list == [] then []
    else
      assert list == [list[0]] + list[1..];
      Insert(list[0], SortByLikes(list[1..]))
  }
}
