/**
 * The friend search shared by the dashboard's sidebar and the forward
 * dialog: a friend is listed when its lower-cased name contains the
 * lower-cased search term.
 */
module FriendSearch {
  import opened JsString
  import opened Lists
  import opened ClientTypes

  predicate MatchesSearch(f: Friend, term: string) {
    Includes(Lower(f.name), Lower(term))
  }

  /** `friendData.filter(...)`: exactly the friends whose name contains the term, ignoring ASCII case. */
  function FilteredFriends(friends: seq<Friend>, term: string): (r: seq<Friend>)
    ensures |r| <= |friends|
    ensures forall f :: f in r <==> f in friends && MatchesSearch(f, term)
  {
    Filter(friends, f => MatchesSearch(f, term))
  }

  /** An empty search lists every friend, in order. */
  lemma EmptySearchKeepsAll(friends: seq<Friend>)
    ensures FilteredFriends(friends, "") == friends
  {
    forall i | 0 <= i < |friends|
      ensures MatchesSearch(friends[i], "")
    {
      IncludesEmpty(Lower(friends[i].name));
    }
    FilterKeepsAll(friends, f => MatchesSearch(f, ""));
  }

  /** The listed friends keep their relative order: the filter splits over any cut of the list. */
  lemma SearchKeepsOrder(a: seq<Friend>, b: seq<Friend>, term: string)
    ensures FilteredFriends(a + b, term) == FilteredFriends(a, term) + FilteredFriends(b, term)
  {
    FilterAppend(a, b, f => MatchesSearch(f, term));
  }

  /** The case of the search term does not matter. */
  lemma SearchIgnoresTermCase(friends: seq<Friend>, term: string)
    ensures FilteredFriends(friends, Lower(term)) == FilteredFriends(friends, term)
  {
    LowerIdempotent(term);
    FilterAgree(friends, f => MatchesSearch(f, Lower(term)), f => MatchesSearch(f, term));
  }
}
