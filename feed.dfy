/**
 * The public feed (src/app/page.tsx): the message list, the set of ids this
 * visitor has liked and the id whose like is in flight, updated by the like
 * toggle and by deletion, and shown through one of three sort orders.
 *
 * Each handler is modelled as one step; the backend's answer (and the
 * visitor's answer to the delete confirmation) is a boolean parameter.
 */
module Feed {
  import opened Wrappers
  import opened Messages
  import opened MessageOrder

  /** The count written for a like click: one less (never below zero) when the
      visitor had liked the message, one more otherwise. So a click always
      moves the count by exactly one, or leaves a zero count of an
      already-liked message at zero. */
  function NewLikeCount(likes: nat, alreadyLiked: bool): (n: nat)
    ensures alreadyLiked ==> n <= likes && (likes > 0 ==> likes - n == 1)
    ensures !alreadyLiked ==> n == likes + 1
  {
    if alreadyLiked then (if likes == 0 then 0 else likes - 1) else likes + 1
  }

  /** Liking then unliking returns to the original count. */
  lemma LikeThenUnlike(likes: nat)
    ensures NewLikeCount(NewLikeCount(likes, false), true) == likes
  {
  }

  /** Unliking then liking returns to the original count, except from zero,
      where the clamp makes the pair end at one. */
  lemma UnlikeThenLike(likes: nat)
    ensures NewLikeCount(NewLikeCount(likes, true), false) == if likes == 0 then 1 else likes
  {
  }

  class FeedState {
    var messages: seq<Message>
    var userLikes: set<string>
    var processingLike: Option<string>
    var sortBy: SortOption

    /** The state on first render. */
    constructor ()
      ensures messages == [] && userLikes == {} && processingLike == None && sortBy == Newest
    {
      messages := [];
      userLikes := {};
      processingLike := None;
      sortBy := Newest;
    }

    /** `handleLike`. A click on the id already in flight is ignored. A click
        on an id not in the list only clears the in-flight marker. Otherwise
        the count of that message becomes `NewLikeCount` and its membership in
        `userLikes` flips; when the backend write fails the count goes back to
        its value before the click, while `userLikes` stays flipped. */
    method HandleLike(id: string, persisted: bool)
      modifies this
      ensures sortBy == old(sortBy)
      ensures old(processingLike) == Some(id) ==>
        messages == old(messages) && userLikes == old(userLikes) && processingLike == old(processingLike)
      ensures old(processingLike) != Some(id) ==> processingLike == None
      ensures old(processingLike) != Some(id) && Find(old(messages), id).None? ==>
        messages == old(messages) && userLikes == old(userLikes)
      ensures old(processingLike) != Some(id) && Find(old(messages), id).Some? ==>
        var before := Find(old(messages), id).value.likes;
        var after := if persisted then NewLikeCount(before, id in old(userLikes)) else before;
        && userLikes == Toggle(old(userLikes), id)
        && messages == SetLikes(old(messages), id, after)
      ensures !persisted && UniqueIds(old(messages)) ==> messages == old(messages)
    {
      if processingLike == Some(id) {
        return;
      }
      processingLike := Some(id);
      var found := Find(messages, id);
      if found.None? {
        processingLike := None;
        return;
      }
      var message := found.value;
      var alreadyLiked := id in userLikes;
      var newLikeCount := NewLikeCount(message.likes, alreadyLiked);
      messages := SetLikes(messages, id, newLikeCount);
      userLikes := Toggle(userLikes, id);
      if !persisted {
        SetLikesTwice(old(messages), id, newLikeCount, message.likes);
        messages := SetLikes(messages, id, message.likes);
        if UniqueIds(old(messages)) {
          RestoreLikes(old(messages), id, message);
        }
      }
      processingLike := None;
    }

    /** `handleDelete`: after confirmation and a successful backend delete, the
        message with that id leaves the list and its id leaves `userLikes`;
        otherwise nothing changes. */
    method HandleDelete(id: string, confirmed: bool, persisted: bool)
      modifies this
      ensures processingLike == old(processingLike) && sortBy == old(sortBy)
      ensures confirmed && persisted ==>
        messages == RemoveIds(old(messages), {id}) && userLikes == old(userLikes) - {id}
      ensures !(confirmed && persisted) ==> messages == old(messages) && userLikes == old(userLikes)
    {
      if !confirmed || !persisted {
        return;
      }
      messages := RemoveIds(messages, {id});
      userLikes := userLikes - {id};
    }

    /** The sort buttons. */
    method SetSortBy(order: SortOption)
      modifies this`sortBy
      ensures sortBy == order
    {
      sortBy := order;
    }

    /** `getSortedMessages`: a sorted copy; the state itself is only read. */
    function SortedMessages(): (r: seq<Message>)
      reads this
      ensures Sorted(sortBy, r) && multiset(r) == multiset(messages)
    {
      Sort(sortBy, messages)
    }
  }

  /** Two successful clicks on a message whose count is positive or which the
      visitor has not liked restore both the list and the liked set. */
  method LikeTwice(feed: FeedState, id: string)
    requires feed.processingLike == None && UniqueIds(feed.messages)
    requires Find(feed.messages, id).Some?
    requires Find(feed.messages, id).value.likes > 0 || id !in feed.userLikes
    modifies feed
    ensures feed.messages == old(feed.messages) && feed.userLikes == old(feed.userLikes)
  {
    ghost var m0, l0 := feed.messages, feed.userLikes;
    ghost var m := Find(m0, id).value;
    ghost var liked := id in l0;
    ghost var n := NewLikeCount(m.likes, liked);
    feed.HandleLike(id, true);
    assert feed.messages == SetLikes(m0, id, n);
    FindAfterUpdate(m0, id, m, n);
    assert NewLikeCount(n, !liked) == m.likes;
    feed.HandleLike(id, true);
    assert feed.messages == SetLikes(SetLikes(m0, id, n), id, m.likes);
    SetLikesTwice(m0, id, n, m.likes);
    RestoreLikes(m0, id, m);
    ToggleTwice(l0, id);
  }

  /** With distinct ids, after setting the count of `m` the list finds `m` with
      the new count. */
  lemma FindAfterUpdate(ms: seq<Message>, id: string, m: Message, n: nat)
    requires UniqueIds(ms) && Find(ms, id) == Some(m)
    ensures Find(SetLikes(ms, id, n), id) == Some(m.(likes := n))
  {
    var r := SetLikes(ms, id, n);
    var k :| 0 <= k < |ms| && ms[k] == m;
    FindIsAt(ms, id, k);
    FindIsAt(r, id, k);
  }

  /** In a list with distinct ids, `Find` returns the message at the position
      holding the id. */
  lemma {:induction false} FindIsAt(ms: seq<Message>, id: string, k: int)
    requires 0 <= k < |ms| && ms[k].id == id
    requires forall i :: 0 <= i < k ==> ms[i].id != id
    ensures Find(ms, id) == Some(ms[k])
  {
    if k > 0 {
      FindIsAt(ms[1..], id, k - 1);
    }
  }
}
