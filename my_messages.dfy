/**
 * The own-messages page (src/app/my-messages/page.tsx): the messages stored
 * under this browser's session id, newest first, with a like that only ever
 * adds one and a delete. The backend's answers are boolean parameters.
 */
module MyMessages {
  import opened Wrappers
  import opened JsArray
  import opened Messages
  import opened MessageOrder
  import MessageCard

  /** The query `select * ... eq('session_id', session) order('created_at',
      desc)` over the stored rows: exactly the rows of this session, each as
      often as it is stored, newest first. */
  function MineNewestFirst(stored: seq<Message>, session: string): (r: seq<Message>)
    ensures forall i :: 0 <= i < |r| ==> r[i].sessionId == session && r[i] in stored
    ensures forall i :: 0 <= i < |stored| && stored[i].sessionId == session ==> stored[i] in r
    ensures forall i, j :: 0 <= i < j < |r| ==> r[i].createdAt >= r[j].createdAt
    ensures multiset(r) == multiset(Filter(stored, BelongsTo(session)))
  {
    var mine := Filter(stored, BelongsTo(session));
    var r := Sort(Newest, mine);
    SessionRows(stored, session, mine, r);
    r
  }

  /** Any rearrangement of the session's rows holds exactly those rows. */
  lemma SessionRows(stored: seq<Message>, session: string, mine: seq<Message>, r: seq<Message>)
    requires mine == Filter(stored, BelongsTo(session))
    requires multiset(r) == multiset(mine)
    ensures forall i :: 0 <= i < |r| ==> r[i].sessionId == session && r[i] in stored
    ensures forall i :: 0 <= i < |stored| && stored[i].sessionId == session ==> stored[i] in r
  {
    forall i | 0 <= i < |r|
      ensures r[i].sessionId == session && r[i] in stored
    {
      assert r[i] in multiset(mine);
      var j :| 0 <= j < |mine| && mine[j] == r[i];
      assert BelongsTo(session)(mine[j]);
    }
    forall i | 0 <= i < |stored| && stored[i].sessionId == session
      ensures stored[i] in r
    {
      assert BelongsTo(session)(stored[i]);
      assert stored[i] in multiset(mine);
    }
  }

  /** The row test of the query: `session_id` equals the session. */
  function BelongsTo(session: string): Message -> bool {
    (m: Message) => m.sessionId == session
  }

  class MyMessagesState {
    var messages: seq<Message>
    var sessionId: string

    /** The state on first render. */
    constructor ()
      ensures messages == [] && sessionId == ""
    {
      messages := [];
      sessionId := "";
    }

    /** `fetchMyMessages`: with the session id read from storage, replace the
        list by the session's rows on success; keep it on a backend error. */
    method FetchMyMessages(session: string, stored: seq<Message>, ok: bool)
      modifies this
      ensures sessionId == session
      ensures ok ==> messages == MineNewestFirst(stored, session)
      ensures !ok ==> messages == old(messages)
    {
      sessionId := session;
      if ok {
        messages := MineNewestFirst(stored, session);
      }
    }

    /** `handleLike`: an unknown id or a backend error changes nothing;
        otherwise the message with that id gains exactly one like. */
    method HandleLike(id: string, persisted: bool)
      modifies this`messages
      ensures Find(old(messages), id).Some? && persisted ==> messages == IncrementLikes(old(messages), id)
      ensures !(Find(old(messages), id).Some? && persisted) ==> messages == old(messages)
    {
      var message := Find(messages, id);
      if message.None? {
        return;
      }
      if persisted {
        messages := IncrementLikes(messages, id);
      }
    }

    /** `handleDelete`: on success the messages with that id leave the list,
        the others staying in order; on a backend error nothing changes. */
    method HandleDelete(id: string, persisted: bool)
      modifies this`messages
      ensures persisted ==> messages == RemoveIds(old(messages), {id})
      ensures !persisted ==> messages == old(messages)
    {
      if persisted {
        messages := RemoveIds(messages, {id});
      }
    }
  }

  lemma {:induction false} SumLikesSplit(ms: seq<Message>, k: int)
    requires 0 <= k < |ms|
    ensures SumLikes(ms) == SumLikes(ms[..k]) + ms[k].likes + SumLikes(ms[k + 1..])
  {
    if k > 0 {
      SumLikesSplit(ms[1..], k - 1);
      assert ms[1..][..k - 1] == ms[1..k];
      assert ms[..k][1..] == ms[1..k];
      assert ms[1..][k..] == ms[k + 1..];
    } else {
      assert ms[1..] == ms[k + 1..];
    }
  }

  /** A like on this page only ever adds: with distinct ids, incrementing a
      present id raises the total by exactly one, and no count decreases. */
  lemma IncrementAddsOne(ms: seq<Message>, id: string)
    requires UniqueIds(ms) && id in Ids(ms)
    ensures SumLikes(IncrementLikes(ms, id)) == SumLikes(ms) + 1
    ensures forall i :: 0 <= i < |ms| ==> IncrementLikes(ms, id)[i].likes >= ms[i].likes
  {
    var k :| 0 <= k < |ms| && ms[k].id == id;
    IncrementAt(ms, id, k);
  }

  lemma IncrementAt(ms: seq<Message>, id: string, k: int)
    requires 0 <= k < |ms| && ms[k].id == id
    requires forall i :: 0 <= i < |ms| && i != k ==> ms[i].id != id
    ensures SumLikes(IncrementLikes(ms, id)) == SumLikes(ms) + 1
  {
    var r := IncrementLikes(ms, id);
    assert r[..k] == ms[..k];
    assert r[k + 1..] == ms[k + 1..];
    SumLikesSplit(ms, k);
    SumLikesSplit(r, k);
  }

  /** Every card on this page belongs to the visitor, so every card offers the
      delete control. */
  lemma EveryCardDeletable(stored: seq<Message>, session: string, isProcessing: bool, now: int)
    ensures forall m :: m in MineNewestFirst(stored, session) ==>
      MessageCard.View(m, session, isProcessing, now).showDelete
  {
    var r := MineNewestFirst(stored, session);
    forall m | m in r
      ensures MessageCard.View(m, session, isProcessing, now).showDelete
    {
      var i :| 0 <= i < |r| && r[i] == m;
    }
  }
}
