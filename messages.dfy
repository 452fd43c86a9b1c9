/**
 * The stored message record and the list and set updates that the feed, the
 * moderation dashboard and the own-messages page apply to it.
 */
module Messages {
  import opened Wrappers
  import opened JsString
  import opened JsArray

  /** The `spotify_data` object a message carries when a track was attached. */
  datatype SpotifyData = SpotifyData(
    trackId: string,
    trackName: string,
    artistName: string,
    startTime: int,
    endTime: int,
    previewUrl: Option<string>,
    isAutoRefren: bool)

  /** A row of the `messages` table; `text` is its `message` column and
      `createdAt` its `created_at` timestamp in epoch milliseconds. */
  datatype Message = Message(
    id: string,
    text: string,
    fromName: Option<string>,
    toName: Option<string>,
    spotifyTrackId: Option<string>,
    spotifyData: Option<SpotifyData>,
    likes: nat,
    sessionId: string,
    createdAt: int)

  /** The ids in a list are pairwise distinct, as the table's primary key makes them. */
  predicate UniqueIds(ms: seq<Message>) {
    forall i, j :: 0 <= i < j < |ms| ==> ms[i].id != ms[j].id
  }

  /** The set of ids occurring in a list: `new Set(ms.map(m => m.id))`. */
  function Ids(ms: seq<Message>): (r: set<string>)
    ensures |r| <= |ms|
    ensures forall id :: id in r <==> exists i :: 0 <= i < |ms| && ms[i].id == id
  {
    if ms == [] then {}
    else
      var rest := Ids(ms[1..]);
      IdsStep(ms, rest);
      {ms[0].id} + rest
  }

  lemma IdsStep(ms: seq<Message>, rest: set<string>)
    requires ms != []
    requires forall id :: id in rest <==> exists i :: 0 <= i < |ms[1..]| && ms[1..][i].id == id
    ensures forall id :: id in {ms[0].id} + rest <==> exists i :: 0 <= i < |ms| && ms[i].id == id
  {
    forall id | id in rest
      ensures exists i :: 0 <= i < |ms| && ms[i].id == id
    {
      var i :| 0 <= i < |ms[1..]| && ms[1..][i].id == id;
      assert ms[i + 1].id == id;
    }
    forall id | exists i :: 0 <= i < |ms| && ms[i].id == id
      ensures id in {ms[0].id} + rest
    {
      var i :| 0 <= i < |ms| && ms[i].id == id;
      if i > 0 {
        assert ms[1..][i - 1].id == id;
      }
    }
  }

  /** With distinct ids the id set has one element per message. */
  lemma {:induction false} IdsOfUniqueList(ms: seq<Message>)
    requires UniqueIds(ms)
    ensures |Ids(ms)| == |ms|
  {
    if ms != [] {
      IdsOfUniqueList(ms[1..]);
      forall i | 0 <= i < |ms[1..]|
        ensures ms[1..][i].id != ms[0].id
      {
        assert ms[1..][i] == ms[i + 1];
      }
    }
  }

  /** `ms.find(m => m.id === id)`: the first message with that id. */
  function Find(ms: seq<Message>, id: string): (r: Option<Message>)
    ensures r.Some? <==> id in Ids(ms)
    ensures r.Some? ==> r.value in ms && r.value.id == id
  {
    if ms == [] then None
    else if ms[0].id == id then Some(ms[0])
    else
      assert forall i :: 1 <= i < |ms| ==> ms[i] == ms[1..][i - 1];
      Find(ms[1..], id)
  }

  /** `ms.filter(m => !ids.has(m.id))`. */
  function RemoveIds(ms: seq<Message>, ids: set<string>): (r: seq<Message>)
    ensures IsSubsequence(r, ms)
    ensures forall m :: m in r <==> m in ms && m.id !in ids
    ensures Ids(r) == Ids(ms) - ids
  {
    var keep := (m: Message) => m.id !in ids;
    FilterIsSubsequence(ms, keep);
    var r := Filter(ms, keep);
    KeptIds(ms, ids, r);
    r
  }

  /** The ids left by dropping every message whose id is in `ids`. */
  lemma KeptIds(ms: seq<Message>, ids: set<string>, r: seq<Message>)
    requires forall i :: 0 <= i < |r| ==> r[i] in ms && r[i].id !in ids
    requires forall i :: 0 <= i < |ms| && ms[i].id !in ids ==> ms[i] in r
    ensures forall m :: m in r <==> m in ms && m.id !in ids
    ensures Ids(r) == Ids(ms) - ids
  {
    forall id | id in Ids(r)
      ensures id in Ids(ms) - ids
    {
      var i :| 0 <= i < |r| && r[i].id == id;
      var j :| 0 <= j < |ms| && ms[j] == r[i];
    }
    forall id | id in Ids(ms) - ids
      ensures id in Ids(r)
    {
      var i :| 0 <= i < |ms| && ms[i].id == id;
      var j :| 0 <= j < |r| && r[j] == ms[i];
    }
  }

  /** The like total of a list, `ms.reduce((sum, m) => sum + m.likes, 0)`:
      it bounds every count and is zero exactly when every count is. */
  function SumLikes(ms: seq<Message>): (n: nat)
    ensures forall i :: 0 <= i < |ms| ==> ms[i].likes <= n
    ensures n == 0 <==> forall i :: 0 <= i < |ms| ==> ms[i].likes == 0
  {
    if ms == [] then 0
    else
      assert forall i :: 1 <= i < |ms| ==> ms[i] == ms[1..][i - 1];
      ms[0].likes + SumLikes(ms[1..])
  }

  /** The like total of two lists put together is the sum of their totals. */
  lemma {:induction false} SumLikesConcat(a: seq<Message>, b: seq<Message>)
    ensures SumLikes(a + b) == SumLikes(a) + SumLikes(b)
  {
    if a == [] {
      assert a + b == b;
    } else {
      SumLikesConcat(a[1..], b);
      assert (a + b)[1..] == a[1..] + b;
    }
  }

  /** `ms.map(m => m.id === id ? { ...m, likes: n } : m)`: the messages with
      that id get `n` likes; every other field and every other message stays
      as it was. */
  function SetLikes(ms: seq<Message>, id: string, n: nat): (r: seq<Message>)
    ensures |r| == |ms|
    ensures forall i :: 0 <= i < |ms| && ms[i].id != id ==> r[i] == ms[i]
    ensures forall i :: 0 <= i < |ms| && ms[i].id == id ==> r[i] == ms[i].(likes := n)
  {
    seq(|ms|, i requires 0 <= i < |ms| => if ms[i].id == id then ms[i].(likes := n) else ms[i])
  }

  /** A second `SetLikes` on the same id overrides the first. */
  lemma SetLikesTwice(ms: seq<Message>, id: string, a: nat, b: nat)
    ensures SetLikes(SetLikes(ms, id, a), id, b) == SetLikes(ms, id, b)
  {
    var r, t := SetLikes(SetLikes(ms, id, a), id, b), SetLikes(ms, id, b);
    forall i | 0 <= i < |ms|
      ensures r[i] == t[i]
    {
      if ms[i].id == id {
        assert SetLikes(ms, id, a)[i] == ms[i].(likes := a);
      }
    }
  }

  /** Setting the likes of `id` to the value its message already has changes
      nothing when ids are distinct: the basis of the feed's rollback. */
  lemma RestoreLikes(ms: seq<Message>, id: string, m: Message)
    requires UniqueIds(ms) && m in ms && m.id == id
    ensures SetLikes(ms, id, m.likes) == ms
  {
    var r := SetLikes(ms, id, m.likes);
    var k :| 0 <= k < |ms| && ms[k] == m;
    forall i | 0 <= i < |ms|
      ensures r[i] == ms[i]
    {
      if ms[i].id == id {
        assert i == k;
      }
    }
  }

  /** `ms.map(m => m.id === id ? { ...m, likes: m.likes + 1 } : m)`: each
      message with that id gains exactly one like; nothing else changes. */
  function IncrementLikes(ms: seq<Message>, id: string): (r: seq<Message>)
    ensures |r| == |ms|
    ensures forall i :: 0 <= i < |ms| && ms[i].id != id ==> r[i] == ms[i]
    ensures forall i :: 0 <= i < |ms| && ms[i].id == id ==> r[i] == ms[i].(likes := ms[i].likes + 1)
  {
    seq(|ms|, i requires 0 <= i < |ms| => if ms[i].id == id then ms[i].(likes := ms[i].likes + 1) else ms[i])
  }

  /** Adding `x` to a set that lacks it, deleting it from one that has it. */
  function Toggle(s: set<string>, x: string): (r: set<string>)
    ensures forall y :: y in r <==> (if y == x then y !in s else y in s)
  {
    if x in s then s - {x} else s + {x}
  }

  /** Toggling the same element twice restores the set. */
  lemma ToggleTwice(s: set<string>, x: string)
    ensures Toggle(Toggle(s, x), x) == s
  {
  }
}
