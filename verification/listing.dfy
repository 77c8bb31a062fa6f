/** The sidebar order of `renderChatHistory`: the chat ids sorted by
    `createdAt`, newest first (`sort((a, b) => chats[b].createdAt -
    chats[a].createdAt)`). */
module Listing {
  import opened Chat

  ghost predicate NewestFirst(ids: seq<string>, chats: map<string, ChatRecord>)
    requires forall k :: 0 <= k < |ids| ==> ids[k] in chats
  {
    forall i, j :: 0 <= i < j < |ids| ==> chats[ids[i]].createdAt >= chats[ids[j]].createdAt
  }

  /** Puts `id` in front of the first chat that is not newer than it, so that
      chats created at the same time keep their original relative order. */
  function Insert(id: string, sorted: seq<string>, chats: map<string, ChatRecord>): (r: seq<string>)
    requires id in chats
    requires forall k :: 0 <= k < |sorted| ==> sorted[k] in chats
    ensures multiset(r) == multiset(sorted) + multiset{id}
    ensures forall k :: 0 <= k < |r| ==> r[k] == id || r[k] in sorted
  {
    if sorted == [] then [id]
    else if chats[id].createdAt >= chats[sorted[0]].createdAt then [id] + sorted
    else
      assert sorted == [sorted[0]] + sorted[1..];
      [sorted[0]] + Insert(id, sorted[1..], chats)
  }

  lemma {:induction false} InsertKeepsOrder(id: string, sorted: seq<string>, chats: map<string, ChatRecord>)
    requires id in chats
    requires forall k :: 0 <= k < |sorted| ==> sorted[k] in chats
    requires NewestFirst(sorted, chats)
    ensures forall k :: 0 <= k < |Insert(id, sorted, chats)| ==> Insert(id, sorted, chats)[k] in chats
    ensures NewestFirst(Insert(id, sorted, chats), chats)
  {
    if sorted != [] && chats[id].createdAt < chats[sorted[0]].createdAt {
      var rest := Insert(id, sorted[1..], chats);
      InsertKeepsOrder(id, sorted[1..], chats);
      assert forall k :: 0 <= k < |rest| ==> chats[sorted[0]].createdAt >= chats[rest[k]].createdAt;
    }
  }

  /** The listing order: a permutation of the ids, newest chat first. */
  function SortNewestFirst(ids: seq<string>, chats: map<string, ChatRecord>): (r: seq<string>)
    requires forall k :: 0 <= k < |ids| ==> ids[k] in chats
    ensures multiset(r) == multiset(ids)
    ensures forall k :: 0 <= k < |r| ==> r[k] in chats
    ensures NewestFirst(r, chats)
  {
    if ids == [] then []
    else
      assert ids == [ids[0]] + ids[1..];
      var rest := SortNewestFirst(ids[1..], chats);
      InsertKeepsOrder(ids[0], rest, chats);
      Insert(ids[0], rest, chats)
  }
}
