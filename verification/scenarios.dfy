/**
 * Request sequences against one store, as the handler tests describe them.
 * Each is proved from the handlers' contracts alone.
 */
module Scenarios {
  import opened Wrappers
  import opened Updates
  import opened Handler

  /**
   * The same star request twice: the second is answered 200 with the stored
   * item and writes nothing, so the store is where one request left it.
   */
  method StarTwice(store: Store, user: User, id: string) returns (first: Response<Item>, second: Response<Item>)
    requires store.Valid() && id != ""
    modifies store
    ensures store.Valid()
    ensures first.code == if id in old(store.items) && user.id in old(store.items)[id].stargazersIds
                          then StatusOK else StatusCreated
    ensures id in store.items && user.id in store.items[id].stargazersIds
    ensures second == Data(StatusOK, store.items[id])
    ensures store.items == old(store.items)[id :=
      if id in old(store.items)
      then old(store.items)[id].(stargazersIds := StarList(old(store.items)[id].stargazersIds, user.id, true))
      else Item(id, "chart", [user.id], 0, false, [])]
  {
    var body := Some(StarParams(id, "", 0, true));
    if id in store.items {
      assert user.id !in store.items[id].stargazersIds || StarList(store.items[id].stargazersIds, user.id, true) == store.items[id].stargazersIds;
    }
    first := store.UpdateStar(Some(user), body, false, false);
    second := store.UpdateStar(Some(user), body, false, false);
  }

  /** Starring an item the caller had not starred and then unstarring it restores the store. */
  method StarUnstarRoundTrip(store: Store, user: User, id: string) returns (star: Response<Item>, unstar: Response<Item>)
    requires store.Valid() && id != "" && id in store.items && user.id !in store.items[id].stargazersIds
    modifies store
    ensures store.Valid()
    ensures star.code == StatusCreated && unstar.code == StatusCreated
    ensures store.items == old(store.items)
  {
    ghost var ids := store.items[id].stargazersIds;
    star := store.UpdateStar(Some(user), Some(StarParams(id, "", 0, true)), false, false);
    unstar := store.UpdateStar(Some(user), Some(StarParams(id, "", 0, false)), false, false);
    StarThenUnstar(ids, user.id);
    assert store.items[id] == old(store.items)[id];
  }

  /**
   * A first comment on an item without comments, stored or not: 201 with the new id,
   * the clock reading and the caller as author; listing the item's comments
   * then yields exactly that comment.
   */
  method CommentThenList(store: Store, user: User, newId: ObjectId, now: Timestamp, gravatar: string -> string)
    returns (created: Response<Comment>, listed: Response<seq<Comment>>)
    requires store.Valid()
    requires "stable/wordpress" !in store.items || store.items["stable/wordpress"].comments == []
    modifies store
    ensures store.Valid()
    ensures created.Data? && created.code == StatusCreated
    ensures created.data.id == newId && created.data.createdAt == now && created.data.author.id == user.id
    ensures listed == Data(StatusOK, [created.data])
  {
    var params := map["repo" := "stable", "chartName" := "wordpress"];
    assert ItemId(params) == "stable/wordpress";
    created := store.CreateComment(Some(user), Some(CommentBody("Hello, World")), params, newId, now, gravatar, false, false);
    listed := store.GetComments(params, gravatar, false);
    assert WithAvatar(Stored(Comment(newId, "Hello, World", now, user)), gravatar) == created.data;
    assert listed.data == [created.data];
  }

  /**
   * A comment created and then deleted by its author, with an id no comment
   * of the item had: both succeed and the store is as before.
   */
  method CommentThenDelete(store: Store, user: User, params: Params, text: string,
                           newId: ObjectId, now: Timestamp, gravatar: string -> string)
    returns (created: Response<Comment>, deleted: Response<Comment>)
    requires store.Valid() && text != "" && ItemId(params) in store.items
    requires forall c :: c in store.items[ItemId(params)].comments ==> c.id != newId
    modifies store
    ensures store.Valid()
    ensures created.code == StatusCreated && deleted.code == StatusAccepted
    ensures store.items == old(store.items)
  {
    var id := ItemId(params);
    ghost var cs := store.items[id].comments;
    ghost var cm := Stored(Comment(newId, text, now, user));
    created := store.CreateComment(Some(user), Some(CommentBody(text)), params, newId, now, gravatar, false, false);
    assert store.items[id].comments == cs + [cm];
    assert FindComment(cs + [cm], newId) == Some(cm) by {
      var r := FindComment(cs + [cm], newId);
      assert cm in cs + [cm];
      assert r.value !in cs;
    }
    deleted := store.DeleteComment(Some(user), params, newId, false, false);
    assert cm !in cs;
    PushThenPull(cs, cm);
    assert store.items[id] == old(store.items)[id];
  }
}
