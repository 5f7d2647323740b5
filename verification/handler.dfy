/**
 * The engagement handlers of the rating service: listing items with their
 * star counts, starring and unstarring an item, and listing, creating and
 * deleting the comments of an item.
 *
 * The document store is a map from item id (such as "stable/wordpress") to
 * the stored item, held by the class `Store`. Each handler is a method of the
 * store that receives its collaborators already evaluated: the caller's
 * identity (`None` when the signed cookie could not be resolved), the decoded
 * request body (`None` when it could not be decoded), the path parameters,
 * the fresh object id, the clock reading, the avatar derivation and whether
 * the store's calls fail: the read of all items, the lookup of one item
 * (which the handlers take for "not stored"), and the write. A stored item
 * the lookup misses is inserted again, and the store refuses the duplicate
 * id, so that insert fails too. It answers with a `Response` and
 * changes the map as the handler's single insert or update would.
 */
module Handler {
  import opened Wrappers
  import opened Updates

  const StatusOK := 200
  const StatusCreated := 201
  const StatusAccepted := 202
  const StatusBadRequest := 400
  const StatusUnauthorized := 401
  const StatusNotFound := 404
  const StatusInternalServerError := 500

  /** The store's 12-byte object id, kept as the string it is. */
  type ObjectId = string
  /** A clock reading; 0 is the zero time. */
  type Timestamp = int
  /** Path parameters by name; a missing name reads as the empty string. */
  type Params = map<string, string>

  /** A caller's identity, as carried in the claims of the signed cookie. */
  datatype User = User(id: ObjectId, name: string, email: string, avatarURL: string)

  datatype Comment = Comment(id: ObjectId, text: string, createdAt: Timestamp, author: User)

  /**
   * An item. `stargazersCount` and `hasStarred` are only part of responses:
   * the store never keeps them, and an item read back has them at their zero
   * values.
   */
  datatype Item = Item(
    id: string,
    kind: string,
    stargazersIds: seq<ObjectId>,
    stargazersCount: int,
    hasStarred: bool,
    comments: seq<Comment>)

  /** The fields of an item that a star request body can set. */
  datatype StarParams = StarParams(id: string, kind: string, stargazersCount: int, hasStarred: bool)

  /** The field of a comment request body that the handler keeps (all others are overwritten). */
  datatype CommentBody = CommentBody(text: string)

  /** What a handler writes back: data with a status code, or an error envelope. */
  datatype Response<T> = Data(code: int, data: T) | Error(code: int, message: string)

  const ZeroUser := User("", "", "", "")
  const ZeroComment := Comment("", "", 0, ZeroUser)

  function Param(params: Params, name: string): string {
    if name in params then params[name] else ""
  }

  /** The key of the item a comment route addresses: repo, a slash, chart name. */
  function ItemId(params: Params): (r: string)
    ensures var repo, chart := Param(params, "repo"), Param(params, "chartName");
      && |r| == |repo| + 1 + |chart|
      && r[..|repo|] == repo && r[|repo|] == '/' && r[|repo| + 1..] == chart
  {
    Param(params, "repo") + "/" + Param(params, "chartName")
  }

  /** A comment as the response shows it: the author's avatar derived from the e-mail address. */
  function WithAvatar(c: Comment, gravatar: string -> string): (r: Comment)
    ensures r.author.avatarURL == gravatar(c.author.email)
    ensures Stored(r) == Stored(c)
  {
    c.(author := c.author.(avatarURL := gravatar(c.author.email)))
  }

  /** A comment as the store keeps it: the avatar is never stored. */
  function Stored(c: Comment): Comment {
    c.(author := c.author.(avatarURL := ""))
  }

  /** An item as read back from the store: no response-only field is set. */
  predicate IsStored(it: Item) {
    && it.stargazersCount == 0
    && !it.hasStarred
    && forall c :: c in it.comments ==> c.author.avatarURL == ""
  }

  /** `hasStarred`: scans the stargazer list for the user's id. */
  function StarredBy(ids: seq<ObjectId>, uid: ObjectId): (r: bool)
    ensures r <==> uid in ids
  {
    if ids == [] then false
    else if ids[0] == uid then true
    else StarredBy(ids[1..], uid)
  }

  /** The comment search of `DeleteComment`: the first comment with the id, if any. */
  function FindComment(cs: seq<Comment>, cid: ObjectId): (r: Option<Comment>)
    ensures r.None? <==> forall c :: c in cs ==> c.id != cid
    ensures r.Some? ==> r.value.id == cid
    ensures r.Some? ==> exists i :: 0 <= i < |cs| && cs[i] == r.value && forall j :: 0 <= j < i ==> cs[j].id != cid
  {
    if cs == [] then None
    else if cs[0].id == cid then Some(cs[0])
    else
      var r := FindComment(cs[1..], cid);
      assert r.Some? ==> exists i :: 0 <= i < |cs| && cs[i] == r.value && forall j :: 0 <= j < i ==> cs[j].id != cid by {
        if r.Some? {
          var i :| 0 <= i < |cs| - 1 && cs[1..][i] == r.value && forall j :: 0 <= j < i ==> cs[1..][j].id != cid;
          assert cs[i + 1] == r.value;
          assert forall j :: 0 <= j < i + 1 ==> cs[j].id != cid by {
            forall j | 0 <= j < i + 1 ensures cs[j].id != cid {
              if j > 0 { assert cs[j] == cs[1..][j - 1]; }
            }
          }
        }
      }
      r
  }

  /**
   * The same search as the handler writes it: the comment variable starts at
   * the zero comment and "not found" is a comparison with the zero comment.
   */
  function FindCommentOrZero(cs: seq<Comment>, cid: ObjectId): (r: Comment)
    ensures r == ZeroComment || (r in cs && r.id == cid)
    ensures (exists c :: c in cs && c.id == cid) ==> r in cs && r.id == cid
    ensures (forall c :: c in cs ==> c.id != cid) ==> r == ZeroComment
  {
    if cs == [] then ZeroComment
    else if cs[0].id == cid then cs[0]
    else FindCommentOrZero(cs[1..], cid)
  }

  /**
   * The zero-value test says "not found" exactly when no comment carries the
   * id, and otherwise yields the comment found, as long as the id searched
   * for is not the empty one (a decoded hex object id never is).
   */
  lemma {:induction false} ZeroSentinelAgrees(cs: seq<Comment>, cid: ObjectId)
    requires cid != ""
    ensures FindComment(cs, cid).None? <==> FindCommentOrZero(cs, cid) == ZeroComment
    ensures FindComment(cs, cid).Some? ==> FindComment(cs, cid).value == FindCommentOrZero(cs, cid)
  {
    if cs != [] && cs[0].id != cid {
      ZeroSentinelAgrees(cs[1..], cid);
    }
  }

  /**
   * The stargazer list of an existing item after a star request from `uid`
   * asking for `want`: already starred and asking to star is a no-op,
   * otherwise `$push` to star and `$pull` to unstar.
   */
  function StarList(ids: seq<ObjectId>, uid: ObjectId, want: bool): (r: seq<ObjectId>)
    ensures uid in r <==> want
    ensures forall x :: x in ids && x != uid ==> x in r
    ensures forall x :: x in r && x != uid ==> x in ids
    ensures NoDup(ids) ==> NoDup(r)
  {
    if want then
      if StarredBy(ids, uid) then ids
      else
        assert NoDup(ids) ==> NoDup(ids + [uid]) by {
          if NoDup(ids) { PushNoDup(ids, uid); }
        }
        ids + [uid]
    else
      PullMembership(ids, uid);
      assert NoDup(ids) ==> NoDup(Pull(ids, uid)) by {
        if NoDup(ids) { PullNoDup(ids, uid); }
      }
      Pull(ids, uid)
  }

  /** Repeating a star request leaves the stargazer list where the first one left it. */
  lemma StarListIdempotent(ids: seq<ObjectId>, uid: ObjectId, want: bool)
    ensures StarList(StarList(ids, uid, want), uid, want) == StarList(ids, uid, want)
  {
    if !want {
      PullAbsent(Pull(ids, uid), uid);
    }
  }

  /** Starring an item the caller had not starred, then unstarring it, restores its stargazer list. */
  lemma StarThenUnstar(ids: seq<ObjectId>, uid: ObjectId)
    requires uid !in ids
    ensures StarList(StarList(ids, uid, true), uid, false) == ids
  {
    PushThenPull(ids, uid);
  }

  /**
   * When the comments of an item are pairwise distinct, deleting the comment
   * found for an id removes that one comment and keeps the others in order.
   */
  lemma DeleteRemovesFound(cs: seq<Comment>, cid: ObjectId)
    requires NoDup(cs) && FindComment(cs, cid).Some?
    ensures var c := FindComment(cs, cid).value;
      && |Pull(cs, c)| == |cs| - 1
      && exists i :: 0 <= i < |cs| && cs[i] == c && Pull(cs, c) == cs[..i] + cs[i + 1..]
  {
    var c := FindComment(cs, cid).value;
    var i :| 0 <= i < |cs| && cs[i] == c && forall j :: 0 <= j < i ==> cs[j].id != cid;
    PullAt(cs, i);
  }

  /**
   * An item as `GetStars` answers with it: the star count is the length of
   * the stargazer list; when a caller is known, `hasStarred` says whether
   * the caller is in it, otherwise it stays as read.
   */
  function Annotated(it: Item, caller: Option<User>): (r: Item)
    ensures r.stargazersCount == |r.stargazersIds|
    ensures caller.Some? ==> (r.hasStarred <==> caller.value.id in r.stargazersIds)
    ensures caller.None? ==> r.hasStarred == it.hasStarred
    ensures r == it.(stargazersCount := r.stargazersCount, hasStarred := r.hasStarred)
  {
    var counted := it.(stargazersCount := |it.stargazersIds|);
    if caller.Some? then counted.(hasStarred := StarredBy(counted.stargazersIds, caller.value.id)) else counted
  }

  /** The document store: the items by id. */
  class Store {
    var items: map<string, Item>

    /** Every item is stored under its own id and holds no response-only field. */
    ghost predicate Valid()
      reads this
    {
      forall k :: k in items ==> items[k].id == k && IsStored(items[k])
    }

    constructor ()
      ensures Valid() && items == map[]
    {
      items := map[];
    }

    /** Reads every stored item, each exactly once, in the store's own order. */
    method FindAll() returns (all: seq<Item>)
      requires Valid()
      ensures forall i :: 0 <= i < |all| ==> all[i].id in items && all[i] == items[all[i].id]
      ensures forall i, j :: 0 <= i < j < |all| ==> all[i].id != all[j].id
      ensures forall k :: k in items ==> exists i :: 0 <= i < |all| && all[i].id == k
    {
      all := [];
      var rest := items.Keys;
      while rest != {}
        invariant rest <= items.Keys
        invariant forall i :: 0 <= i < |all| ==> all[i].id in items && all[i].id !in rest && all[i] == items[all[i].id]
        invariant forall i, j :: 0 <= i < j < |all| ==> all[i].id != all[j].id
        invariant forall k :: k in items && k !in rest ==> exists i :: 0 <= i < |all| && all[i].id == k
        decreases rest
      {
        var k :| k in rest;
        ghost var before := all;
        all := all + [items[k]];
        rest := rest - {k};
        forall k' | k' in items && k' !in rest ensures exists i :: 0 <= i < |all| && all[i].id == k' {
          if k' == k {
            assert all[|all| - 1].id == k;
          } else {
            var i :| 0 <= i < |before| && before[i].id == k';
            assert all[i].id == k';
          }
        }
      }
    }

    /**
     * `GetStars`: every item, with its star count and, when the caller was
     * resolved, whether the caller starred it.
     */
    method GetStars(caller: Option<User>, fetchFails: bool) returns (resp: Response<seq<Item>>)
      requires Valid()
      ensures fetchFails ==> resp == Error(StatusInternalServerError, "could not fetch all items")
      ensures !fetchFails ==> resp.Data? && resp.code == StatusOK
      ensures !fetchFails ==> forall i :: 0 <= i < |resp.data| ==>
        var it := resp.data[i];
        && it.id in items
        && it.stargazersCount == |it.stargazersIds|
        && (it.hasStarred <==> caller.Some? && caller.value.id in it.stargazersIds)
        && it == items[it.id].(stargazersCount := it.stargazersCount, hasStarred := it.hasStarred)
      ensures !fetchFails ==> forall i, j :: 0 <= i < j < |resp.data| ==> resp.data[i].id != resp.data[j].id
      ensures !fetchFails ==> forall k :: k in items ==> exists i :: 0 <= i < |resp.data| && resp.data[i].id == k
    {
      if fetchFails {
        return Error(StatusInternalServerError, "could not fetch all items");
      }
      var all := FindAll();
      ghost var read := all;
      var i := 0;
      while i < |all|
        invariant 0 <= i <= |all| == |read|
        invariant forall j :: 0 <= j < i ==> all[j] == Annotated(read[j], caller)
        invariant forall j :: i <= j < |all| ==> all[j] == read[j]
      {
        var it := all[i].(stargazersCount := |all[i].stargazersIds|);
        if caller.Some? {
          it := it.(hasStarred := StarredBy(it.stargazersIds, caller.value.id));
        }
        all := all[i := it];
        i := i + 1;
      }
      forall k | k in items ensures exists j :: 0 <= j < |all| && all[j].id == k {
        var j :| 0 <= j < |read| && read[j].id == k;
        assert all[j].id == k;
      }
      resp := Data(StatusOK, all);
    }
  
    /**
     * `UpdateStar`: stars or unstars an item for the caller, creating the
     * item when it is not stored yet.
     */
    method UpdateStar(caller: Option<User>, body: Option<StarParams>, lookupFails: bool, writeFails: bool)
      returns (resp: Response<Item>)
      requires Valid()
      modifies this
      ensures Valid()
      ensures caller.None? ==> resp == Error(StatusUnauthorized, "unauthorized") && items == old(items)
      ensures caller.Some? && body.None? ==>
        resp == Error(StatusBadRequest, "could not parse request body") && items == old(items)
      ensures caller.Some? && body.Some? && body.value.id == "" ==>
        resp == Error(StatusBadRequest, "id missing in request body") && items == old(items)
      // an item not found is inserted with the request's id and type, starred by the caller or by nobody
      ensures caller.Some? && body.Some? && body.value.id != "" && (lookupFails || body.value.id !in old(items)) ==>
        var p, uid := body.value, caller.value.id;
        var kind := if p.kind == "" then "chart" else p.kind;
        var ids := if p.hasStarred then [uid] else [];
        if writeFails || p.id in old(items) then
          resp == Error(StatusInternalServerError, "internal server error") && items == old(items)
        else
          && resp == Data(StatusCreated, Item(p.id, kind, ids, p.stargazersCount, p.hasStarred, []))
          && items == old(items)[p.id := Item(p.id, kind, ids, 0, false, [])]
      // starring an item the caller already starred writes nothing
      ensures caller.Some? && body.Some? && body.value.id != "" && !lookupFails && body.value.id in old(items)
              && body.value.hasStarred && caller.value.id in old(items)[body.value.id].stargazersIds ==>
        resp == Data(StatusOK, old(items)[body.value.id]) && items == old(items)
      // otherwise one update pushes or pulls the caller's id; the response is the item as read
      ensures caller.Some? && body.Some? && body.value.id != "" && !lookupFails && body.value.id in old(items)
              && !(body.value.hasStarred && caller.value.id in old(items)[body.value.id].stargazersIds) ==>
        var p, uid := body.value, caller.value.id;
        var it := old(items)[p.id];
        if writeFails then
          resp == Error(StatusInternalServerError, "internal server error") && items == old(items)
        else
          && resp == Data(StatusCreated, it)
          && items == old(items)[p.id := it.(stargazersIds := StarList(it.stargazersIds, uid, p.hasStarred))]
      // no request puts a second copy of an id into a stargazer list
      ensures forall k :: k in old(items) && NoDup(old(items)[k].stargazersIds) ==> k in items && NoDup(items[k].stargazersIds)
    {
      if caller.None? {
        return Error(StatusUnauthorized, "unauthorized");
      }
      var user := caller.value;
      if body.None? {
        return Error(StatusBadRequest, "could not parse request body");
      }
      var params := body.value;
      if params.id == "" {
        return Error(StatusBadRequest, "id missing in request body");
      }
      if params.kind == "" {
        params := params.(kind := "chart");
      }
      if lookupFails || params.id !in items {
        var it := Item(params.id, params.kind, [], params.stargazersCount, params.hasStarred, []);
        if params.hasStarred {
          it := it.(stargazersIds := [user.id]);
        }
        // the insert fails on an id that is already stored
        if writeFails || it.id in items {
          return Error(StatusInternalServerError, "internal server error");
        }
        items := items[it.id := it.(stargazersCount := 0, hasStarred := false)];
        resp := Data(StatusCreated, it);
      } else {
        var it := items[params.id];
        var push := false;
        if params.hasStarred {
          if StarredBy(it.stargazersIds, user.id) {
            return Data(StatusOK, it);
          }
          push := true;
        }
        if writeFails {
          return Error(StatusInternalServerError, "internal server error");
        }
        var ids := if push then it.stargazersIds + [user.id] else Pull(it.stargazersIds, user.id);
        items := items[it.id := it.(stargazersIds := ids)];
        resp := Data(StatusCreated, it);
      }
    }

    /**
     * `GetComments`: the comments of the item the path names, in the order
     * they were added, each author with the avatar derived from the e-mail
     * address; no comments when the item is not stored.
     */
    method GetComments(params: Params, gravatar: string -> string, lookupFails: bool) returns (resp: Response<seq<Comment>>)
      requires Valid()
      ensures resp.Data? && resp.code == StatusOK
      ensures lookupFails || ItemId(params) !in items ==> resp.data == []
      ensures !lookupFails && ItemId(params) in items ==>
        var cs := items[ItemId(params)].comments;
        |resp.data| == |cs| && forall i :: 0 <= i < |cs| ==> resp.data[i] == WithAvatar(cs[i], gravatar)
    {
      var id := ItemId(params);
      if lookupFails || id !in items {
        return Data(StatusOK, []);
      }
      var cs := items[id].comments;
      var i := 0;
      while i < |cs|
        invariant 0 <= i <= |cs| == |items[id].comments|
        invariant forall j :: 0 <= j < i ==> cs[j] == WithAvatar(items[id].comments[j], gravatar)
        invariant forall j :: i <= j < |cs| ==> cs[j] == items[id].comments[j]
      {
        cs := cs[i := WithAvatar(cs[i], gravatar)];
        i := i + 1;
      }
      resp := Data(StatusOK, cs);
    }

    /**
     * `CreateComment`: appends a comment by the caller to the item the path
     * names, creating a "chart" item when it is not stored yet.
     */
    method CreateComment(caller: Option<User>, body: Option<CommentBody>, params: Params,
                         newId: ObjectId, now: Timestamp, gravatar: string -> string,
                         lookupFails: bool, writeFails: bool)
      returns (resp: Response<Comment>)
      requires Valid()
      modifies this
      ensures Valid()
      ensures caller.None? ==> resp == Error(StatusUnauthorized, "unauthorized") && items == old(items)
      ensures caller.Some? && body.None? ==>
        resp == Error(StatusBadRequest, "could not parse request body") && items == old(items)
      ensures caller.Some? && body.Some? && body.value.text == "" ==>
        resp == Error(StatusBadRequest, "text missing in request body") && items == old(items)
      ensures caller.Some? && body.Some? && body.value.text != "" ==>
        var cm := Comment(newId, body.value.text, now, caller.value);
        var id := ItemId(params);
        if writeFails || (lookupFails && id in old(items)) then
          resp == Error(StatusInternalServerError, "internal server error") && items == old(items)
        else
          && resp == Data(StatusCreated, WithAvatar(cm, gravatar))
          && id in items
          && items == old(items)[id := if id in old(items)
                                       then old(items)[id].(comments := old(items)[id].comments + [Stored(cm)])
                                       else Item(id, "chart", [], 0, false, [Stored(cm)])]
    {
      if caller.None? {
        return Error(StatusUnauthorized, "unauthorized");
      }
      if body.None? {
        return Error(StatusBadRequest, "could not parse request body");
      }
      if body.value.text == "" {
        return Error(StatusBadRequest, "text missing in request body");
      }
      var cm := Comment(newId, body.value.text, now, caller.value);
      var id := ItemId(params);
      if lookupFails || id !in items {
        // the insert fails on an id that is already stored
        if writeFails || id in items {
          return Error(StatusInternalServerError, "internal server error");
        }
        items := items[id := Item(id, "chart", [], 0, false, [Stored(cm)])];
      } else {
        if writeFails {
          return Error(StatusInternalServerError, "internal server error");
        }
        var it := items[id];
        items := items[id := it.(comments := it.comments + [Stored(cm)])];
      }
      resp := Data(StatusCreated, WithAvatar(cm, gravatar));
    }

    /**
     * `DeleteComment`: removes the comment with the given id from the item
     * the path names, if the caller wrote it.
     */
    method DeleteComment(caller: Option<User>, params: Params, commentId: ObjectId, lookupFails: bool, writeFails: bool)
      returns (resp: Response<Comment>)
      requires Valid()
      modifies this
      ensures Valid()
      ensures caller.None? ==> resp == Error(StatusUnauthorized, "unauthorized") && items == old(items)
      ensures caller.Some? && (lookupFails || ItemId(params) !in old(items)) ==>
        resp == Error(StatusNotFound, "comment not found") && items == old(items)
      ensures caller.Some? && !lookupFails && ItemId(params) in old(items)
              && (forall c :: c in old(items)[ItemId(params)].comments ==> c.id != commentId) ==>
        resp == Error(StatusNotFound, "comment not found") && items == old(items)
      ensures caller.Some? && !lookupFails && ItemId(params) in old(items)
              && FindComment(old(items)[ItemId(params)].comments, commentId).Some? ==>
        var it := old(items)[ItemId(params)];
        var cm := FindComment(it.comments, commentId).value;
        if cm.author.id != caller.value.id then
          resp == Error(StatusUnauthorized, "not authorized to delete this comment") && items == old(items)
        else if writeFails then
          resp == Error(StatusInternalServerError, "internal server error") && items == old(items)
        else
          && resp == Data(StatusAccepted, cm)
          && items == old(items)[it.id := it.(comments := Pull(it.comments, cm))]
    {
      var id := ItemId(params);
      if caller.None? {
        return Error(StatusUnauthorized, "unauthorized");
      }
      if lookupFails || id !in items {
        return Error(StatusNotFound, "comment not found");
      }
      var it := items[id];
      var found := FindComment(it.comments, commentId);
      if found.None? {
        return Error(StatusNotFound, "comment not found");
      }
      var cm := found.value;
      if cm.author.id != caller.value.id {
        return Error(StatusUnauthorized, "not authorized to delete this comment");
      }
      if writeFails {
        return Error(StatusInternalServerError, "internal server error");
      }
      PullMembership(it.comments, cm);
      items := items[it.id := it.(comments := Pull(it.comments, cm))];
      resp := Data(StatusAccepted, cm);
    }
  }
}
