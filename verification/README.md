# Engagement handlers of the rating service, in Dafny

This project models the handlers of the rating service in `handler.go`. They let users star catalog items and comment on them.

Items live in a document store under a human-readable id such as `"stable/wordpress"`. Each item holds:
- its type (`"chart"` by default);
- the list of its stargazers' ids;
- the list of its comments, in the order they were added.

Each comment has an object id, a text, a creation time and an author.

Two item fields appear only in responses and are never stored:
- the star count;
- whether the caller starred the item.

The same goes for the author's avatar URL.

## Files

- `wrappers.dfy`, module `Wrappers`: the `Option` type.
- `updates.dfy`, module `Updates`: the store's two array operators.
  - `$push` appends a value.
  - `$pull` (`Pull`) removes every element equal to a value.
  - The module also holds the lemmas about these operators: order kept, idempotence, push-then-pull round trip, no duplicates created.
- `handler.dfy`, module `Handler`: the item, user and comment types; the `hasStarred` search (`StarredBy`); the comment search (`FindComment`); and the class `Store`.
  - `Store` holds the store as `items: map<string, Item>`.
  - `Valid()` says that every item sits under its own id and holds no response-only field.
  - Each handler is a method of `Store`: `GetStars`, `UpdateStar`, `GetComments`, `CreateComment` and `DeleteComment`.
- `scenarios.dfy`, module `Scenarios`: request sequences proved from the handlers' contracts alone.
  - Starring twice.
  - Star then unstar.
  - Comment then list.
  - Comment then delete.

## How the handlers are modelled

A handler's collaborators come in as already-evaluated parameters:
- the caller, `Option<User>`, which is `None` when the signed cookie does not resolve;
- the decoded request body, `None` when it does not decode;
- the path parameters, `map<string, string>`, where a missing name reads as `""`, as a Go map lookup does;
- the fresh object id and the clock reading;
- the avatar derivation, a function of the e-mail address;
- whether the store's calls fail: the read of all items, the lookup of one item, and the write.

A failed lookup of one item reads as "not stored", as in the handlers. So:
- `GetComments` answers 200 with no comments;
- `DeleteComment` answers 404;
- `UpdateStar` and `CreateComment` insert the item again. For an item that is in fact stored, the store refuses the duplicate id, and the answer is 500 with no change.

The answer is a `Response`: either `Data(code, data)` or `Error(code, message)`. The status codes and messages are those of the source.

Each handler changes the map the way its single store call does:
- an insert adds one item;
- a `$push` appends to one list of one item;
- a `$pull` filters one list of one item.

Points where the model follows the code closely:
- When `UpdateStar` finds the item, it answers with the item **as read, before the update**. Stored items carry no star count and no `has_starred` flag, so these read as 0 and false in that response.
- When `UpdateStar` inserts an item, it answers with the request's own fields. These include `has_starred` and any `stargazers_count` the body carried. Neither is stored.
- An empty `type` becomes `"chart"` before the store is consulted.
- A comment route addresses the item `repo + "/" + chartName` (`ItemId`).
- `DeleteComment` detects "comment not found" by comparing with the zero comment. The model uses `Option<Comment>`. `ZeroSentinelAgrees` proves that the two tests agree for every non-empty comment id. A hex-decoded object id is never empty.
- `DeleteComment` pulls the comment by value, so it removes every element equal to the comment found. `DeleteRemovesFound` shows that when the comments are pairwise distinct, this removes just that one.
- Stargazers are a list, not a set. Starring uses `$push` after a membership check, and the count is the list's length.
- Listing the comments of an absent item gives an empty list.

## Model

| member | source | states |
|---|---|---|
| `Handler.StarredBy` | handler.go:331-339 | `hasStarred` is true exactly when the user's id occurs in the stargazer list. It only reads. |
| `Handler.FindComment` | handler.go:263-269 | The search returns nothing exactly when no comment has the id. Otherwise it returns a comment with that id, and no earlier comment has it: the first match, as the `break` gives. |
| `Handler.FindCommentOrZero` | handler.go:263-271 | The zero-value search yields either the zero comment or a comment of the list with the id. When some comment has the id, it yields one of them; when none has, it yields the zero comment. |
| `Handler.ItemId` | handler.go:172 | The item id of a comment route is `repo`, a `/`, then `chartName`: each part can be read back from its position. |
| `Handler.WithAvatar` | handler.go:178-181 | A comment as answered carries the avatar derived from its author's e-mail address. Apart from the avatar it is the comment as stored. |
| `Handler.ZeroSentinelAgrees` | handler.go:263-274 | For a non-empty id, the zero-value test reports "not found" exactly when `FindComment` finds nothing. Otherwise both yield the same comment. |
| `Handler.StarList` | handler.go:146-160 | The stargazer list of an existing item after a star request contains the caller exactly when starring was asked. Every other id keeps its membership. A list without duplicates stays without duplicates. |
| `Handler.StarListIdempotent` | handler.go:146-156 | Repeating a star or unstar request leaves the list where the first request left it. |
| `Handler.StarThenUnstar` | handler.go:146-156 | Starring an item the caller had not starred, then unstarring it, restores the original list. |
| `Handler.DeleteRemovesFound` | handler.go:263-282 | When the comments are pairwise distinct, pulling the found comment shortens the list by one. It removes just that comment and keeps the rest in order. |
| `Handler.Annotated` | handler.go:93-98 | An item as the listing shows it has its star count equal to its stargazer list's length. When a caller is known, `has_starred` says whether the caller is in that list; otherwise the flag stays as read. Every other field is unchanged. |
| `Handler.Store.FindAll` | handler.go:85-86 | Reading all items yields each stored item exactly once, as stored. |
| `Handler.Store.GetStars` | handler.go:81-100 | A fetch failure gives 500. Otherwise the result is 200 with every stored item exactly once. Each item's count equals the length of its stargazer list. `has_starred` holds exactly when a caller resolved and is in the list. Nothing else differs from the stored item. The caller never causes a failure. |
| `Handler.Store.UpdateStar` | handler.go:102-164 | No caller gives 401. An undecodable body or an empty id gives 400. None of these changes the store. An item the lookup does not find is inserted with the request's id and type (defaulting to `"chart"`). Its stargazers are `[caller]` when starring, else empty. The answer is 201 with the request's fields. If the item was stored after all (a failed lookup), the insert is refused with 500. Starring an item already starred by the caller gives 200 with the stored item and no write. Otherwise exactly one push or pull of the caller's id is made, with 201 and the item as read. A write failure gives 500 and no change. Other items are unchanged, and no list gains a duplicate. |
| `Handler.Store.GetComments` | handler.go:166-184 | Always 200. The result is the comments of item `repo/chartName` in stored order, each author's avatar derived from the e-mail. It is empty when the item is absent or its lookup fails. |
| `Handler.Store.CreateComment` | handler.go:186-241 | No caller gives 401. An undecodable body or empty text gives 400. None of these changes the store. Otherwise the comment gets the injected id and time, and the caller as author. It is appended to the item's comments, or becomes the only comment of a new `"chart"` item when the lookup does not find the item. The answer is 201 with the comment and its avatar. A write failure, or an insert of an item that was stored after all, gives 500 and no change. |
| `Handler.Store.DeleteComment` | handler.go:243-287 | No caller gives 401. A missing item, a failed item lookup or a missing comment gives 404. A comment by another user gives 401 "not authorized to delete this comment". None of these changes the store. Otherwise every copy of the found comment is pulled from that item alone, and the answer is 202 with the comment. A write failure gives 500 and no change. |
| `Updates.Pull` | handler.go:156 | `$pull` leaves no copy of the value in the array. |
| `Updates.PullMultiset` | handler.go:156 | `$pull` drops every occurrence of the value and keeps every occurrence of every other value. |
| `Updates.PullMembership` | handler.go:282 | `$pull` keeps every other value the array holds and adds none. |
| `Updates.PullLength` | handler.go:282 | `$pull` shortens the array by the number of occurrences of the value. |
| `Updates.PullConcat` | handler.go:282 | `$pull` distributes over concatenation, so the surviving elements keep their order. |
| `Updates.PullAbsent` | handler.go:156 | Pulling an absent value changes nothing. So unstarring twice equals unstarring once. |
| `Updates.PushThenPull` | handler.go:153-156 | A `$push` of a new value followed by its `$pull` restores the array. |
| `Updates.PullUnique` | handler.go:282 | When a value occurs once, between `before` and `after`, pulling it leaves exactly `before + after`. |
| `Updates.PullAt` | handler.go:282 | In an array without duplicates, pulling the element at `i` removes exactly position `i`. The array is one shorter. |
| `Updates.PullNoDup` | handler.go:156 | `$pull` keeps an array free of duplicates. |
| `Updates.PushNoDup` | handler.go:147-156 | Pushing a value that is not present, which is what the membership check guarantees, keeps an array free of duplicates. |
| `Scenarios.StarTwice` | handler_test.go:127-145 | Two identical star requests: the second answers 200 with the stored item and writes nothing. The store ends as after one request. |
| `Scenarios.StarUnstarRoundTrip` | handler_test.go:106-116 | On an existing item the caller had not starred, star then unstar both answer 201, and the store returns to its prior state. |
| `Scenarios.CommentThenList` | handler_test.go:231-262 | Commenting on "stable/wordpress", stored without comments or not stored at all, answers 201 with the new id, the time and the caller as author. The item's comments are then exactly that comment. |
| `Scenarios.CommentThenDelete` | handler.go:228-282 | A new comment deleted by its author answers 201 then 202, and restores the store. |

## Left out

- Identity resolution (`getCurrentUser`, handler.go:295-321): the cookie lookup, the environment key and the HMAC token check are library and environment calls. The model takes the result as `Option<User>`.
- JSON decoding of request bodies: it comes in as a decoded value, or `None` for a decode error. A body of `null` makes the star handler dereference a nil pointer; that crash is not modelled.
- Decoding the `commentId` path parameter from hex: the id comes in already decoded. A malformed hex string makes the handler panic; that is not modelled.
- The avatar URL (an MD5 hex digest of the e-mail address in a Gravatar URL): it is an injected function `gravatar` of the e-mail address.
- The object-id generator and the clock: they are injected values. The store's rounding of times to milliseconds is not modelled.
- Store failures: the failure of each store call (read of all items, lookup of one item, write) is a boolean parameter. Why a call fails (network, session, timeouts) is left out.
- Error logging is not modelled (handler.go:87, 116, 140, 157, 200, 222, 229).
- Concurrency: each handler runs alone against the map. Two concurrent stars by one user can both pass the membership check and push twice. A sequential model cannot show this.
- `Handler.Store.GetComments`: the source sets each avatar through the author pointer shared with the item it read. The model rebuilds the comment values instead, so it does not capture that aliasing.
- A comment author is a value, not a pointer. A stored comment without an author, which would crash the handlers, is not modelled.
- `main.go` (flags, store session, routes, middleware, server start) and the `response` package (the JSON envelope writer) are not part of this model. A response is the pair of code and data, or code and message.
