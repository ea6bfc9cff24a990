# Post mutation pipeline of the blog API

This project models the server side of the blog API's post resource: the
Express router for `/post` and the post controller behind it. A request first
runs the middleware the route table puts in front of it: the token check
(`validateToken`), then the admin-role check (`isAdmin`). The list and
get-by-id routes have no middleware. The controller then fetches the post.
It answers 404 if the post is missing and 403 if the post's `createBy` is not
the `userID` path parameter. Otherwise it mutates the store and responds.

The model is functional:

- The post collection is an immutable `map<PostId, Post>`.
- Every controller handler is a pure function from its path parameters, body
  and store to a `Reply`, which holds the response (status and body) and the
  store afterwards.
- The router is `PostRoutes.Dispatch`. It runs a middleware chain
  (`RunGuards`) and then the handler (`Handle`).

Modules:

- `Posts` (`posts.dfy`): the documents, request bodies, responses and status
  codes. It also holds the store's listing order.
- `PostController` (`controller.dfy`): the five handlers, with lemmas that relate
  calls to one another (round trips, inverse, idempotence).
- `PostRoutes` (`routes.dfy`): the route table, the middleware chain and
  dispatch, with the ordering and authorisation lemmas.

Modelling choices:

- Ids and user ids are opaque strings. `createBy.toString() !== userID` is
  string inequality.
- A post's `title`, `content` and `author` are `Option<string>`: a key missing
  from the JSON body is `None`. Create stores whatever the body gives. Update
  replaces only the keys the body carries, because Mongoose 6 and later drop
  undefined keys from an update (see "Left out" for earlier versions).
- A `createBy` in the body is carried in `PostBody`. Create destructures it
  from the body (`BE/src/controllers/post.js:7`) but never uses it, and update
  does not destructure it at all.
- The store picks new ids. Create takes `freshId` with the precondition
  `freshId !in store`.
- `find()` returns documents in the store's own order. That order is an input,
  `order`, required to list every stored id exactly once.
  `Posts.EnumerateStore` shows that such an order exists for every store.
- `fault` stands for the store throwing during the request. Each handler tests
  it first, so a faulty request answers 500 with the handler's own message
  before any 404 or 403, as when the initial `findById` throws, and the store
  is unchanged. A throw from the later write, after both checks passed, gives
  the same reply, so the one flag covers it too (the first `ensures` of
  `PostController.Update` and of `PostController.Delete`).
- The middleware bodies are not part of this model. They are two abstract
  functions:
  - `validateToken`: credential → identity option;
  - `isAdmin`: identity → bool.

  The model assumes that a rejecting middleware answers 401 (token) or 403
  (role). It does not fix that response's body (`Rejected`).

Two facts about the code shape the model:

- Posts carry no category. Create and update use only `title`, `content` and
  `author` from the body (`BE/src/controllers/post.js:7`, `:50`).
- The ownership check compares the post's `createBy` with the `userID` path
  parameter, not with the identity in the token. Nothing in the router or the
  controller ties the two together. `PostRoutes.PathUserDecidesOwnership`
  states the consequence: once a token names an admin, the identity it names
  makes no difference to the reply. Whether the middleware compares them is
  not visible, because `middlewares/users.js` is not part of this model.

## Model

| member | source | states |
|---|---|---|
| Posts.EnumerationLength | BE/src/controllers/post.js:29-30 | a listing that names every stored id once has exactly as many entries as the store has posts |
| Posts.EnumerateStore | BE/src/controllers/post.js:29 | every store has an enumeration order that lists each stored id exactly once (what `find()` walks) |
| PostController.Create | BE/src/controllers/post.js:4-25 | a successful create adds exactly one post, under the fresh id, with the body's title, content and author and `createBy` equal to the path `userID`; it answers 201 with that document and no other post changes; a store failure answers 500 "Failed" and changes nothing |
| PostController.GetPost | BE/src/controllers/post.js:27-36 | the list answers 200 with one entry per stored post, each entry being a stored post under its own id and every stored post appearing; the store is not changed; a store failure answers 500 "Failed" |
| PostController.GetPostById | BE/src/controllers/post.js:38-47 | an absent id answers 404 "Post not found", a present one answers 200 with the stored post; the store is not changed |
| PostController.Update | BE/src/controllers/post.js:49-79 | 404 for an absent id and 403 for a path user other than the creator, both leaving the store unchanged; 200 exactly when the post exists and the path user created it, in which case only that post's present fields are replaced, `createBy` and every other post are kept, and the response is the updated document |
| PostController.Delete | BE/src/controllers/post.js:81-107 | 404 for an absent id and 403 for a non-creator, both leaving the store unchanged; 200 exactly when the post exists and the path user created it, in which case exactly that post is removed and the answer is the confirmation message |
| PostController.Patch | BE/src/controllers/post.js:68-71 | each of `title`, `content` and `author` that the update body carries becomes the stored value, and each it leaves out keeps the stored value (undefined keys are dropped from the update, as in Mongoose 6 and later) |
| PostController.PatchIdempotent | BE/src/controllers/post.js:68-71 | writing the same `{ title, content, author }` update twice leaves the same fields as writing it once |
| PostController.PatchEmptyKeeps | BE/src/controllers/post.js:68-71 | an update body without any of the three keys leaves the stored fields as they were |
| PostController.GetPostEmpty | BE/src/controllers/post.js:29-30 | an empty store lists as an empty array with status 200, not an error |
| PostController.BodyCreateByIgnored | BE/src/controllers/post.js:7-15 | a `createBy` the client puts in the body has no effect on create or on update |
| PostController.CreateThenGet | BE/src/controllers/post.js:10-18 | fetching a just-created post by its new id returns the body's fields with the path user as creator |
| PostController.CreateThenDelete | BE/src/controllers/post.js:86-103 | the creator deleting a post just created restores the store exactly as it was before the create |
| PostController.DeleteThenGet | BE/src/controllers/post.js:99-103 | after a successful delete, fetching the same id answers 404 "Post not found" |
| PostController.MissingPostIgnoresCaller | BE/src/controllers/post.js:55-60 | for an absent id, update and delete answer 404 and their reply does not depend on which user asks: the ownership comparison is never reached |
| PostController.UpdateThenGet | BE/src/controllers/post.js:68-73 | after the creator's update, fetching the post returns the patched fields with the same creator |
| PostController.UpdateIdempotent | BE/src/controllers/post.js:62-73 | repeating an update gives the same response and leaves the same store as the first one |
| PostController.OwnerScenario | BE/src/controllers/post.js:10-73 | user u1 creates `{A, B, C}` and gets `createBy` u1; u2's update is answered 403 with the store unchanged; u1's update of the title to A2 answers 200 with title A2, the other fields kept and `createBy` still u1 |
| PostRoutes.Guards | BE/src/routes/post.js:6-12 | the route table: create, update and delete are preceded by exactly the chain `validateToken` then `isAdmin`, and a route has no middleware exactly when it is list or get-by-id |
| PostRoutes.RunGuards | BE/src/routes/post.js:6-12 | a middleware chain that passes has a valid token whenever the token check is in it, and it carries that token's identity; a chain that starts with the token check and gets an invalid credential answers 401 whatever follows; rejections are 401 or 403 |
| PostRoutes.Handle | BE/src/routes/post.js:6-12 | the route table's hand-off to the controller: the two read routes (list and get-by-id) never change the store |
| PostRoutes.Dispatch | BE/src/routes/post.js:6-12 | the store changes only on a guarded route whose credential is valid and names an admin; a guarded route without such a credential is rejected before its controller, and the store is unchanged |
| PostRoutes.GuardChainMeansAdmits | BE/src/routes/post.js:6 | the `validateToken` → `isAdmin` chain passes exactly when the credential is valid and its identity is an admin |
| PostRoutes.TokenFailureShortCircuits | BE/src/routes/post.js:6-12 | if the token check fails on a guarded route, the reply is 401 with the store unchanged, whatever the admin check would say |
| PostRoutes.NonAdminRejected | BE/src/routes/post.js:6-12 | a valid token naming a non-admin is answered 403 on every guarded route, before the controller and with the store unchanged |
| PostRoutes.CreateNeedsTokenAndAdmin | BE/src/routes/post.js:6 | create answers 201 exactly when the token check and then the admin check pass, and then stores the body's fields owned by the path user |
| PostRoutes.UpdateNeedsAllThreeChecks | BE/src/routes/post.js:11 | update answers 200 exactly when the token is valid, names an admin, the post exists and the path user created it; otherwise the store is unchanged |
| PostRoutes.DeleteNeedsAllThreeChecks | BE/src/routes/post.js:12 | delete answers 200 exactly when the token is valid, names an admin, the post exists and the path user created it; then only that post is removed, and otherwise nothing is |
| PostRoutes.AdminNonCreatorRejected | BE/src/controllers/post.js:62-66 | a path `userID` other than the post's `createBy` gets 403 from update and from delete, with the store unchanged, whichever admin's token is presented; the token's own identity is not compared (see `PostRoutes.PathUserDecidesOwnership`) |
| PostRoutes.ReadRoutesArePublic | BE/src/routes/post.js:8-9 | list and get-by-id give the same reply whatever the credential and whatever the middleware would decide, and never change the store |
| PostRoutes.PathUserDecidesOwnership | BE/src/routes/post.js:11-12 | once the middleware admits a request, which identity the token carried makes no difference to the reply: ownership is judged on the path `userID` |

## Left out

- The bodies of `validateToken` and `isAdmin` (`middlewares/users.js` is not
  part of this model): they are abstract functions. Their rejection status
  codes 401 and 403 are an assumption of this model, and their response
  bodies are not modelled.
- Mongoose schema validation (`models/post.js` is not part of this model). A
  create whose body lacks a field the schema requires would answer 500. The
  model stores the missing field as `None` and answers 201.
- Mongoose id casting. A malformed `postID` or `userID` would make `findById`
  or `save` throw, which answers 500. The model treats ids as opaque strings.
- Id generation and the automatic `createdAt`/`updatedAt` timestamps: the
  fresh id is an input, and timestamps are not modelled.
- A JSON `null` sent for a field: the model has only present or absent keys.
- Store failures are one flag per request. The model does not say which store
  call threw; every placement gives the same 500 reply with the store
  unchanged.
- Mongoose 5 and earlier: there an undefined key in an update is written as
  `null` instead of being dropped. The Mongoose version is not in the source.
  The model assumes version 6 or later.
- An `update` request without a parsed body. The `req.body` destructuring sits
  outside the `try` in `update` (`BE/src/controllers/post.js:50-51`) but inside
  it in `create` (`:5-7`). So a missing `req.body` makes `update` throw past its
  own handler, and no "Failed to update post" is sent. `PostBody` always has a
  value, so the model cannot express this case.
- The race between `findById` and `findByIdAndUpdate`/`findByIdAndDelete`:
  each handler is atomic. The `res.json(null)` a concurrent delete could cause
  in update is therefore not modelled.
- `BE/src/routes/index.js` only mounts the router under `/post`.
- Categories, comments and likes: their controllers are not part of this
  model.
- The client pages under `FE/` are presentation code with no server-side
  guarantees.
