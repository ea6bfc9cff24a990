/**
 The post controller: create, list, get-by-id, update and delete over the
 document store. Every handler is a pure function from the request's
 parameters and the store to a response and the store afterwards. The flag
 `fault` stands for the store throwing during the request; the handler then
 answers 500 with its own message and the store is left as it was.
 */
module PostController {
  import opened Posts

  const POST_NOT_FOUND := "Post not found"
  const UPDATE_FORBIDDEN := "Unauthorized access: You can only update posts you created"
  const DELETE_FORBIDDEN := "Unauthorized access: You can only delete posts you created"
  const DELETED := "Post deleted successfully"
  const CREATE_FAILED := "Failed"
  const LIST_FAILED := "Failed"
  const FETCH_FAILED := "Failed to fetch post"
  const UPDATE_FAILED := "Failed to update post"
  const DELETE_FAILED := "Failed to delete post"

  /** One field of an update: a key the body carries replaces the stored value, a missing key keeps it. */
  function PatchField(stored: Option<string>, given: Option<string>): Option<string> {
    if given.Some? then given else stored
  }

  /** The stored fields after an update whose body carries `given`. */
  function Patch(stored: Fields, given: Fields): (r: Fields)
    ensures given.title.Some? ==> r.title == given.title
    ensures given.title.None? ==> r.title == stored.title
    ensures given.content.Some? ==> r.content == given.content
    ensures given.content.None? ==> r.content == stored.content
    ensures given.author.Some? ==> r.author == given.author
    ensures given.author.None? ==> r.author == stored.author
  {
    Fields(PatchField(stored.title, given.title),
           PatchField(stored.content, given.content),
           PatchField(stored.author, given.author))
  }

  /** Applying the same update body twice changes nothing the first application did not. */
  lemma PatchIdempotent(stored: Fields, given: Fields)
    ensures Patch(Patch(stored, given), given) == Patch(stored, given)
  {
  }

  /** An update body that carries none of the three keys leaves the fields as they were. */
  lemma PatchEmptyKeeps(stored: Fields)
    ensures Patch(stored, Fields(None, None, None)) == stored
  {
  }

  /** POST /create/:userID. The new post's owner is the path parameter; any `createBy` in the body is ignored. */
  function Create(userID: UserId, body: PostBody, freshId: PostId, store: Store, fault: bool): (r: Reply)
    requires freshId !in store
    ensures fault ==> r.store == store && r.response == Response(SERVER_ERROR, Message(CREATE_FAILED))
    ensures !fault ==> r.store.Keys == store.Keys + {freshId}
    ensures !fault ==> r.store[freshId].createBy == userID && r.store[freshId].fields == body.fields
    ensures !fault ==> r.response == Response(CREATED, Doc(Document(freshId, r.store[freshId])))
    ensures AgreeExcept(store, r.store, freshId)
    ensures !fault ==> |r.store| == |store| + 1
  {
    if fault then Reply(Response(SERVER_ERROR, Message(CREATE_FAILED)), store)
    else
      var post := Post(body.fields, userID);
      Reply(Response(CREATED, Doc(Document(freshId, post))), store[freshId := post])
  }

  /** GET /getPost. Every stored post, once each, in the store's order `order`; no filter, no paging. */
  function GetPost(store: Store, order: seq<PostId>, fault: bool): (r: Reply)
    requires Enumerates(order, store.Keys)
    ensures r.store == store
    ensures fault ==> r.response == Response(SERVER_ERROR, Message(LIST_FAILED))
    ensures !fault ==> r.response.status == OK && r.response.body.Docs?
    ensures !fault ==> |r.response.body.docs| == |store|
    ensures !fault ==> forall i :: 0 <= i < |r.response.body.docs| ==>
      var d := r.response.body.docs[i]; d.id in store && d.post == store[d.id]
    ensures !fault ==> forall id :: id in store ==>
      exists i :: 0 <= i < |r.response.body.docs| && r.response.body.docs[i] == Document(id, store[id])
  {
    if fault then Reply(Response(SERVER_ERROR, Message(LIST_FAILED)), store)
    else
      EnumerationLength(order, store.Keys);
      var docs := seq(|order|, i requires 0 <= i < |order| => Document(order[i], store[order[i]]));
      assert forall id :: id in store ==> exists i :: 0 <= i < |order| && order[i] == id && docs[i] == Document(id, store[id]);
      Reply(Response(OK, Docs(docs)), store)
  }

  /** GET /getPostByID/:postID. */
  function GetPostById(postID: PostId, store: Store, fault: bool): (r: Reply)
    ensures r.store == store
    ensures fault ==> r.response == Response(SERVER_ERROR, Message(FETCH_FAILED))
    ensures !fault && postID !in store ==> r.response == Response(NOT_FOUND, Message(POST_NOT_FOUND))
    ensures !fault && postID in store ==> r.response == Response(OK, Doc(Document(postID, store[postID])))
  {
    if fault then Reply(Response(SERVER_ERROR, Message(FETCH_FAILED)), store)
    else if postID !in store then Reply(Response(NOT_FOUND, Message(POST_NOT_FOUND)), store)
    else Reply(Response(OK, Doc(Document(postID, store[postID]))), store)
  }

  /** PUT /updatePost/:userID/:postID. Existence is checked first, ownership second, and only then the patch is written. */
  function Update(userID: UserId, postID: PostId, body: PostBody, store: Store, fault: bool): (r: Reply)
    ensures fault ==> r == Reply(Response(SERVER_ERROR, Message(UPDATE_FAILED)), store)
    ensures !fault && postID !in store ==> r == Reply(Response(NOT_FOUND, Message(POST_NOT_FOUND)), store)
    ensures !fault && postID in store && store[postID].createBy != userID ==>
      r == Reply(Response(FORBIDDEN, Message(UPDATE_FORBIDDEN)), store)
    ensures r.response.status == OK <==> !fault && postID in store && store[postID].createBy == userID
    ensures r.response.status == OK ==>
      && r.store.Keys == store.Keys
      && r.store[postID].createBy == store[postID].createBy
      && r.store[postID].fields == Patch(store[postID].fields, body.fields)
      && r.response.body == Doc(Document(postID, r.store[postID]))
    ensures AgreeExcept(store, r.store, postID)
  {
    if fault then Reply(Response(SERVER_ERROR, Message(UPDATE_FAILED)), store)
    else if postID !in store then Reply(Response(NOT_FOUND, Message(POST_NOT_FOUND)), store)
    else
      var post := store[postID];
      if post.createBy != userID then Reply(Response(FORBIDDEN, Message(UPDATE_FORBIDDEN)), store)
      else
        var updated := Post(Patch(post.fields, body.fields), post.createBy);
        Reply(Response(OK, Doc(Document(postID, updated))), store[postID := updated])
  }

  /** DELETE /deletePost/:userID/:postID. Same order of checks as update; answers with a confirmation, not the post. */
  function Delete(userID: UserId, postID: PostId, store: Store, fault: bool): (r: Reply)
    ensures fault ==> r == Reply(Response(SERVER_ERROR, Message(DELETE_FAILED)), store)
    ensures !fault && postID !in store ==> r == Reply(Response(NOT_FOUND, Message(POST_NOT_FOUND)), store)
    ensures !fault && postID in store && store[postID].createBy != userID ==>
      r == Reply(Response(FORBIDDEN, Message(DELETE_FORBIDDEN)), store)
    ensures r.response.status == OK <==> !fault && postID in store && store[postID].createBy == userID
    ensures r.response.status == OK ==>
      r.store.Keys == store.Keys - {postID} && r.response.body == Message(DELETED)
    ensures AgreeExcept(store, r.store, postID)
  {
    if fault then Reply(Response(SERVER_ERROR, Message(DELETE_FAILED)), store)
    else if postID !in store then Reply(Response(NOT_FOUND, Message(POST_NOT_FOUND)), store)
    else if store[postID].createBy != userID then Reply(Response(FORBIDDEN, Message(DELETE_FORBIDDEN)), store)
    else Reply(Response(OK, Message(DELETED)), store - {postID})
  }

  // Properties relating several handler calls.

  /** On an empty store the list is empty, not an error. */
  lemma GetPostEmpty(order: seq<PostId>)
    requires Enumerates(order, {})
    ensures GetPost(map[], order, false).response == Response(OK, Docs([]))
  {
    EnumerationLength(order, {});
  }

  /** What the client sends as `createBy` has no effect on create or update. */
  lemma BodyCreateByIgnored(userID: UserId, postID: PostId, fields: Fields, claimed: Option<UserId>, store: Store, fault: bool)
    ensures postID !in store ==>
      Create(userID, PostBody(fields, claimed), postID, store, fault) == Create(userID, PostBody(fields, None), postID, store, fault)
    ensures Update(userID, postID, PostBody(fields, claimed), store, fault) == Update(userID, postID, PostBody(fields, None), store, fault)
  {
  }

  /** Round trip: a post just created is found under its new id, owned by the creating path user. */
  lemma CreateThenGet(userID: UserId, body: PostBody, freshId: PostId, store: Store)
    requires freshId !in store
    ensures GetPostById(freshId, Create(userID, body, freshId, store, false).store, false).response
         == Response(OK, Doc(Document(freshId, Post(body.fields, userID))))
  {
  }

  /** Deleting a post its creator just created gives back the store as it was before. */
  lemma CreateThenDelete(userID: UserId, body: PostBody, freshId: PostId, store: Store)
    requires freshId !in store
    ensures var created := Create(userID, body, freshId, store, false).store;
      Delete(userID, freshId, created, false).store == store
  {
    var created := Create(userID, body, freshId, store, false).store;
    assert created - {freshId} == store;
  }

  /** After a successful delete the post is gone: fetching it answers 404. */
  lemma DeleteThenGet(userID: UserId, postID: PostId, store: Store)
    requires Delete(userID, postID, store, false).response.status == OK
    ensures GetPostById(postID, Delete(userID, postID, store, false).store, false).response
         == Response(NOT_FOUND, Message(POST_NOT_FOUND))
  {
  }

  /** A missing post answers 404 whoever asks: ownership is never compared against a missing post. */
  lemma MissingPostIgnoresCaller(u1: UserId, u2: UserId, postID: PostId, body: PostBody, store: Store)
    requires postID !in store
    ensures Update(u1, postID, body, store, false) == Update(u2, postID, body, store, false)
    ensures Delete(u1, postID, store, false) == Delete(u2, postID, store, false)
    ensures Update(u1, postID, body, store, false).response.status == NOT_FOUND
    ensures Delete(u1, postID, store, false).response.status == NOT_FOUND
  {
  }

  /** Round trip: after a successful update a fetch returns the patched post with its owner unchanged. */
  lemma UpdateThenGet(userID: UserId, postID: PostId, body: PostBody, store: Store)
    requires postID in store && store[postID].createBy == userID
    ensures GetPostById(postID, Update(userID, postID, body, store, false).store, false).response
         == Response(OK, Doc(Document(postID, Post(Patch(store[postID].fields, body.fields), userID))))
  {
  }

  /** Sending the same update twice leaves the store as sending it once. */
  lemma UpdateIdempotent(userID: UserId, postID: PostId, body: PostBody, store: Store)
    ensures var once := Update(userID, postID, body, store, false);
      Update(userID, postID, body, once.store, false) == Reply(once.response, once.store)
  {
    var once := Update(userID, postID, body, store, false);
    if postID in store && store[postID].createBy == userID {
      PatchIdempotent(store[postID].fields, body.fields);
      assert once.store[postID := once.store[postID]] == once.store;
    }
  }

  /** A worked scenario: u1 creates a post, u2 may not update it, u1 may, and the owner stays u1. */
  lemma OwnerScenario(store: Store, freshId: PostId)
    requires freshId !in store
    ensures var created := Create("u1", PostBody(Fields(Some("A"), Some("B"), Some("C")), None), freshId, store, false);
      && created.response.body.doc.post.createBy == "u1"
      && Update("u2", freshId, PostBody(Fields(Some("A2"), None, None), None), created.store, false)
         == Reply(Response(FORBIDDEN, Message(UPDATE_FORBIDDEN)), created.store)
      && Update("u1", freshId, PostBody(Fields(Some("A2"), None, None), None), created.store, false).response
         == Response(OK, Doc(Document(freshId, Post(Fields(Some("A2"), Some("B"), Some("C")), "u1"))))
  {
  }
}
