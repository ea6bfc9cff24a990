/**
 The data model of the blog API's post resource: the documents the store
 holds, the request bodies the controller reads and the responses it sends.
 */
module Posts {

  type UserId = string
  type PostId = string

  /** A value that may be absent: a JSON key the client left out, or a failed lookup. */
  datatype Option<+T> = None | Some(value: T)

  /** The editable fields of a post. A key missing from a request body is None. */
  datatype Fields = Fields(title: Option<string>, content: Option<string>, author: Option<string>)

  /** A stored post. `createBy` is the owning user and never changes after creation. */
  datatype Post = Post(fields: Fields, createBy: UserId)

  /** A post as the store returns it, together with its generated id. */
  datatype Document = Document(id: PostId, post: Post)

  /** The document store's post collection. */
  type Store = map<PostId, Post>

  /** The JSON body of a create or update request. A `createBy` the client sends is carried but never read. */
  datatype PostBody = PostBody(fields: Fields, createBy: Option<UserId>)

  /** What a response carries: one document, a list of them, a `{ message }` object,
      or whatever a rejecting middleware sends (its text is not part of this model). */
  datatype Body = Doc(doc: Document) | Docs(docs: seq<Document>) | Message(text: string) | Rejected

  datatype Response = Response(status: nat, body: Body)

  /** A handler's outcome: the response and the store after the request. */
  datatype Reply = Reply(response: Response, store: Store)

  const OK: nat := 200
  const CREATED: nat := 201
  const UNAUTHORIZED: nat := 401
  const FORBIDDEN: nat := 403
  const NOT_FOUND: nat := 404
  const SERVER_ERROR: nat := 500

  /** `order` lists every key of `keys` exactly once: a possible enumeration order of the store. */
  ghost predicate Enumerates(order: seq<PostId>, keys: set<PostId>) {
    && (forall i, j :: 0 <= i < j < |order| ==> order[i] != order[j])
    && (forall id :: id in order <==> id in keys)
  }

  /** `after` agrees with `before` on every id other than `id`. */
  ghost predicate AgreeExcept(before: Store, after: Store, id: PostId) {
    forall k :: k != id ==> (k in before <==> k in after) && (k in before ==> before[k] == after[k])
  }

  /** An enumeration lists as many ids as there are keys. */
  lemma {:induction false} EnumerationLength(order: seq<PostId>, keys: set<PostId>)
    requires Enumerates(order, keys)
    ensures |order| == |keys|
  {
    if order != [] {
      var last := order[|order| - 1];
      var rest := order[..|order| - 1];
      assert last !in rest;
      assert forall id :: id in rest <==> id in order && id != last;
      EnumerationLength(rest, keys - {last});
    }
  }

  /** Some enumeration exists for every store: the store's own order is one of them. */
  method EnumerateStore(store: Store) returns (order: seq<PostId>)
    ensures Enumerates(order, store.Keys)
  {
    order := [];
    var rest := store.Keys;
    while rest != {}
      invariant rest <= store.Keys
      invariant forall i, j :: 0 <= i < j < |order| ==> order[i] != order[j]
      invariant forall id :: id in order <==> id in store && id !in rest
      decreases |rest|
    {
      var id :| id in rest;
      order := order + [id];
      rest := rest - {id};
    }
  }
}
