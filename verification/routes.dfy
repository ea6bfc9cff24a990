/**
 The post router: which routes first pass the token check and then the
 admin check, and which reach their controller unguarded. The two checks
 are kept abstract: `validateToken` maps the request's credential to an
 identity or to nothing, `isAdmin` decides on an identity.
 */
module PostRoutes {
  import opened Posts
  import PostController

  /** The claims a valid token yields. No controller reads them. */
  datatype Identity = Identity(userId: UserId)

  /** The two middleware checks, as the router sees them. */
  datatype Middleware = Middleware(validateToken: Option<string> -> Option<Identity>, isAdmin: Identity -> bool)

  datatype Guard = ValidateToken | IsAdmin

  /** The five post routes with their path parameters and body. */
  datatype Route =
    | CreatePost(userID: UserId, body: PostBody)
    | ListPosts
    | GetPostById(postID: PostId)
    | UpdatePost(userID: UserId, postID: PostId, body: PostBody)
    | DeletePost(userID: UserId, postID: PostId)

  /** A request: the matched route and the `Authorization` credential, if any. */
  datatype Request = Request(route: Route, credential: Option<string>)

  /** The result of a middleware chain: go on to the controller, or answer now. */
  datatype Gate = Pass(user: Option<Identity>) | Reject(response: Response)

  /** The middleware placed in front of each route's controller, in order. */
  function Guards(route: Route): (g: seq<Guard>)
    ensures g == [] <==> route.ListPosts? || route.GetPostById?
    ensures g != [] ==> g == [ValidateToken, IsAdmin]
  {
    match route
    case CreatePost(_, _) => [ValidateToken, IsAdmin]
    case ListPosts => []
    case GetPostById(_) => []
    case UpdatePost(_, _, _) => [ValidateToken, IsAdmin]
    case DeletePost(_, _) => [ValidateToken, IsAdmin]
  }

  /** Runs a middleware chain left to right; the first check that fails answers and nothing after it runs. */
  function RunGuards(mw: Middleware, guards: seq<Guard>, credential: Option<string>, user: Option<Identity>): (g: Gate)
    ensures g.Reject? ==> g.response.status in {UNAUTHORIZED, FORBIDDEN} && g.response.body == Rejected
    ensures g.Pass? && ValidateToken in guards ==> g.user.Some? && mw.validateToken(credential) == g.user
    ensures g.Pass? && ValidateToken !in guards ==> g.user == user
    ensures g.Pass? && IsAdmin in guards ==> g.user.Some?
    ensures |guards| > 0 && guards[0] == ValidateToken && mw.validateToken(credential).None? ==>
      g == Reject(Response(UNAUTHORIZED, Rejected))
    decreases |guards|
  {
    if guards == [] then Pass(user)
    else
      match guards[0]
      case ValidateToken =>
        (match mw.validateToken(credential)
         case None => Reject(Response(UNAUTHORIZED, Rejected))
         case Some(id) => RunGuards(mw, guards[1..], credential, Some(id)))
      case IsAdmin =>
        if user.Some? && mw.isAdmin(user.value) then RunGuards(mw, guards[1..], credential, user)
        else Reject(Response(FORBIDDEN, Rejected))
  }

  /** The reference policy of the guarded routes: the credential is valid and names an admin. */
  predicate Admits(mw: Middleware, credential: Option<string>) {
    mw.validateToken(credential).Some? && mw.isAdmin(mw.validateToken(credential).value)
  }

  /** Calls the route's controller. */
  function Handle(route: Route, store: Store, order: seq<PostId>, freshId: PostId, fault: bool): (r: Reply)
    requires freshId !in store
    requires Enumerates(order, store.Keys)
    ensures route.ListPosts? || route.GetPostById? ==> r.store == store
  {
    match route
    case CreatePost(userID, body) => PostController.Create(userID, body, freshId, store, fault)
    case ListPosts => PostController.GetPost(store, order, fault)
    case GetPostById(postID) => PostController.GetPostById(postID, store, fault)
    case UpdatePost(userID, postID, body) => PostController.Update(userID, postID, body, store, fault)
    case DeletePost(userID, postID) => PostController.Delete(userID, postID, store, fault)
  }

  /** A request through the router: its middleware chain, then its controller.
      `freshId` is the id the store would give a new post; `order` is the store's listing order. */
  function Dispatch(mw: Middleware, req: Request, store: Store, order: seq<PostId>, freshId: PostId, fault: bool): (r: Reply)
    requires freshId !in store
    requires Enumerates(order, store.Keys)
    ensures Guards(req.route) != [] && !Admits(mw, req.credential) ==> r.store == store && r.response.body == Rejected
    ensures r.store != store ==> Guards(req.route) != [] && Admits(mw, req.credential)
    ensures Guards(req.route) == [] || Admits(mw, req.credential) ==> r == Handle(req.route, store, order, freshId, fault)
  {
    GuardChainMeansAdmits(mw, req.credential);
    match RunGuards(mw, Guards(req.route), req.credential, None)
    case Reject(resp) => Reply(resp, store)
    case Pass(_) => Handle(req.route, store, order, freshId, fault)
  }

  /** The token/admin chain passes exactly when the reference policy admits the credential. */
  lemma GuardChainMeansAdmits(mw: Middleware, credential: Option<string>)
    ensures RunGuards(mw, [ValidateToken, IsAdmin], credential, None).Pass? <==> Admits(mw, credential)
  {
  }

  /** A failed token check answers 401 and runs neither the admin check nor the controller. */
  lemma TokenFailureShortCircuits(mw: Middleware, req: Request, store: Store, order: seq<PostId>, freshId: PostId, fault: bool)
    requires freshId !in store
    requires Enumerates(order, store.Keys)
    requires Guards(req.route) != [] && mw.validateToken(req.credential).None?
    ensures Dispatch(mw, req, store, order, freshId, fault) == Reply(Response(UNAUTHORIZED, Rejected), store)
    ensures forall isAdmin: Identity -> bool ::
      Dispatch(Middleware(mw.validateToken, isAdmin), req, store, order, freshId, fault)
      == Dispatch(mw, req, store, order, freshId, fault)
  {
  }

  /** A valid token naming a non-admin answers 403 before the controller runs. */
  lemma NonAdminRejected(mw: Middleware, req: Request, store: Store, order: seq<PostId>, freshId: PostId, fault: bool)
    requires freshId !in store
    requires Enumerates(order, store.Keys)
    requires Guards(req.route) != []
    requires mw.validateToken(req.credential).Some? && !mw.isAdmin(mw.validateToken(req.credential).value)
    ensures Dispatch(mw, req, store, order, freshId, fault) == Reply(Response(FORBIDDEN, Rejected), store)
  {
    assert Guards(req.route) == [ValidateToken, IsAdmin];
    assert RunGuards(mw, [IsAdmin], req.credential, mw.validateToken(req.credential)) == Reject(Response(FORBIDDEN, Rejected));
  }

  /** A post is created only when the token check and then the admin check pass. */
  lemma CreateNeedsTokenAndAdmin(mw: Middleware, userID: UserId, body: PostBody, credential: Option<string>,
                                 store: Store, order: seq<PostId>, freshId: PostId)
    requires freshId !in store
    requires Enumerates(order, store.Keys)
    ensures var r := Dispatch(mw, Request(CreatePost(userID, body), credential), store, order, freshId, false);
      (r.response.status == CREATED <==> Admits(mw, credential))
      && (Admits(mw, credential) ==> r.store == store[freshId := Post(body.fields, userID)])
  {
  }

  /** An update succeeds exactly when the token is valid, names an admin, the post exists and
      the path user created it. */
  lemma UpdateNeedsAllThreeChecks(mw: Middleware, userID: UserId, postID: PostId, body: PostBody,
                                  credential: Option<string>, store: Store, order: seq<PostId>, freshId: PostId)
    requires freshId !in store
    requires Enumerates(order, store.Keys)
    ensures var r := Dispatch(mw, Request(UpdatePost(userID, postID, body), credential), store, order, freshId, false);
      (r.response.status == OK <==> Admits(mw, credential) && postID in store && store[postID].createBy == userID)
      && (r.response.status != OK ==> r.store == store)
  {
  }

  /** A delete succeeds exactly when the token is valid, names an admin, the post exists and
      the path user created it. */
  lemma DeleteNeedsAllThreeChecks(mw: Middleware, userID: UserId, postID: PostId,
                                  credential: Option<string>, store: Store, order: seq<PostId>, freshId: PostId)
    requires freshId !in store
    requires Enumerates(order, store.Keys)
    ensures var r := Dispatch(mw, Request(DeletePost(userID, postID), credential), store, order, freshId, false);
      (r.response.status == OK <==> Admits(mw, credential) && postID in store && store[postID].createBy == userID)
      && (r.response.status == OK ==> r.store == store - {postID})
      && (r.response.status != OK ==> r.store == store)
  {
  }

  /** Being an admin is not enough: an admin acting as a user who did not create the post gets 403. */
  lemma AdminNonCreatorRejected(mw: Middleware, userID: UserId, postID: PostId, body: PostBody,
                                credential: Option<string>, store: Store, order: seq<PostId>, freshId: PostId)
    requires freshId !in store
    requires Enumerates(order, store.Keys)
    requires Admits(mw, credential)
    requires postID in store && store[postID].createBy != userID
    ensures Dispatch(mw, Request(UpdatePost(userID, postID, body), credential), store, order, freshId, false)
         == Reply(Response(FORBIDDEN, Message(PostController.UPDATE_FORBIDDEN)), store)
    ensures Dispatch(mw, Request(DeletePost(userID, postID), credential), store, order, freshId, false)
         == Reply(Response(FORBIDDEN, Message(PostController.DELETE_FORBIDDEN)), store)
  {
  }

  /** The read routes have no guards: any credential and any middleware give the same reply,
      and the store is untouched. */
  lemma ReadRoutesArePublic(mw1: Middleware, mw2: Middleware, route: Route, c1: Option<string>, c2: Option<string>,
                            store: Store, order: seq<PostId>, freshId: PostId, fault: bool)
    requires freshId !in store
    requires Enumerates(order, store.Keys)
    requires route.ListPosts? || route.GetPostById?
    ensures Dispatch(mw1, Request(route, c1), store, order, freshId, fault)
         == Dispatch(mw2, Request(route, c2), store, order, freshId, fault)
    ensures Dispatch(mw1, Request(route, c1), store, order, freshId, fault).store == store
  {
  }

  /** Ownership is decided by the path's user id alone: once the middleware admits a request,
      which identity the token carried makes no difference to the reply. */
  lemma PathUserDecidesOwnership(mw1: Middleware, mw2: Middleware, route: Route, c1: Option<string>, c2: Option<string>,
                                 store: Store, order: seq<PostId>, freshId: PostId, fault: bool)
    requires freshId !in store
    requires Enumerates(order, store.Keys)
    requires Admits(mw1, c1) && Admits(mw2, c2)
    ensures Dispatch(mw1, Request(route, c1), store, order, freshId, fault)
         == Dispatch(mw2, Request(route, c2), store, order, freshId, fault)
  {
  }
}
