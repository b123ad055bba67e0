/**
 * The profile screen's two actions: signing out, and deleting every task
 * document of the signed-in user, one delete per document of the
 * owner-scoped query.
 */
module About {
  import opened Wrappers
  import opened Tasks
  import opened TaskStore
  import opened Auth

  /** The ids of `docs`. */
  function IdsOf(docs: seq<Document>): set<string> {
    set d | d in docs :: d.documentId
  }

  /** The ids of the first `k` documents plus the next one's. */
  lemma IdsOfNext(docs: seq<Document>, k: nat)
    requires k < |docs|
    ensures IdsOf(docs[..k + 1]) == IdsOf(docs[..k]) + {docs[k].documentId}
  {
    assert docs[..k + 1] == docs[..k] + [docs[k]];
  }

  /**
   * The `for document in documents` loop: one delete per document, each
   * completing on its own; those whose id is in `failing` complete with an
   * error and leave their document in place.
   */
  method DeleteEach(db: TaskCollection, documents: seq<Document>, failing: set<string>)
    requires db.Valid()
    modifies db
    ensures db.Valid()
    ensures db.docs == RemoveIds(old(db.docs), IdsOf(documents) - failing)
  {
    ghost var before := db.docs;
    RemoveAbsentIds(before, {});
    assert documents[..0] == [] && IdsOf([]) - failing == {};
    var k := 0;
    while k < |documents|
      invariant 0 <= k <= |documents|
      invariant db.Valid()
      invariant db.docs == RemoveIds(before, IdsOf(documents[..k]) - failing)
    {
      var id := documents[k].documentId;
      ghost var done := IdsOf(documents[..k]) - failing;
      IdsOfNext(documents, k);
      if id !in failing {
        RemoveIdsTwice(before, done, {id});
        db.Delete(id);
        assert done + {id} == IdsOf(documents[..k + 1]) - failing;
      } else {
        assert done == IdsOf(documents[..k + 1]) - failing;
      }
      k := k + 1;
    }
    assert documents[..k] == documents;
  }

  /**
   * `deleteAllTasks()`, with its query's completion. `currentUserId` is the
   * signed-in user's id, `status` how the owner-scoped query came back, and
   * `failing` the ids whose delete completes with an error.
   */
  method DeleteAllTasks(currentUserId: Option<string>, db: TaskCollection, status: QueryStatus,
                        failing: set<string>)
    requires db.Valid()
    modifies db
    ensures db.Valid()
    ensures currentUserId.None? || !status.Delivered? ==> db.docs == old(db.docs)
    ensures currentUserId.Some? && status.Delivered? ==>
              var documents := Query(old(db.docs), UserIdKey, StringValue(currentUserId.value));
              db.docs == RemoveIds(old(db.docs), IdsOf(documents) - failing)
  {
    if currentUserId.None? || !status.Delivered? {
      return;
    }
    var documents := Query(db.docs, UserIdKey, StringValue(currentUserId.value));
    DeleteEach(db, documents, failing);
  }

  /**
   * With distinct ids, deleting the owner's queried ids spares every document
   * of other users, and leaves of the owner's only those whose delete failed.
   */
  lemma DeleteAllSparesOthers(docs: seq<Document>, uid: string, failing: set<string>)
    requires DistinctIds(docs)
    ensures var left := RemoveIds(docs, IdsOf(Query(docs, UserIdKey, StringValue(uid))) - failing);
            && (forall d | d in docs && !OwnedBy(d, uid) :: d in left)
            && (forall d | d in left :: !OwnedBy(d, uid) || d.documentId in failing)
            && (forall d | d in docs && OwnedBy(d, uid) && d.documentId in failing :: d in left)
  {
    var owned := Query(docs, UserIdKey, StringValue(uid));
    QueryMembers(docs, UserIdKey, StringValue(uid));
    RemoveIdsMembers(docs, IdsOf(owned) - failing);
    forall d | d in docs && !OwnedBy(d, uid)
      ensures d.documentId !in IdsOf(owned)
    {
      if d.documentId in IdsOf(owned) {
        var e :| e in owned && e.documentId == d.documentId;
        SameIdSameDocument(docs, d, e);
      }
    }
  }

  /** The "登出" row: the view model's sign-out, with its failure if it throws. */
  method Logout(auth: AuthViewModel, failure: Option<string>)
    requires auth.Valid()
    modifies auth
    ensures auth.Valid()
    ensures failure.None? ==> auth.currentUser == None && !auth.isAuthenticated && auth.errorMessage == ""
    ensures failure.Some? ==>
              && auth.errorMessage == failure.value
              && auth.currentUser == old(auth.currentUser) && auth.isAuthenticated == old(auth.isAuthenticated)
    ensures auth.isLoading == old(auth.isLoading) && auth.successMessage == old(auth.successMessage)
  {
    auth.SignOut(failure);
  }
}
