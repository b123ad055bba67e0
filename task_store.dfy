/**
 * The "tasks" collection of the document store, as the sequence of its
 * documents in document-id order (the order a query without an explicit
 * ordering returns them in), with the equality query, the add and the
 * deletions the screens issue against it.
 */
module TaskStore {
  import opened Wrappers
  import opened Tasks

  /** A stored document: its store-assigned id and its field map. */
  datatype Document = Document(documentId: string, fields: map<string, Value>)

  /**
   * How a query's completion came back: with an error, with neither error nor
   * snapshot, or with the snapshot of the matching documents.
   */
  datatype QueryStatus = QueryFailed(description: string) | NoSnapshot | Delivered

  predicate Matches(d: Document, field: string, value: Value) {
    field in d.fields && d.fields[field] == value
  }

  /** A document belongs to `uid` when its "userId" field holds `uid`. */
  predicate OwnedBy(d: Document, uid: string) {
    Matches(d, UserIdKey, StringValue(uid))
  }

  /** The id of the `k`-th document. */
  function IdAt(docs: seq<Document>, k: nat): string
    requires k < |docs|
  {
    docs[k].documentId
  }

  /** No two documents share an id. */
  ghost predicate DistinctIds(docs: seq<Document>) {
    forall i, j | 0 <= i < j < |docs| :: IdAt(docs, i) != IdAt(docs, j)
  }

  /**
   * Document ids compare character by character, by code point (which is
   * also the order of their UTF-8 bytes); a proper prefix comes first.
   */
  predicate IdBefore(a: string, b: string) {
    if a == [] then b != []
    else if b == [] then false
    else a[0] < b[0] || (a[0] == b[0] && IdBefore(a[1..], b[1..]))
  }

  /** No id comes before itself. */
  lemma {:induction false} IdBeforeIrreflexive(a: string)
    ensures !IdBefore(a, a)
  {
    if a != [] {
      IdBeforeIrreflexive(a[1..]);
    }
  }

  /** The id order is transitive. */
  lemma {:induction false} IdBeforeTransitive(a: string, b: string, c: string)
    requires IdBefore(a, b) && IdBefore(b, c)
    ensures IdBefore(a, c)
  {
    if a != [] && a[0] == b[0] && b[0] == c[0] {
      IdBeforeTransitive(a[1..], b[1..], c[1..]);
    }
  }

  /** Of two different ids, one comes before the other. */
  lemma {:induction false} IdBeforeTotal(a: string, b: string)
    requires a != b
    ensures IdBefore(a, b) || IdBefore(b, a)
  {
    if a != [] && b != [] && a[0] == b[0] {
      assert a == [a[0]] + a[1..] && b == [b[0]] + b[1..];
      IdBeforeTotal(a[1..], b[1..]);
    }
  }

  /** The documents are listed in strictly increasing id order. */
  ghost predicate SortedByIds(docs: seq<Document>) {
    forall i, j | 0 <= i < j < |docs| :: IdBefore(IdAt(docs, i), IdAt(docs, j))
  }

  /** Documents in strictly increasing id order have distinct ids. */
  lemma SortedIdsAreDistinct(docs: seq<Document>)
    requires SortedByIds(docs)
    ensures DistinctIds(docs)
  {
    forall i, j | 0 <= i < j < |docs|
      ensures IdAt(docs, i) != IdAt(docs, j)
    {
      IdBeforeIrreflexive(IdAt(docs, i));
    }
  }

  /** Past the first document the order still holds, and every id follows the first. */
  lemma SortedTail(docs: seq<Document>)
    requires SortedByIds(docs) && docs != []
    ensures SortedByIds(docs[1..])
    ensures forall d | d in docs[1..] :: IdBefore(docs[0].documentId, d.documentId)
  {
    forall a, b | 0 <= a < b < |docs[1..]|
      ensures IdBefore(IdAt(docs[1..], a), IdAt(docs[1..], b))
    {
      assert IdAt(docs[1..], a) == IdAt(docs, a + 1) && IdAt(docs[1..], b) == IdAt(docs, b + 1);
    }
    forall d | d in docs[1..]
      ensures IdBefore(docs[0].documentId, d.documentId)
    {
      var j :| 0 <= j < |docs[1..]| && docs[1..][j] == d;
      assert IdAt(docs, j + 1) == d.documentId && IdAt(docs, 0) == docs[0].documentId;
    }
  }

  /** `whereField(field, isEqualTo: value)`: the matching documents, in stored order. */
  function Query(docs: seq<Document>, field: string, value: Value): (r: seq<Document>)
    ensures |r| <= |docs|
  {
    if docs == [] then []
    else (if Matches(docs[0], field, value) then [docs[0]] else []) + Query(docs[1..], field, value)
  }

  /** The query lists exactly the stored documents that match. */
  lemma {:induction false} QueryMembers(docs: seq<Document>, field: string, value: Value)
    ensures forall d :: d in Query(docs, field, value) <==> d in docs && Matches(d, field, value)
  {
    if docs != [] {
      QueryMembers(docs[1..], field, value);
      assert docs == [docs[0]] + docs[1..];
    }
  }

  /** With distinct ids, a stored document is identified by its id. */
  lemma SameIdSameDocument(docs: seq<Document>, d: Document, e: Document)
    requires DistinctIds(docs) && d in docs && e in docs && d.documentId == e.documentId
    ensures d == e
  {
    var i :| 0 <= i < |docs| && docs[i] == d;
    var j :| 0 <= j < |docs| && docs[j] == e;
    assert IdAt(docs, i) == IdAt(docs, j);
  }

  /** A query over two runs of documents is the query over each, in order. */
  lemma {:induction false} QueryConcat(a: seq<Document>, b: seq<Document>, field: string, value: Value)
    ensures Query(a + b, field, value) == Query(a, field, value) + Query(b, field, value)
  {
    if a == [] {
      assert a + b == b;
    } else {
      assert (a + b)[0] == a[0];
      assert (a + b)[1..] == a[1..] + b;
      QueryConcat(a[1..], b, field, value);
    }
  }

  /** A query lists its documents in id order. */
  lemma {:induction false} QueryKeepsSorted(docs: seq<Document>, field: string, value: Value)
    requires SortedByIds(docs)
    ensures SortedByIds(Query(docs, field, value))
  {
    if docs != [] {
      SortedTail(docs);
      QueryKeepsSorted(docs[1..], field, value);
      QueryMembers(docs[1..], field, value);
      var rest := Query(docs[1..], field, value);
      if !Matches(docs[0], field, value) {
        assert Query(docs, field, value) == rest;
      } else {
        var r := [docs[0]] + rest;
        assert Query(docs, field, value) == r;
        forall a, b | 0 <= a < b < |r|
          ensures IdBefore(IdAt(r, a), IdAt(r, b))
        {
          if a > 0 {
            assert IdAt(r, a) == IdAt(rest, a - 1) && IdAt(r, b) == IdAt(rest, b - 1);
          } else {
            assert r[b] in rest;
          }
        }
      }
    }
  }

  /** The documents left once every document whose id is in `ids` is deleted. */
  function RemoveIds(docs: seq<Document>, ids: set<string>): (r: seq<Document>)
    ensures |r| <= |docs|
  {
    if docs == [] then []
    else
      var rest := RemoveIds(docs[1..], ids);
      if docs[0].documentId in ids then rest else [docs[0]] + rest
  }

  /** What is left is exactly the stored documents whose id was not deleted. */
  lemma {:induction false} RemoveIdsMembers(docs: seq<Document>, ids: set<string>)
    ensures forall d :: d in RemoveIds(docs, ids) <==> d in docs && d.documentId !in ids
  {
    if docs != [] {
      RemoveIdsMembers(docs[1..], ids);
      assert docs == [docs[0]] + docs[1..];
    }
  }

  /** Deleting keeps the remaining documents in id order. */
  lemma {:induction false} RemoveIdsKeepsSorted(docs: seq<Document>, ids: set<string>)
    requires SortedByIds(docs)
    ensures SortedByIds(RemoveIds(docs, ids))
  {
    if docs != [] {
      SortedTail(docs);
      RemoveIdsKeepsSorted(docs[1..], ids);
      RemoveIdsMembers(docs[1..], ids);
      var rest := RemoveIds(docs[1..], ids);
      if docs[0].documentId !in ids {
        var r := [docs[0]] + rest;
        forall a, b | 0 <= a < b < |r|
          ensures IdBefore(IdAt(r, a), IdAt(r, b))
        {
          if a > 0 {
            assert IdAt(r, a) == IdAt(rest, a - 1) && IdAt(r, b) == IdAt(rest, b - 1);
          } else {
            assert r[b] in rest;
          }
        }
      }
    }
  }

  /** Deleting nothing that is stored changes nothing. */
  lemma {:induction false} RemoveAbsentIds(docs: seq<Document>, ids: set<string>)
    requires forall d | d in docs :: d.documentId !in ids
    ensures RemoveIds(docs, ids) == docs
  {
    if docs != [] {
      assert docs[0] in docs;
      assert forall d | d in docs[1..] :: d in docs;
      RemoveAbsentIds(docs[1..], ids);
      assert [docs[0]] + docs[1..] == docs;
    }
  }

  /** Two rounds of deletion are one round over both sets of ids. */
  lemma {:induction false} RemoveIdsTwice(docs: seq<Document>, a: set<string>, b: set<string>)
    ensures RemoveIds(RemoveIds(docs, a), b) == RemoveIds(docs, a + b)
  {
    if docs != [] {
      RemoveIdsTwice(docs[1..], a, b);
      if docs[0].documentId !in a {
        assert ([docs[0]] + RemoveIds(docs[1..], a))[1..] == RemoveIds(docs[1..], a);
      }
    }
  }

  /** Deleting from two runs of documents is deleting from each. */
  lemma {:induction false} RemoveIdsConcat(a: seq<Document>, b: seq<Document>, ids: set<string>)
    ensures RemoveIds(a + b, ids) == RemoveIds(a, ids) + RemoveIds(b, ids)
  {
    if a == [] {
      assert a + b == b;
    } else {
      assert (a + b)[0] == a[0];
      assert (a + b)[1..] == a[1..] + b;
      RemoveIdsConcat(a[1..], b, ids);
    }
  }

  /** With distinct ids, no document before or after a stored one shares its id. */
  lemma OthersHaveOtherIds(docs: seq<Document>, i: nat)
    requires DistinctIds(docs) && i < |docs|
    ensures forall d | d in docs[..i] :: d.documentId != docs[i].documentId
    ensures forall d | d in docs[i + 1..] :: d.documentId != docs[i].documentId
  {
    forall d | d in docs[..i]
      ensures d.documentId != docs[i].documentId
    {
      var j :| 0 <= j < i && docs[..i][j] == d;
      assert IdAt(docs, j) == d.documentId && IdAt(docs, i) == docs[i].documentId;
    }
    forall d | d in docs[i + 1..]
      ensures d.documentId != docs[i].documentId
    {
      var j :| 0 <= j < |docs| - i - 1 && docs[i + 1..][j] == d;
      assert IdAt(docs, i + 1 + j) == d.documentId && IdAt(docs, i) == docs[i].documentId;
    }
  }

  /** With distinct ids, deleting a stored document's id removes exactly that document. */
  lemma RemoveStoredId(docs: seq<Document>, i: nat)
    requires DistinctIds(docs) && i < |docs|
    ensures RemoveIds(docs, {docs[i].documentId}) == docs[..i] + docs[i + 1..]
  {
    OthersHaveOtherIds(docs, i);
    SplitAround(docs, i);
    RemoveUniqueId(docs[..i], docs[i], docs[i + 1..]);
  }

  /** A sequence is what comes before position `i`, the element there, and what follows. */
  lemma SplitAround<T>(s: seq<T>, i: nat)
    requires i < |s|
    ensures s == s[..i] + ([s[i]] + s[i + 1..])
  {
  }

  /** Deleting an id that only `x` carries removes `x` and nothing else. */
  lemma RemoveUniqueId(before: seq<Document>, x: Document, after: seq<Document>)
    requires forall d | d in before :: d.documentId != x.documentId
    requires forall d | d in after :: d.documentId != x.documentId
    ensures RemoveIds(before + ([x] + after), {x.documentId}) == before + after
  {
    var ids := {x.documentId};
    RemoveAbsentIds(before, ids);
    RemoveAbsentIds(after, ids);
    RemoveIdsConcat(before, [x] + after, ids);
    assert ([x] + after)[0] == x && ([x] + after)[1..] == after;
    assert RemoveIds([x] + after, ids) == RemoveIds(after, ids);
  }

  // ---------------------------------------------------------------------
  // Adding a document

  /** How many documents, from the front, have ids that come before `id`. */
  function InsertPosition(docs: seq<Document>, id: string): (p: nat)
    ensures p <= |docs|
    ensures forall k | 0 <= k < p :: IdBefore(IdAt(docs, k), id)
    ensures p < |docs| ==> !IdBefore(IdAt(docs, p), id)
  {
    if docs == [] || !IdBefore(docs[0].documentId, id) then 0
    else
      var p := 1 + InsertPosition(docs[1..], id);
      assert forall k | 1 <= k < p :: IdAt(docs, k) == IdAt(docs[1..], k - 1);
      p
  }

  /** The collection once `d` is stored: `d` sits among the documents at its id's place. */
  function InsertById(docs: seq<Document>, d: Document): seq<Document> {
    var p := InsertPosition(docs, d.documentId);
    docs[..p] + [d] + docs[p..]
  }

  /** Storing `d` adds `d` and nothing else, and drops nothing. */
  lemma InsertByIdContents(docs: seq<Document>, d: Document)
    ensures |InsertById(docs, d)| == |docs| + 1
    ensures multiset(InsertById(docs, d)) == multiset(docs) + multiset{d}
  {
    var p := InsertPosition(docs, d.documentId);
    assert docs == docs[..p] + docs[p..];
  }

  /**
   * In id order, the documents before the insert position have smaller ids
   * than a fresh `id`, and those from it on have larger ones.
   */
  lemma InsertPositionSplitsIds(docs: seq<Document>, id: string)
    requires SortedByIds(docs)
    requires forall e | e in docs :: e.documentId != id
    ensures var p := InsertPosition(docs, id);
            && (forall e | e in docs[..p] :: IdBefore(e.documentId, id))
            && (forall e | e in docs[p..] :: IdBefore(id, e.documentId))
  {
    var p := InsertPosition(docs, id);
    forall e | e in docs[..p]
      ensures IdBefore(e.documentId, id)
    {
      var k :| 0 <= k < p && docs[..p][k] == e;
      assert IdAt(docs, k) == e.documentId;
    }
    forall e | e in docs[p..]
      ensures IdBefore(id, e.documentId)
    {
      var k :| 0 <= k < |docs| - p && docs[p..][k] == e;
      assert docs[p] in docs;
      IdBeforeTotal(IdAt(docs, p), id);
      if k > 0 {
        assert IdAt(docs, p + k) == e.documentId;
        IdBeforeTransitive(id, IdAt(docs, p), IdAt(docs, p + k));
      }
    }
  }

  /** A slice of documents in id order is in id order. */
  lemma SortedSlice(docs: seq<Document>, lo: nat, hi: nat)
    requires SortedByIds(docs) && lo <= hi <= |docs|
    ensures SortedByIds(docs[lo..hi])
  {
    forall a, b | 0 <= a < b < hi - lo
      ensures IdBefore(IdAt(docs[lo..hi], a), IdAt(docs[lo..hi], b))
    {
      assert IdAt(docs[lo..hi], a) == IdAt(docs, lo + a) && IdAt(docs[lo..hi], b) == IdAt(docs, lo + b);
    }
  }

  /** Two runs in id order, every id of the first before every id of the second, make one. */
  lemma SortedConcat(a: seq<Document>, b: seq<Document>)
    requires SortedByIds(a) && SortedByIds(b)
    requires forall x, y | x in a && y in b :: IdBefore(x.documentId, y.documentId)
    ensures SortedByIds(a + b)
  {
    var r := a + b;
    forall i, j | 0 <= i < j < |r|
      ensures IdBefore(IdAt(r, i), IdAt(r, j))
    {
      if j < |a| {
        assert IdAt(r, i) == IdAt(a, i) && IdAt(r, j) == IdAt(a, j);
      } else if i >= |a| {
        assert IdAt(r, i) == IdAt(b, i - |a|) && IdAt(r, j) == IdAt(b, j - |a|);
      } else {
        assert r[i] in a && r[j] in b;
      }
    }
  }

  /** Storing a document with a fresh id keeps the collection in id order. */
  lemma InsertByIdKeepsSorted(docs: seq<Document>, d: Document)
    requires SortedByIds(docs)
    requires forall e | e in docs :: e.documentId != d.documentId
    ensures SortedByIds(InsertById(docs, d))
  {
    var p := InsertPosition(docs, d.documentId);
    var head, tail := docs[..p], docs[p..];
    InsertPositionSplitsIds(docs, d.documentId);
    SortedSlice(docs, 0, p);
    SortedSlice(docs, p, |docs|);
    assert docs[0..p] == head && docs[p..|docs|] == tail;
    SortedConcat(head, [d]);
    forall x, y | x in head + [d] && y in tail
      ensures IdBefore(x.documentId, y.documentId)
    {
      if x != d {
        IdBeforeTransitive(x.documentId, d.documentId, y.documentId);
      }
    }
    SortedConcat(head + [d], tail);
  }

  /**
   * A document saved for `owner` joins the owner's query between the owner's
   * documents at the insert position, and nobody else's query changes.
   */
  lemma {:induction false} SavedDocumentIsListedForOwner(docs: seq<Document>, saved: Document, owner: string, other: string)
    requires OwnedBy(saved, owner) && other != owner
    ensures var p := InsertPosition(docs, saved.documentId);
            var earlier := Query(docs[..p], UserIdKey, StringValue(owner));
            var later := Query(docs[p..], UserIdKey, StringValue(owner));
            && Query(docs, UserIdKey, StringValue(owner)) == earlier + later
            && Query(InsertById(docs, saved), UserIdKey, StringValue(owner)) == earlier + [saved] + later
    ensures Query(InsertById(docs, saved), UserIdKey, StringValue(other)) == Query(docs, UserIdKey, StringValue(other))
  {
    var p := InsertPosition(docs, saved.documentId);
    assert docs == docs[..p] + docs[p..];
    QueryAroundSaved(docs[..p], saved, docs[p..], owner, other);
  }

  /** Placing the owner's document `saved` between two runs, as the queries see it. */
  lemma {:induction false} QueryAroundSaved(head: seq<Document>, saved: Document, tail: seq<Document>, owner: string, other: string)
    requires OwnedBy(saved, owner) && other != owner
    ensures Query(head + tail, UserIdKey, StringValue(owner))
         == Query(head, UserIdKey, StringValue(owner)) + Query(tail, UserIdKey, StringValue(owner))
    ensures Query(head + [saved] + tail, UserIdKey, StringValue(owner))
         == Query(head, UserIdKey, StringValue(owner)) + [saved] + Query(tail, UserIdKey, StringValue(owner))
    ensures Query(head + [saved] + tail, UserIdKey, StringValue(other)) == Query(head + tail, UserIdKey, StringValue(other))
  {
    QueryAround(head, saved, tail, UserIdKey, StringValue(owner));
    QueryAround(head, saved, tail, UserIdKey, StringValue(other));
    assert [saved][1..] == [];
    assert Query([saved], UserIdKey, StringValue(owner)) == [saved];
    assert Query([saved], UserIdKey, StringValue(other)) == [];
  }

  /** A query over a run split around one document is the query over each piece. */
  lemma {:induction false} QueryAround(head: seq<Document>, x: Document, tail: seq<Document>, field: string, value: Value)
    ensures Query(head + tail, field, value) == Query(head, field, value) + Query(tail, field, value)
    ensures Query(head + [x] + tail, field, value)
         == Query(head, field, value) + Query([x], field, value) + Query(tail, field, value)
  {
    QueryConcat(head, tail, field, value);
    QueryConcat(head + [x], tail, field, value);
    QueryConcat(head, [x], field, value);
  }

  /**
   * In the owner's list, the saved document follows exactly the owner's
   * documents whose ids come before its own, and the list stays in id order.
   */
  lemma SavedDocumentSitsByItsId(docs: seq<Document>, saved: Document, owner: string)
    requires SortedByIds(docs)
    requires forall e | e in docs :: e.documentId != saved.documentId
    ensures var p := InsertPosition(docs, saved.documentId);
            && (forall e | e in Query(docs[..p], UserIdKey, StringValue(owner)) ::
                  IdBefore(e.documentId, saved.documentId))
            && (forall e | e in Query(docs[p..], UserIdKey, StringValue(owner)) ::
                  IdBefore(saved.documentId, e.documentId))
    ensures SortedByIds(Query(InsertById(docs, saved), UserIdKey, StringValue(owner)))
  {
    var p := InsertPosition(docs, saved.documentId);
    InsertPositionSplitsIds(docs, saved.documentId);
    QueryMembers(docs[..p], UserIdKey, StringValue(owner));
    QueryMembers(docs[p..], UserIdKey, StringValue(owner));
    InsertByIdKeepsSorted(docs, saved);
    QueryKeepsSorted(InsertById(docs, saved), UserIdKey, StringValue(owner));
  }

  // ---------------------------------------------------------------------
  // The collection

  /** The collection, kept in id order; an add stores a document, a delete removes one. */
  class TaskCollection {
    var docs: seq<Document>

    ghost predicate Valid()
      reads this
    {
      SortedByIds(docs)
    }

    constructor (docs: seq<Document>)
      requires SortedByIds(docs)
      ensures Valid() && this.docs == docs
    {
      this.docs := docs;
    }

    /** `addDocument`: `documentId` is the fresh id the store assigns. */
    method AddDocument(documentId: string, fields: map<string, Value>)
      requires Valid()
      requires forall d | d in docs :: d.documentId != documentId
      modifies this
      ensures Valid()
      ensures docs == InsertById(old(docs), Document(documentId, fields))
    {
      InsertByIdKeepsSorted(docs, Document(documentId, fields));
      docs := InsertById(docs, Document(documentId, fields));
    }

    /** `document(documentId).delete`, completed without error. */
    method Delete(documentId: string)
      requires Valid()
      modifies this
      ensures Valid()
      ensures docs == RemoveIds(old(docs), {documentId})
    {
      RemoveIdsKeepsSorted(docs, {documentId});
      docs := RemoveIds(docs, {documentId});
    }
  }
}
