/**
 * The home screen: the signed-in user's task list, fetched from the
 * collection, shown newest index first, and shrunk by a row's delete button;
 * and the colour of a row's state badge.
 */
module Home {
  import opened Wrappers
  import opened Tasks
  import opened TaskStore

  // ---------------------------------------------------------------------
  // The state badge

  datatype Color = Red | Orange | Gray | Blue

  /** `Component.backgroundColor(for:)` */
  function BackgroundColor(state: string): (c: Color)
    ensures c == Blue <==> StateCategoryFromRaw(state).None?
  {
    if state == UrgentImportant.RawValue() then Red
    else if state == NotUrgentButImportant.RawValue() then Orange
    else if state == NotImportantAndNotUrgent.RawValue() then Gray
    else Blue
  }

  /**
   * The urgent-and-important state is red, the important-but-not-urgent one
   * orange and the remaining one gray, so the three states get three
   * different colours.
   */
  lemma BackgroundColorSeparatesStates(a: StateCategory, b: StateCategory)
    ensures BackgroundColor(UrgentImportant.RawValue()) == Red
    ensures BackgroundColor(NotUrgentButImportant.RawValue()) == Orange
    ensures BackgroundColor(NotImportantAndNotUrgent.RawValue()) == Gray
    ensures BackgroundColor(a.RawValue()) == BackgroundColor(b.RawValue()) <==> a == b
  {
    StateCategoriesDistinct(a, NotUrgentButImportant);
    StateCategoriesDistinct(a, UrgentImportant);
    StateCategoriesDistinct(b, NotUrgentButImportant);
    StateCategoriesDistinct(b, UrgentImportant);
  }

  // ---------------------------------------------------------------------
  // Decoding a snapshot

  /**
   * A map whose step may throw: all the results, or nothing at all as soon
   * as one step fails.
   */
  function AllSome<T>(xs: seq<Option<T>>): (r: Option<seq<T>>)
    ensures r.Some? ==> |r.value| == |xs|
  {
    if xs == [] then Some([])
    else if xs[0].None? then None
    else
      match AllSome(xs[1..])
      case None => None
      case Some(ts) => Some([xs[0].value] + ts)
  }

  /** The map succeeds exactly when every step does, and then keeps each step's result in place. */
  lemma {:induction false} AllSomeIsPointwise<T>(xs: seq<Option<T>>)
    ensures AllSome(xs).Some? <==> forall k | 0 <= k < |xs| :: xs[k].Some?
    ensures AllSome(xs).Some? ==> forall k | 0 <= k < |xs| :: xs[k] == Some(AllSome(xs).value[k])
  {
    if xs != [] {
      AllSomeIsPointwise(xs[1..]);
      assert forall k | 1 <= k < |xs| :: xs[k] == xs[1..][k - 1];
    }
  }

  /** Mapping two runs is mapping each; one failure fails both. */
  lemma {:induction false} AllSomeConcat<T>(a: seq<Option<T>>, b: seq<Option<T>>)
    ensures AllSome(a + b).Some? <==> AllSome(a).Some? && AllSome(b).Some?
    ensures AllSome(a + b).Some? ==> AllSome(a + b).value == AllSome(a).value + AllSome(b).value
  {
    if a == [] {
      assert a + b == b;
    } else {
      assert (a + b)[0] == a[0] && (a + b)[1..] == a[1..] + b;
      AllSomeConcat(a[1..], b);
      if AllSome(a + b).Some? {
        assert AllSome(a + b).value == [a[0].value] + AllSome(a[1..] + b).value;
      }
    }
  }

  /** Each document's decoding, in order. */
  function DecodeEach(docs: seq<Document>): (r: seq<Option<TaskItem>>)
    ensures |r| == |docs| && forall k | 0 <= k < |docs| :: r[k] == DecodeTask(docs[k].fields)
  {
    seq(|docs|, k requires 0 <= k < |docs| => DecodeTask(docs[k].fields))
  }

  /**
   * `try snapshot.documents.compactMap { try $0.data(as: TaskItem.self) }`:
   * the tasks of all documents in order, or nothing at all as soon as one
   * document fails to decode.
   */
  function DecodeAll(docs: seq<Document>): Option<seq<TaskItem>> {
    AllSome(DecodeEach(docs))
  }

  /**
   * The snapshot decodes exactly when every document does, and then the k-th
   * task is the k-th document's.
   */
  lemma DecodeAllIsPointwise(docs: seq<Document>)
    ensures DecodeAll(docs).Some? <==> forall d | d in docs :: DecodeTask(d.fields).Some?
    ensures DecodeAll(docs).Some? ==> |DecodeAll(docs).value| == |docs|
    ensures DecodeAll(docs).Some? ==>
              forall k | 0 <= k < |docs| :: DecodeTask(docs[k].fields) == Some(DecodeAll(docs).value[k])
  {
    AllSomeIsPointwise(DecodeEach(docs));
  }

  /** Decoding two runs of documents is decoding each; one failure fails both. */
  lemma DecodeAllConcat(a: seq<Document>, b: seq<Document>)
    ensures DecodeAll(a + b).Some? <==> DecodeAll(a).Some? && DecodeAll(b).Some?
    ensures DecodeAll(a + b).Some? ==> DecodeAll(a + b).value == DecodeAll(a).value + DecodeAll(b).value
  {
    assert DecodeEach(a + b) == DecodeEach(a) + DecodeEach(b);
    AllSomeConcat(DecodeEach(a), DecodeEach(b));
  }

  /** Every task fetched for `uid` belongs to `uid`. */
  lemma FetchedTasksBelongToOwner(docs: seq<Document>, uid: string)
    requires DecodeAll(Query(docs, UserIdKey, StringValue(uid))).Some?
    ensures forall t | t in DecodeAll(Query(docs, UserIdKey, StringValue(uid))).value :: t.userId == uid
  {
    var q := Query(docs, UserIdKey, StringValue(uid));
    var ts := DecodeAll(q).value;
    DecodeAllIsPointwise(q);
    QueryMembers(docs, UserIdKey, StringValue(uid));
    forall t | t in ts
      ensures t.userId == uid
    {
      var k :| 0 <= k < |ts| && ts[k] == t;
      assert q[k] in q;
    }
  }

  /**
   * A task saved for its owner comes back in the owner's next fetch at its
   * document id's place: after the tasks of the owner's documents before the
   * insert position and before the rest. The fetch succeeds after the save
   * exactly when it succeeded before, and then it has gained just `t`.
   */
  lemma SavedTaskIsFetchedInIdOrder(docs: seq<Document>, documentId: string, t: TaskItem)
    ensures var saved := Document(documentId, EncodeTask(t));
            var p := InsertPosition(docs, documentId);
            var earlier := DecodeAll(Query(docs[..p], UserIdKey, StringValue(t.userId)));
            var later := DecodeAll(Query(docs[p..], UserIdKey, StringValue(t.userId)));
            var before := DecodeAll(Query(docs, UserIdKey, StringValue(t.userId)));
            var after := DecodeAll(Query(InsertById(docs, saved), UserIdKey, StringValue(t.userId)));
            && (after.Some? <==> before.Some?)
            && (before.Some? <==> earlier.Some? && later.Some?)
            && (after.Some? ==>
                  && before.value == earlier.value + later.value
                  && after.value == earlier.value + [t] + later.value
                  && multiset(after.value) == multiset(before.value) + multiset{t})
  {
    var saved := Document(documentId, EncodeTask(t));
    var p := InsertPosition(docs, documentId);
    SavedDocumentIsListedForOwner(docs, saved, t.userId, t.userId + "'");
    DecodeEncodeRoundTrip(t);
    DecodeAround(Query(docs[..p], UserIdKey, StringValue(t.userId)), saved,
                 Query(docs[p..], UserIdKey, StringValue(t.userId)), t);
  }

  /** Decoding a run with one decodable document `d` placed in it. */
  lemma DecodeAround(q1: seq<Document>, d: Document, q2: seq<Document>, t: TaskItem)
    requires DecodeTask(d.fields) == Some(t)
    ensures DecodeAll(q1 + [d] + q2).Some? <==> DecodeAll(q1 + q2).Some?
    ensures DecodeAll(q1 + q2).Some? <==> DecodeAll(q1).Some? && DecodeAll(q2).Some?
    ensures DecodeAll(q1 + [d] + q2).Some? ==>
              && DecodeAll(q1 + q2).value == DecodeAll(q1).value + DecodeAll(q2).value
              && DecodeAll(q1 + [d] + q2).value == DecodeAll(q1).value + [t] + DecodeAll(q2).value
  {
    var one := DecodeEach([d]);
    assert one == [Some(t)] && one[1..] == [];
    assert AllSome(one[1..]) == Some([]);
    assert [t] + [] == [t];
    assert DecodeAll([d]) == AllSome(one) == Some([t]);
    DecodeAllConcat(q1, q2);
    DecodeAllConcat(q1, [d]);
    DecodeAllConcat(q1 + [d], q2);
  }

  // ---------------------------------------------------------------------
  // The display order

  /** `tasks.indices.reversed()`: the rows' indices, top to bottom. */
  function DisplayOrder(n: nat): (r: seq<nat>)
    ensures |r| == n
    ensures forall k | 0 <= k < n :: r[k] == n - 1 - k
  {
    if n == 0 then [] else [n - 1] + DisplayOrder(n - 1)
  }

  /** A row is followed by a divider unless it shows index 0. */
  predicate ShowsDivider(i: nat) {
    i != 0
  }

  /**
   * Every index is shown exactly once, and every row but the bottom one is
   * followed by a divider.
   */
  lemma DisplayOrderShowsEachIndexOnce(n: nat)
    ensures forall i: nat :: i in DisplayOrder(n) <==> i < n
    ensures forall j, k | 0 <= j < k < n :: DisplayOrder(n)[j] != DisplayOrder(n)[k]
    ensures forall k | 0 <= k < n :: ShowsDivider(DisplayOrder(n)[k]) <==> k < n - 1
  {
    var r := DisplayOrder(n);
    forall i: nat
      ensures i in r <==> i < n
    {
      if i < n {
        assert r[n - 1 - i] == i;
      }
      if i in r {
        var k :| 0 <= k < |r| && r[k] == i;
      }
    }
  }

  // ---------------------------------------------------------------------
  // The screen

  class HomeScreen {
    var tasks: seq<TaskItem>

    constructor ()
      ensures tasks == []
    {
      tasks := [];
    }

    /**
     * `fetchTasks()`, with its completion: `currentUserId` is the signed-in
     * user's id, `status` how the owner-scoped query came back.
     */
    method FetchTasks(currentUserId: Option<string>, db: TaskCollection, status: QueryStatus)
      modifies this
      ensures currentUserId.None? || !status.Delivered? ==> tasks == old(tasks)
      ensures currentUserId.Some? && status.Delivered? ==>
                var fetched := DecodeAll(Query(db.docs, UserIdKey, StringValue(currentUserId.value)));
                tasks == if fetched.Some? then fetched.value else old(tasks)
    {
      match currentUserId
      case None =>
      case Some(uid) =>
        if status.Delivered? {
          var documents := Query(db.docs, UserIdKey, StringValue(uid));
          match DecodeAll(documents)
          case Some(decoded) =>
            tasks := decoded;
          case None =>
        }
    }

    /**
     * The trash button of the row showing `tasks[i]`, with the completions of
     * its lookup (`lookup`) and of the delete (`deleteError`). The lookup
     * matches the "id" field against the task's UUID in the whole collection.
     */
    method OnDelete(i: nat, db: TaskCollection, lookup: QueryStatus, deleteError: Option<string>)
      returns (deleted: bool)
      requires i < |tasks| && db.Valid()
      modifies this, db
      ensures db.Valid()
      ensures var matches := Query(old(db.docs), IdKey, StringValue(old(tasks)[i].id));
              && (deleted <==> lookup.Delivered? && matches != [] && deleteError.None?)
              && (deleted ==> db.docs == RemoveIds(old(db.docs), {matches[0].documentId}))
      ensures deleted ==> tasks == old(tasks)[..i] + old(tasks)[i + 1..]
      ensures !deleted ==> db.docs == old(db.docs) && tasks == old(tasks)
    {
      deleted := false;
      if !lookup.Delivered? {
        return;
      }
      var matches := Query(db.docs, IdKey, StringValue(tasks[i].id));
      if matches == [] {
        return;
      }
      if deleteError.Some? {
        return;
      }
      db.Delete(matches[0].documentId);
      tasks := tasks[..i] + tasks[i + 1..];
      deleted := true;
    }
  }

  /** `remove(at:)` drops exactly the element at `i`; the rest keep their order. */
  lemma RemoveAtKeepsOthers<T>(s: seq<T>, i: nat)
    requires i < |s|
    ensures |s[..i] + s[i + 1..]| == |s| - 1
    ensures forall k | 0 <= k < |s| - 1 :: (s[..i] + s[i + 1..])[k] == if k < i then s[k] else s[k + 1]
    ensures multiset(s[..i] + s[i + 1..]) + multiset{s[i]} == multiset(s)
  {
    assert s == s[..i] + [s[i]] + s[i + 1..];
  }

  /**
   * The document a successful delete removes is the lookup's first match and
   * nothing else.
   */
  lemma DeleteRemovesFirstMatchOnly(docs: seq<Document>, id: Uuid)
    requires DistinctIds(docs)
    requires Query(docs, IdKey, StringValue(id)) != []
    ensures var m := Query(docs, IdKey, StringValue(id))[0];
            && Matches(m, IdKey, StringValue(id))
            && |RemoveIds(docs, {m.documentId})| == |docs| - 1
            && multiset(RemoveIds(docs, {m.documentId})) + multiset{m} == multiset(docs)
  {
    var q := Query(docs, IdKey, StringValue(id));
    var m := q[0];
    QueryMembers(docs, IdKey, StringValue(id));
    assert m in q;
    var j :| 0 <= j < |docs| && docs[j] == m;
    RemoveStoredId(docs, j);
    RemoveAtKeepsOthers(docs, j);
  }
}
