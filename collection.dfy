/**
 * The document-store queries the routes issue against an owned collection,
 * as functions of the collection's contents: `find({userId})` with a sort,
 * `findOne({userId})`, `findOneAndUpdate({_id, userId}, ...)`,
 * `findOneAndDelete({_id, userId})`, the PersonalInfo upsert, and `save`
 * of a new document. Each query acts on the first document that matches,
 * as the store does.
 */
module Collection {
  import opened Wrappers
  import opened Seqs
  import opened Records

  /** The filter `{userId: owner}`. */
  function OwnerIs<R>(owner: ObjectId): Doc<R> -> bool {
    (d: Doc<R>) => d.userId == owner
  }

  /** The filter `{_id: id, userId: owner}`. */
  function Scoped<R>(id: ObjectId, owner: ObjectId): Doc<R> -> bool {
    (d: Doc<R>) => d.id == id && d.userId == owner
  }

  /** `find({userId: owner})`: the owner's documents, in store order. */
  function OwnedBy<R>(docs: seq<Doc<R>>, owner: ObjectId): (r: seq<Doc<R>>)
    ensures forall i :: 0 <= i < |r| ==> r[i] in docs && r[i].userId == owner
    ensures forall i :: 0 <= i < |docs| && docs[i].userId == owner ==> docs[i] in r
  {
    FilterMembers(docs, OwnerIs(owner));
    Filter(docs, OwnerIs(owner))
  }

  /** `find({userId: owner}).sort(order)`. */
  function Listing<R>(docs: seq<Doc<R>>, owner: ObjectId, le: (Doc<R>, Doc<R>) -> bool): (r: seq<Doc<R>>)
    ensures multiset(r) == multiset(OwnedBy(docs, owner))
    ensures forall d :: d in r ==> d in docs && d.userId == owner
  {
    var owned := OwnedBy(docs, owner);
    var r := Sort(owned, le);
    assert forall d :: d in r ==> d in owned by {
      forall d | d in r ensures d in owned {
        assert d in multiset(r);
      }
    }
    r
  }

  /** A list route answers with exactly the owner's documents, each as often as stored, in the requested order. */
  lemma ListingSpec<R(!new)>(docs: seq<Doc<R>>, owner: ObjectId, le: (Doc<R>, Doc<R>) -> bool)
    requires TotalPreorder(le)
    ensures Sorted(Listing(docs, owner, le), le)
    ensures forall d :: multiset(Listing(docs, owner, le))[d] == if d.userId == owner then multiset(docs)[d] else 0
    ensures forall d :: d in Listing(docs, owner, le) <==> d in docs && d.userId == owner
  {
    SortSorted(OwnedBy(docs, owner), le);
    forall d ensures multiset(Listing(docs, owner, le))[d] == if d.userId == owner then multiset(docs)[d] else 0 {
      FilterCount(docs, OwnerIs(owner), d);
    }
    forall d ensures d in Listing(docs, owner, le) <==> d in docs && d.userId == owner {
      assert d in Listing(docs, owner, le) <==> d in multiset(Listing(docs, owner, le));
      assert d in docs <==> d in multiset(docs);
    }
  }

  /** `findOne({userId: owner})`: the owner's first document, or null. */
  function FirstOwned<R>(docs: seq<Doc<R>>, owner: ObjectId): (r: Option<Doc<R>>)
    ensures r.None? <==> forall d :: d in docs ==> d.userId != owner
    ensures r.Some? ==> r.value in docs && r.value.userId == owner
  {
    match FindFirst(docs, OwnerIs(owner))
    case None => None
    case Some(i) => Some(docs[i])
  }

  /** The document an update leaves: `_id` kept, `userId` replaced when the update names one, the data merged. */
  function Updated<R>(d: Doc<R>, newOwner: Option<ObjectId>, merge: R -> R): Doc<R> {
    Doc(d.id, newOwner.GetOr(d.userId), merge(d.data))
  }

  /**
   * `findOneAndUpdate({_id: id, userId: owner}, update, {new: true})`: the
   * new collection, and the updated document or null when nothing matched.
   */
  function UpdateScoped<R>(docs: seq<Doc<R>>, id: ObjectId, owner: ObjectId, newOwner: Option<ObjectId>, merge: R -> R)
    : (r: (seq<Doc<R>>, Option<Doc<R>>))
    ensures |r.0| == |docs|
    ensures r.1.None? <==> forall j :: 0 <= j < |docs| ==> !(docs[j].id == id && docs[j].userId == owner)
    ensures r.1.None? ==> r.0 == docs
    ensures r.1.Some? ==>
      (exists i :: 0 <= i < |docs| && docs[i].id == id && docs[i].userId == owner
        && r.1.value == Updated(docs[i], newOwner, merge) && r.0 == docs[i := r.1.value])
    ensures forall j :: 0 <= j < |docs| ==> r.0[j].id == docs[j].id
    ensures forall j :: 0 <= j < |docs| && docs[j].userId != owner ==> r.0[j] == docs[j]
  {
    match FindFirst(docs, Scoped(id, owner))
    case None => (docs, None)
    case Some(i) =>
      var d := Updated(docs[i], newOwner, merge);
      (docs[i := d], Some(d))
  }

  /**
   * `findOneAndDelete({_id: id, userId: owner})`: the new collection, and
   * the removed document or null when nothing matched.
   */
  function DeleteScoped<R>(docs: seq<Doc<R>>, id: ObjectId, owner: ObjectId): (r: (seq<Doc<R>>, Option<Doc<R>>))
    ensures r.1.None? <==> forall j :: 0 <= j < |docs| ==> !(docs[j].id == id && docs[j].userId == owner)
    ensures r.1.None? ==> r.0 == docs
    ensures r.1.Some? ==> r.1.value in docs && r.1.value.id == id && r.1.value.userId == owner
    ensures r.1.Some? ==> multiset(r.0) == multiset(docs) - multiset{r.1.value}
  {
    match FindFirst(docs, Scoped(id, owner))
    case None => (docs, None)
    case Some(i) => (RemoveAt(docs, i), Some(docs[i]))
  }

  /** Ids are below the next id to be handed out. */
  ghost predicate IdsBelow<R>(docs: seq<Doc<R>>, next: ObjectId) {
    forall i :: 0 <= i < |docs| ==> docs[i].id < next
  }

  /** No two documents share an id. */
  ghost predicate IdsDistinct<R>(docs: seq<Doc<R>>) {
    forall i, j :: 0 <= i < j < |docs| ==> docs[i].id != docs[j].id
  }

  /** Saving a new document with a fresh id keeps ids distinct and below the advanced counter. */
  lemma AppendKeepsIds<R>(docs: seq<Doc<R>>, next: ObjectId, d: Doc<R>)
    requires IdsBelow(docs, next) && IdsDistinct(docs) && d.id == next
    ensures IdsBelow(docs + [d], next + 1) && IdsDistinct(docs + [d])
  {
  }

  /** An ownership-scoped update keeps ids distinct and below the counter. */
  lemma UpdateKeepsIds<R>(docs: seq<Doc<R>>, next: ObjectId, id: ObjectId, owner: ObjectId, newOwner: Option<ObjectId>, merge: R -> R)
    requires IdsBelow(docs, next) && IdsDistinct(docs)
    ensures IdsBelow(UpdateScoped(docs, id, owner, newOwner, merge).0, next)
    ensures IdsDistinct(UpdateScoped(docs, id, owner, newOwner, merge).0)
  {
  }

  /** An ownership-scoped delete keeps ids distinct and below the counter, and leaves no document with that id. */
  lemma DeleteKeepsIds<R>(docs: seq<Doc<R>>, next: ObjectId, id: ObjectId, owner: ObjectId)
    requires IdsBelow(docs, next) && IdsDistinct(docs)
    ensures IdsBelow(DeleteScoped(docs, id, owner).0, next)
    ensures IdsDistinct(DeleteScoped(docs, id, owner).0)
    ensures DeleteScoped(docs, id, owner).1.Some? ==> forall d :: d in DeleteScoped(docs, id, owner).0 ==> d.id != id
  {
    match FindFirst(docs, Scoped(id, owner))
    case None =>
    case Some(i) =>
      var r := RemoveAt(docs, i);
      forall a, b | 0 <= a < b < |r| ensures r[a].id != r[b].id {
        var a', b' := if a < i then a else a + 1, if b < i then b else b + 1;
        assert r[a] == docs[a'] && r[b] == docs[b'] && a' < b';
      }
      forall d | d in r ensures d.id != id {
        var k :| 0 <= k < |r| && r[k] == d;
        assert d == docs[if k < i then k else k + 1];
      }
  }

  /** A delete by one owner leaves every other owner's documents exactly as they were. */
  lemma DeleteSparesOtherOwners<R>(docs: seq<Doc<R>>, id: ObjectId, owner: ObjectId, other: ObjectId)
    requires other != owner
    ensures OwnedBy(DeleteScoped(docs, id, owner).0, other) == OwnedBy(docs, other)
  {
    match FindFirst(docs, Scoped(id, owner))
    case None =>
    case Some(i) => FilterRemoveAt(docs, i, OwnerIs(other));
  }

  /**
   * An update whose body names no other owner leaves every other owner's
   * documents exactly as they were.
   */
  lemma UpdateSparesOtherOwners<R>(docs: seq<Doc<R>>, id: ObjectId, owner: ObjectId, newOwner: Option<ObjectId>,
                                   merge: R -> R, other: ObjectId)
    requires other != owner && newOwner != Some(other)
    ensures OwnedBy(UpdateScoped(docs, id, owner, newOwner, merge).0, other) == OwnedBy(docs, other)
  {
    match FindFirst(docs, Scoped(id, owner))
    case None =>
    case Some(i) => FilterReplace(docs, i, Updated(docs[i], newOwner, merge), OwnerIs(other));
  }

  /**
   * The update body is spread into the update, so a body naming another
   * owner moves the matched document into that owner's list.
   */
  lemma UpdateCanReassignOwner<R>(docs: seq<Doc<R>>, id: ObjectId, owner: ObjectId, other: ObjectId, merge: R -> R)
    requires other != owner
    requires exists i :: 0 <= i < |docs| && docs[i].id == id && docs[i].userId == owner
    ensures |OwnedBy(UpdateScoped(docs, id, owner, Some(other), merge).0, other)| == |OwnedBy(docs, other)| + 1
    ensures UpdateScoped(docs, id, owner, Some(other), merge).1.Some?
    ensures UpdateScoped(docs, id, owner, Some(other), merge).1.value.id == id
    ensures UpdateScoped(docs, id, owner, Some(other), merge).1.value in OwnedBy(UpdateScoped(docs, id, owner, Some(other), merge).0, other)
    ensures IdsDistinct(docs) ==> forall d :: d in OwnedBy(UpdateScoped(docs, id, owner, Some(other), merge).0, owner) ==> d.id != id
  {
    var i :| 0 <= i < |docs| && docs[i].id == id && docs[i].userId == owner;
    var k := FindFirst(docs, Scoped(id, owner)).value;
    var d := Updated(docs[k], Some(other), merge);
    var after := docs[k := d];
    FilterReplaceLength(docs, k, d, OwnerIs(other));
    assert after[k] == d;
    if IdsDistinct(docs) {
      forall e | e in OwnedBy(after, owner) ensures e.id != id {
        var j :| 0 <= j < |after| && after[j] == e;
        assert j != k;
        assert e == docs[j];
      }
    }
  }

  /** A saved document shows up in its owner's list and in no other. */
  lemma AppendOwnedBy<R>(docs: seq<Doc<R>>, d: Doc<R>, o: ObjectId)
    ensures OwnedBy(docs + [d], o) == OwnedBy(docs, o) + (if d.userId == o then [d] else [])
  {
    FilterConcat(docs, [d], OwnerIs(o));
  }

  /** The merge an upsert applies to the stored PersonalInfo. */
  function InfoMerge(b: InfoBody): Info -> Info {
    (info: Info) => MergeInfo(info, b)
  }

  /**
   * `findOneAndUpdate({userId: owner}, {...body, updatedAt: now}, {new: true, upsert: true})`:
   * the owner's first document is updated, or one is inserted with a fresh
   * id when the owner has none. Upserts do not validate, so an inserted
   * document holds only the body's paths.
   */
  function Upsert(docs: seq<Doc<Info>>, owner: ObjectId, body: InfoBody, now: int, freshId: ObjectId)
    : (r: (seq<Doc<Info>>, Doc<Info>))
    ensures r.1 in r.0 && r.1.data.updatedAt == now
    ensures r.1.userId == body.userId.GetOr(owner)
    ensures FirstOwned(docs, owner).Some? ==>
      && (exists i :: 0 <= i < |docs| && docs[i] == FirstOwned(docs, owner).value && r.0 == docs[i := r.1])
      && r.1.id == FirstOwned(docs, owner).value.id
      && r.1.data == MergeInfo(FirstOwned(docs, owner).value.data, body.(updatedAt := Some(now)))
    ensures FirstOwned(docs, owner).None? ==>
      && r.0 == docs + [r.1] && r.1.id == freshId
      && r.1.data == MergeInfo(Info(map[], now), body.(updatedAt := Some(now)))
    ensures |docs| <= |r.0| && forall j :: 0 <= j < |docs| && docs[j].userId != owner ==> r.0[j] == docs[j]
  {
    var b := body.(updatedAt := Some(now));
    match FindFirst(docs, OwnerIs(owner))
    case Some(i) =>
      var d := Updated(docs[i], b.userId, InfoMerge(b));
      assert docs[i := d][i] == d;
      (docs[i := d], d)
    case None =>
      var d := Doc(freshId, b.userId.GetOr(owner), MergeInfo(Info(map[], now), b));
      (docs + [d], d)
  }

  /** An upsert leaves every other owner's PersonalInfo list as it was, unless the body names that owner. */
  lemma UpsertSparesOtherOwners(docs: seq<Doc<Info>>, owner: ObjectId, body: InfoBody, now: int, freshId: ObjectId,
                                other: ObjectId)
    requires other != owner && body.userId != Some(other)
    ensures OwnedBy(Upsert(docs, owner, body, now, freshId).0, other) == OwnedBy(docs, other)
  {
    var b := body.(updatedAt := Some(now));
    match FindFirst(docs, OwnerIs(owner))
    case Some(i) => FilterReplace(docs, i, Updated(docs[i], b.userId, InfoMerge(b)), OwnerIs(other));
    case None => AppendOwnedBy(docs, Doc(freshId, b.userId.GetOr(owner), MergeInfo(Info(map[], now), b)), other);
  }

  /**
   * Upserting the same body twice is upserting it once at the later time:
   * the content is the same and only `updatedAt` moves on.
   */
  lemma UpsertTwice(docs: seq<Doc<Info>>, owner: ObjectId, body: InfoBody, t1: int, t2: int, id1: ObjectId, id2: ObjectId)
    requires body.userId.None? || body.userId == Some(owner)
    ensures Upsert(Upsert(docs, owner, body, t1, id1).0, owner, body, t2, id2) == Upsert(docs, owner, body, t2, id1)
  {
    var b1, b2 := body.(updatedAt := Some(t1)), body.(updatedAt := Some(t2));
    var once := Upsert(docs, owner, body, t1, id1).0;
    var p := OwnerIs<Info>(owner);
    match FindFirst(docs, p)
    case Some(i) =>
      var d1 := Updated(docs[i], b1.userId, InfoMerge(b1));
      assert once == docs[i := d1];
      assert once[i] == d1 && d1.userId == owner;
      assert FindFirst(once, p) == Some(i) by {
        assert p(once[i]);
        forall j | 0 <= j < i ensures !p(once[j]) { assert once[j] == docs[j]; }
      }
      var x := docs[i].data;
      assert MergeInfo(MergeInfo(x, b1), b2) == MergeInfo(x, b2) by {
        assert x.text + SchemaText(b1.text) + SchemaText(b2.text) == x.text + SchemaText(b2.text);
      }
      var d2 := Updated(once[i], b2.userId, InfoMerge(b2));
      assert d2 == Updated(docs[i], b2.userId, InfoMerge(b2));
      assert once[i := d2] == docs[i := d2];
    case None =>
      assert FindFirst(once, p) == Some(|docs|) by {
        assert p(once[|docs|]);
        forall j | 0 <= j < |docs| ensures !p(once[j]) { assert once[j] == docs[j]; }
      }
      assert MergeInfo(MergeInfo(Info(map[], t1), b1), b2) == MergeInfo(Info(map[], t2), b2) by {
        assert map[] + SchemaText(b1.text) + SchemaText(b2.text) == map[] + SchemaText(b2.text);
      }
      var d1 := Doc(id1, b1.userId.GetOr(owner), MergeInfo(Info(map[], t1), b1));
      assert once == docs + [d1];
      var d2 := Updated(once[|docs|], b2.userId, InfoMerge(b2));
      assert d2 == Doc(id1, b2.userId.GetOr(owner), MergeInfo(Info(map[], t2), b2));
      assert once[|docs| := d2] == docs + [d2];
  }
}
