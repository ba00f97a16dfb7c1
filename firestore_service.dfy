/**
 * The document facade over the `stories` collection. The remote store is a
 * `StoryStore` object holding the collection as a map from document id to
 * document, plus the clock that `new Date()` reads. Each operation takes a
 * `fails` flag standing for a transport or store error; a failing operation
 * changes nothing and rejects with its own fixed message.
 */
module FirestoreService {
  import opened Common
  import opened OpenAIService
  import opened AuthService

  /**
   * A stored `createdAt` field as the store orders it: absent, a value of a
   * type the store orders below timestamps (null, a boolean, a number), a
   * timestamp, or a value of a type it orders above them (a string, bytes, a
   * reference, a point, an array, a map).
   */
  datatype StoredTime = Missing | BelowTimes | Stamp(time: nat) | AboveTimes

  /** A document as the store holds it. */
  datatype Doc = Doc(title: string, content: string, summary: string, userId: string,
                     isFavorite: bool, tags: seq<string>, createdAt: StoredTime)

  /** A story as the facade hands it to its callers: the document, its id and a plain time. */
  datatype StoredStory = StoredStory(id: string, title: string, content: string, summary: string,
                                     createdAt: nat, userId: string, isFavorite: bool, tags: seq<string>)

  const SaveFailed := "Failed to save story"
  const ListFailed := "Failed to get user stories"
  const UpdateFailed := "Failed to update story"
  const DeleteFailed := "Failed to delete story"
  const TagFailed := "Failed to update story tags"

  predicate Distinct<T(==)>(s: seq<T>) {
    forall i, j :: 0 <= i < j < |s| ==> s[i] != s[j]
  }

  /** The document `saveStory` writes: the story's text, the owner, no favourite, no tags, stamped now. */
  function NewDoc(story: GeneratedStory, owner: User, now: nat): (d: Doc)
    ensures d.title == story.title && d.content == story.content && d.summary == story.summary
    ensures d.userId == owner.uid && !d.isFavorite && d.tags == []
    ensures d.createdAt == Stamp(now)
  {
    Doc(story.title, story.content, story.summary, owner.uid, false, [], Stamp(now))
  }

  /** `saveStory` stamps the save time and ignores the story's own `createdAt`. */
  lemma NewDocIgnoresStoryTime(story: GeneratedStory, owner: User, now: nat, other: nat)
    ensures NewDoc(story, owner, now) == NewDoc(story.(createdAt := other), owner, now)
    ensures NewDoc(story, owner, now).createdAt == Stamp(now)
  {
  }

  /** A stored timestamp reads back as its time; any other value reads back as `now`. */
  function ReadCreatedAt(stored: StoredTime, now: nat): (t: nat)
    ensures stored.Stamp? ==> t == stored.time
    ensures !stored.Stamp? ==> t == now
  {
    match stored
    case Stamp(time) => time
    case _ => now
  }

  /** The per-document mapping of `getUserStories`: `{ id, ...data, createdAt }`. */
  function ReadStory(id: string, d: Doc, now: nat): (s: StoredStory)
    ensures s.id == id && s.userId == d.userId
    ensures s.title == d.title && s.content == d.content && s.summary == d.summary
    ensures s.isFavorite == d.isFavorite && s.tags == d.tags
    ensures s.createdAt == ReadCreatedAt(d.createdAt, now)
  {
    StoredStory(id, d.title, d.content, d.summary, ReadCreatedAt(d.createdAt, now), d.userId, d.isFavorite, d.tags)
  }

  /** A document written by `saveStory` reads back with the saved text, owner and save time. */
  lemma SavedStoryReadsBack(id: string, story: GeneratedStory, owner: User, savedAt: nat, now: nat)
    ensures ReadStory(id, NewDoc(story, owner, savedAt), now)
            == StoredStory(id, story.title, story.content, story.summary, savedAt, owner.uid, false, [])
  {
  }

  /** A stored time that is not a timestamp never fails the read: it becomes `now`. */
  lemma MalformedTimeReadsAsNow(id: string, d: Doc, now: nat)
    requires !d.createdAt.Stamp?
    ensures ReadStory(id, d, now).createdAt == now
    ensures ReadStory(id, d, now).id == id && ReadStory(id, d, now).userId == d.userId
  {
  }

  /** The stored time of an id; an id the collection lacks has none. */
  function TimeOf(docs: map<string, Doc>, id: string): StoredTime {
    if id in docs then docs[id].createdAt else Missing
  }

  /** The group of a stored time in the store's ordering of values by type. */
  function TypeOrder(t: StoredTime): nat {
    match t
    case Missing => 0
    case BelowTimes => 1
    case Stamp(_) => 2
    case AboveTimes => 3
  }

  /**
   * `a` sorts at or before `b` under `orderBy('createdAt', 'desc')`: a later
   * type group, or the same group and, for two timestamps, a time no earlier.
   * Values within one other group are not told apart.
   */
  predicate AtLeast(a: StoredTime, b: StoredTime) {
    TypeOrder(a) > TypeOrder(b) || (TypeOrder(a) == TypeOrder(b) && (a.Stamp? ==> a.time >= b.time))
  }

  /** The descending order is a total preorder: any two times compare, and comparisons chain. */
  lemma AtLeastTotalPreorder(a: StoredTime, b: StoredTime, c: StoredTime)
    ensures AtLeast(a, a)
    ensures AtLeast(a, b) || AtLeast(b, a)
    ensures AtLeast(a, b) && AtLeast(b, c) ==> AtLeast(a, c)
  {
  }

  /** Any timestamp sorts before any value of a lower group and after any value of a higher group. */
  lemma TimestampsBetweenGroups(t: nat, below: StoredTime, above: StoredTime)
    requires below.BelowTimes? && above.AboveTimes?
    ensures AtLeast(Stamp(t), below) && !AtLeast(below, Stamp(t))
    ensures AtLeast(above, Stamp(t)) && !AtLeast(Stamp(t), above)
  {
  }

  /** `orderBy('createdAt', 'desc')`. */
  predicate NewestFirst(docs: map<string, Doc>, ids: seq<string>) {
    forall i, j :: 0 <= i < j < |ids| ==> AtLeast(TimeOf(docs, ids[i]), TimeOf(docs, ids[j]))
  }

  /** Where each element of `ids` with `x` spliced in at position `i` came from. */
  lemma SpliceAt(ids: seq<string>, i: nat, x: string, a: nat)
    requires i <= |ids| && a <= |ids|
    ensures (ids[..i] + [x] + ids[i..])[a] == if a < i then ids[a] else if a == i then x else ids[a - 1]
  {
  }

  /**
   * Splicing at a position where everything before sorts at or before the
   * new id, and the next one does not, keeps the order.
   */
  lemma SpliceNewestFirst(docs: map<string, Doc>, ids: seq<string>, i: nat, id: string)
    requires i <= |ids| && NewestFirst(docs, ids)
    requires forall j :: 0 <= j < i ==> AtLeast(TimeOf(docs, ids[j]), TimeOf(docs, id))
    requires i < |ids| ==> !AtLeast(TimeOf(docs, ids[i]), TimeOf(docs, id))
    ensures NewestFirst(docs, ids[..i] + [id] + ids[i..])
  {
    var r := ids[..i] + [id] + ids[i..];
    forall a, b | 0 <= a < b < |r|
      ensures AtLeast(TimeOf(docs, r[a]), TimeOf(docs, r[b]))
    {
      SpliceAt(ids, i, id, a);
      SpliceAt(ids, i, id, b);
      if a == i {
        var next := TimeOf(docs, ids[i]);
        AtLeastTotalPreorder(TimeOf(docs, id), next, TimeOf(docs, ids[b - 1]));
        AtLeastTotalPreorder(next, next, next);
      }
    }
  }

  /** Splicing a new element into a duplicate-free list keeps it duplicate-free. */
  lemma SpliceDistinct(ids: seq<string>, i: nat, id: string)
    requires i <= |ids| && Distinct(ids) && id !in ids
    ensures Distinct(ids[..i] + [id] + ids[i..])
  {
    var r := ids[..i] + [id] + ids[i..];
    forall a, b | 0 <= a < b < |r|
      ensures r[a] != r[b]
    {
      SpliceAt(ids, i, id, a);
      SpliceAt(ids, i, id, b);
    }
  }

  /** Insert `id` into a newest-first list, keeping it newest first. */
  method InsertNewestFirst(docs: map<string, Doc>, ids: seq<string>, id: string) returns (r: seq<string>)
    requires NewestFirst(docs, ids)
    ensures NewestFirst(docs, r)
    ensures |r| == |ids| + 1
    ensures forall x :: x in r <==> x in ids || x == id
    ensures Distinct(ids) && id !in ids ==> Distinct(r)
  {
    var k := TimeOf(docs, id);
    var i := 0;
    while i < |ids| && AtLeast(TimeOf(docs, ids[i]), k)
      invariant 0 <= i <= |ids|
      invariant forall j :: 0 <= j < i ==> AtLeast(TimeOf(docs, ids[j]), k)
    {
      i := i + 1;
    }
    r := ids[..i] + [id] + ids[i..];
    assert ids == ids[..i] + ids[i..];
    SpliceNewestFirst(docs, ids, i, id);
    if Distinct(ids) && id !in ids {
      SpliceDistinct(ids, i, id);
    }
  }

  /** The owner's documents the query returns: those whose `createdAt` field exists. */
  predicate Listed(docs: map<string, Doc>, uid: string, id: string) {
    id in docs && docs[id].userId == uid && !docs[id].createdAt.Missing?
  }

  /**
   * The query `where('userId', '==', uid)` with `orderBy('createdAt', 'desc')`:
   * exactly the owner's documents that have a `createdAt` field, each once,
   * newest first.
   */
  method QueryByOwner(docs: map<string, Doc>, uid: string) returns (ids: seq<string>)
    ensures forall id :: id in ids <==> Listed(docs, uid, id)
    ensures Distinct(ids)
    ensures NewestFirst(docs, ids)
  {
    ids := [];
    var pending := docs.Keys;
    while pending != {}
      invariant pending <= docs.Keys
      invariant forall id :: id in ids <==> id !in pending && Listed(docs, uid, id)
      invariant Distinct(ids)
      invariant NewestFirst(docs, ids)
      decreases pending
    {
      var id :| id in pending;
      pending := pending - {id};
      if docs[id].userId == uid && !docs[id].createdAt.Missing? {
        ids := InsertNewestFirst(docs, ids, id);
      }
    }
  }

  /** `querySnapshot.docs.map(...)`: read each listed document in order. */
  function ReadAll(docs: map<string, Doc>, ids: seq<string>, now: nat): (stories: seq<StoredStory>)
    requires forall id :: id in ids ==> id in docs
    ensures |stories| == |ids|
    ensures forall k :: 0 <= k < |ids| ==> stories[k] == ReadStory(ids[k], docs[ids[k]], now)
  {
    if ids == [] then [] else [ReadStory(ids[0], docs[ids[0]], now)] + ReadAll(docs, ids[1..], now)
  }

  /**
   * What `getUserStories(uid)` resolves with, read at time `now`: each story
   * is a listed document read back, every listed document appears, no id
   * twice, newest first.
   */
  ghost predicate IsListing(docs: map<string, Doc>, uid: string, now: nat, stories: seq<StoredStory>) {
    (forall k :: 0 <= k < |stories| ==>
       Listed(docs, uid, stories[k].id) && stories[k] == ReadStory(stories[k].id, docs[stories[k].id], now))
    && (forall id :: Listed(docs, uid, id) ==> exists k :: 0 <= k < |stories| && stories[k].id == id)
    && (forall i, j :: 0 <= i < j < |stories| ==>
          stories[i].id != stories[j].id && AtLeast(TimeOf(docs, stories[i].id), TimeOf(docs, stories[j].id)))
  }

  /** Every story of a listing belongs to the owner, and an owner without listed documents gets none. */
  lemma ListingBelongsToOwner(docs: map<string, Doc>, uid: string, now: nat, stories: seq<StoredStory>)
    requires IsListing(docs, uid, now, stories)
    ensures forall k :: 0 <= k < |stories| ==> stories[k].userId == uid
    ensures (forall id :: !Listed(docs, uid, id)) ==> stories == []
  {
    if stories != [] {
      assert Listed(docs, uid, stories[0].id);
    }
  }

  /** A listing never holds a document without a `createdAt` field. */
  lemma ListingSkipsMissingTimes(docs: map<string, Doc>, uid: string, now: nat, stories: seq<StoredStory>, id: string)
    requires IsListing(docs, uid, now, stories)
    requires id in docs && docs[id].createdAt.Missing?
    ensures forall k :: 0 <= k < |stories| ==> stories[k].id != id
  {
  }

  /** Of two stories saved at different times, the later one is listed first. */
  lemma LaterSaveListedFirst(docs: map<string, Doc>, uid: string, now: nat, stories: seq<StoredStory>,
                             i: nat, j: nat, earlier: nat, later: nat)
    requires IsListing(docs, uid, now, stories)
    requires i < |stories| && j < |stories|
    requires TimeOf(docs, stories[i].id) == Stamp(later) && TimeOf(docs, stories[j].id) == Stamp(earlier)
    requires earlier < later
    ensures i < j
  {
  }

  /** A store-assigned id: longer than every id in use, hence unused. */
  method FreshId(used: set<string>) returns (id: string)
    ensures id !in used
  {
    var longest: nat := 0;
    var pending := used;
    while pending != {}
      invariant pending <= used
      invariant forall u :: u in used - pending ==> |u| <= longest
      decreases pending
    {
      var u :| u in pending;
      if |u| > longest {
        longest := |u|;
      }
      pending := pending - {u};
    }
    id := seq(longest + 1, _ => 'x');
    assert |id| == longest + 1;
  }

  /** The tag list `addTag` writes back: unchanged when present (exact match), else appended. */
  function WithTag(tags: seq<string>, tag: string): (r: seq<string>)
    ensures forall t :: t in r <==> t in tags || t == tag
    ensures |tags| <= |r| <= |tags| + 1 && r[..|tags|] == tags
  {
    if tag in tags then tags else tags + [tag]
  }

  /** The whole collection after `addTag(id, tag)`; a missing id leaves it as it was. */
  function Tagged(docs: map<string, Doc>, id: string, tag: string): (r: map<string, Doc>)
    ensures r.Keys == docs.Keys
    ensures id in docs ==> r[id] == docs[id].(tags := WithTag(docs[id].tags, tag))
    ensures forall other :: other in docs && other != id ==> r[other] == docs[other]
  {
    if id in docs then docs[id := docs[id].(tags := WithTag(docs[id].tags, tag))] else docs
  }

  /** The whole collection after `toggleFavorite(id, value)` on an existing id. */
  function Favorited(docs: map<string, Doc>, id: string, value: bool): (r: map<string, Doc>)
    requires id in docs
    ensures r.Keys == docs.Keys
    ensures r[id].isFavorite == value
    ensures r[id] == docs[id].(isFavorite := value)
    ensures forall other :: other in docs && other != id ==> r[other] == docs[other]
  {
    docs[id := docs[id].(isFavorite := value)]
  }

  /** A tag already present leaves the list as it was; an absent one goes at the end. */
  lemma {:induction false} WithTagContents(tags: seq<string>, tag: string)
    ensures tag in tags ==> WithTag(tags, tag) == tags
    ensures tag !in tags ==> WithTag(tags, tag) == tags + [tag]
  {
  }

  /** A duplicate-free tag list stays duplicate-free. */
  lemma {:induction false} WithTagKeepsDistinct(tags: seq<string>, tag: string)
    requires Distinct(tags)
    ensures Distinct(WithTag(tags, tag))
  {
    if tag !in tags {
      var r := tags + [tag];
      forall i, j | 0 <= i < j < |r|
        ensures r[i] != r[j]
      {
        if j == |tags| {
          assert r[i] == tags[i];
        } else {
          assert r[i] == tags[i] && r[j] == tags[j];
        }
      }
    }
  }

  /** Adding the same tag twice leaves exactly one copy of it (idempotent add). */
  lemma AddTagTwice(tags: seq<string>, tag: string)
    requires tag !in tags
    ensures WithTag(WithTag(tags, tag), tag) == WithTag(tags, tag)
    ensures multiset(WithTag(WithTag(tags, tag), tag))[tag] == 1
  {
    assert multiset(tags)[tag] == 0;
  }

  /** `addTag` on the collection is idempotent, and a missing id changes nothing. */
  lemma TaggedIdempotent(docs: map<string, Doc>, id: string, tag: string)
    ensures Tagged(Tagged(docs, id, tag), id, tag) == Tagged(docs, id, tag)
    ensures id !in docs ==> Tagged(docs, id, tag) == docs
  {
    if id in docs {
      assert tag in WithTag(docs[id].tags, tag);
    }
  }

  /** Favouriting and then un-favouriting restores a story that was not a favourite. */
  lemma FavoriteRoundTrip(docs: map<string, Doc>, id: string)
    requires id in docs && !docs[id].isFavorite
    ensures Favorited(Favorited(docs, id, true), id, false) == docs
  {
    var once := Favorited(docs, id, true);
    var twice := Favorited(once, id, false);
    assert twice[id] == docs[id];
    assert forall k :: k in docs ==> twice[k] == docs[k];
  }

  class StoryStore {
    /** The `stories` collection, by document id. */
    var docs: map<string, Doc>
    /** What `new Date()` reads. */
    var clock: nat

    constructor (now: nat)
      ensures docs == map[] && clock == now
    {
      docs := map[];
      clock := now;
    }

    /** `saveStory(story, user)`: one new document under a fresh id, which is returned. */
    method SaveStory(story: GeneratedStory, owner: User, fails: bool) returns (r: Result<string, string>)
      modifies this
      ensures clock == old(clock)
      ensures fails ==> r == Failure(SaveFailed) && docs == old(docs)
      ensures !fails ==> r.Success? && r.value !in old(docs)
                         && docs == old(docs)[r.value := NewDoc(story, owner, clock)]
    {
      if fails {
        return Failure(SaveFailed);
      }
      var id := FreshId(docs.Keys);
      docs := docs[id := NewDoc(story, owner, clock)];
      r := Success(id);
    }

    /**
     * `getUserStories(user)`: exactly the owner's documents that have a
     * `createdAt` field, each once, newest first, times read back.
     */
    method GetUserStories(owner: User, fails: bool) returns (r: Result<seq<StoredStory>, string>)
      ensures fails ==> r == Failure(ListFailed)
      ensures !fails ==> r.Success? && IsListing(docs, owner.uid, clock, r.value)
    {
      if fails {
        return Failure(ListFailed);
      }
      var ids := QueryByOwner(docs, owner.uid);
      var stories := ReadAll(docs, ids, clock);
      forall id | Listed(docs, owner.uid, id)
        ensures exists k :: 0 <= k < |stories| && stories[k].id == id
      {
        var k :| 0 <= k < |ids| && ids[k] == id;
        assert stories[k].id == id;
      }
      r := Success(stories);
    }

    /** `toggleFavorite(id, value)`: overwrite one field; a missing id is rejected by the store. */
    method ToggleFavorite(id: string, value: bool, fails: bool) returns (r: Result<(), string>)
      modifies this
      ensures clock == old(clock)
      ensures fails || id !in old(docs) ==> r == Failure(UpdateFailed) && docs == old(docs)
      ensures !fails && id in old(docs) ==> r.Success? && docs == Favorited(old(docs), id, value)
    {
      if fails || id !in docs {
        return Failure(UpdateFailed);
      }
      docs := Favorited(docs, id, value);
      r := Success(());
    }

    /** `deleteStory(id)`: remove that id (deleting a missing id succeeds). */
    method DeleteStory(id: string, fails: bool) returns (r: Result<(), string>)
      modifies this
      ensures clock == old(clock)
      ensures fails ==> r == Failure(DeleteFailed) && docs == old(docs)
      ensures !fails ==> r.Success? && docs == old(docs) - {id}
      ensures !fails ==> forall other :: other != id && other in old(docs) ==> other in docs && docs[other] == old(docs)[other]
    {
      if fails {
        return Failure(DeleteFailed);
      }
      docs := docs - {id};
      r := Success(());
    }

    /** `addTag(id, tag)`: read, append if absent, write back; a missing id is a silent no-op. */
    method AddTag(id: string, tag: string, fails: bool) returns (r: Result<(), string>)
      modifies this
      ensures clock == old(clock)
      ensures fails ==> r == Failure(TagFailed) && docs == old(docs)
      ensures !fails ==> r.Success? && docs == Tagged(old(docs), id, tag)
      ensures !fails && id !in old(docs) ==> docs == old(docs)
    {
      if fails {
        return Failure(TagFailed);
      }
      if id in docs {
        var tags := docs[id].tags;
        if tag !in tags {
          docs := docs[id := docs[id].(tags := tags + [tag])];
        }
      }
      r := Success(());
    }
  }
}
