/**
 * The "my stories" screen: a local list of the user's stories, kept in step
 * with the store after a successful favourite toggle or delete, and shown
 * either whole or filtered to favourites.
 */
module MyStoriesScreen {
  import opened Common
  import opened AuthService
  import opened FirestoreService
  import opened FirestoreContext

  datatype StoryFilter = All | FavoritesOnly

  /** `stories.map(s => s.id === id ? { ...s, isFavorite: value } : s)`. */
  function SetFavoriteWhere(stories: seq<StoredStory>, id: string, value: bool): (r: seq<StoredStory>)
    ensures |r| == |stories|
    ensures forall k :: 0 <= k < |r| && stories[k].id == id ==> r[k] == stories[k].(isFavorite := value)
    ensures forall k :: 0 <= k < |r| && stories[k].id != id ==> r[k] == stories[k]
  {
    if stories == [] then []
    else
      var head := if stories[0].id == id then stories[0].(isFavorite := value) else stories[0];
      [head] + SetFavoriteWhere(stories[1..], id, value)
  }

  /** `stories.filter(keep)`. */
  function Keep(stories: seq<StoredStory>, keep: StoredStory -> bool): (r: seq<StoredStory>)
    ensures |r| <= |stories|
    ensures forall s :: s in r <==> s in stories && keep(s)
  {
    if stories == [] then []
    else (if keep(stories[0]) then [stories[0]] else []) + Keep(stories[1..], keep)
  }

  /** Filtering is order preserving: it distributes over concatenation. */
  lemma {:induction false} KeepAppend(a: seq<StoredStory>, b: seq<StoredStory>, keep: StoredStory -> bool)
    ensures Keep(a + b, keep) == Keep(a, keep) + Keep(b, keep)
  {
    if a == [] {
      assert a + b == b;
    } else {
      assert (a + b)[0] == a[0];
      assert (a + b)[1..] == a[1..] + b;
      KeepAppend(a[1..], b, keep);
    }
  }

  /** A filter every story passes changes nothing. */
  lemma {:induction false} KeepEverything(stories: seq<StoredStory>, keep: StoredStory -> bool)
    requires forall k :: 0 <= k < |stories| ==> keep(stories[k])
    ensures Keep(stories, keep) == stories
  {
    if stories != [] {
      KeepEverything(stories[1..], keep);
    }
  }

  /** `stories.filter(s => s.id !== id)`. */
  function WithoutStory(stories: seq<StoredStory>, id: string): (r: seq<StoredStory>)
    ensures forall s :: s in r <==> s in stories && s.id != id
  {
    Keep(stories, (s: StoredStory) => s.id != id)
  }

  /** `filter === 'all' ? stories : stories.filter(story => story.isFavorite)`. */
  function FilteredStories(stories: seq<StoredStory>, filter: StoryFilter): (r: seq<StoredStory>)
    ensures filter == All ==> r == stories
    ensures filter == FavoritesOnly ==> forall s :: s in r <==> s in stories && s.isFavorite
  {
    match filter
    case All => stories
    case FavoritesOnly => Keep(stories, (s: StoredStory) => s.isFavorite)
  }

  /** Deleting a story the list does not hold leaves the list as it was. */
  lemma WithoutAbsentStory(stories: seq<StoredStory>, id: string)
    requires forall k :: 0 <= k < |stories| ==> stories[k].id != id
    ensures WithoutStory(stories, id) == stories
  {
    KeepEverything(stories, (s: StoredStory) => s.id != id);
  }

  /** Deleting keeps the relative order of the stories that remain. */
  lemma DeleteKeepsOrder(a: seq<StoredStory>, b: seq<StoredStory>, id: string)
    ensures WithoutStory(a + b, id) == WithoutStory(a, id) + WithoutStory(b, id)
  {
    KeepAppend(a, b, (s: StoredStory) => s.id != id);
  }

  /** The favourites view keeps the relative order of the whole list. */
  lemma FavoritesKeepOrder(a: seq<StoredStory>, b: seq<StoredStory>)
    ensures FilteredStories(a + b, FavoritesOnly) == FilteredStories(a, FavoritesOnly) + FilteredStories(b, FavoritesOnly)
  {
    KeepAppend(a, b, (s: StoredStory) => s.isFavorite);
  }

  class MyStories {
    var stories: seq<StoredStory>
    var loading: bool
    var filter: StoryFilter

    constructor ()
      ensures stories == [] && loading && filter == All
    {
      stories := [];
      loading := true;
      filter := All;
    }

    /** `filteredStories`: the list as rendered under the current filter. */
    function Visible(): (shown: seq<StoredStory>)
      reads this
      ensures forall s :: s in shown ==> s in stories
      ensures filter == All ==> shown == stories
      ensures filter == FavoritesOnly ==> forall s :: s in shown <==> s in stories && s.isFavorite
    {
      FilteredStories(stories, filter)
    }

    method SetFilter(f: StoryFilter)
      modifies this
      ensures filter == f && stories == old(stories) && loading == old(loading)
    {
      filter := f;
    }

    /** `loadStories`: replace the list on success, keep it on failure; not loading afterwards either way. */
    method LoadStories(store: StoryStore, user: Option<User>, fails: bool) returns (loaded: bool)
      modifies this, store
      ensures store.docs == old(store.docs) && store.clock == old(store.clock)
      ensures !loading && filter == old(filter)
      ensures loaded <==> user.Some? && !fails
      ensures !loaded ==> stories == old(stories)
      ensures loaded ==> IsListing(store.docs, user.value.uid, store.clock, stories)
    {
      loading := true;
      var result := Perform(store, GetUserStories, user, fails);
      loaded := result.Success?;
      if result.Success? {
        stories := result.value.stories;
      }
      loading := false;
    }

    /** `handleFavoriteToggle(story)`: the remote write first, then the same change locally. */
    method HandleFavoriteToggle(store: StoryStore, user: Option<User>, story: StoredStory, fails: bool) returns (ok: bool)
      modifies this, store
      ensures store.clock == old(store.clock)
      ensures loading == old(loading) && filter == old(filter)
      ensures ok <==> !fails && story.id in old(store.docs)
      ensures ok ==> store.docs == Favorited(old(store.docs), story.id, !story.isFavorite)
                     && stories == SetFavoriteWhere(old(stories), story.id, !story.isFavorite)
      ensures !ok ==> store.docs == old(store.docs) && stories == old(stories)
    {
      var result := Perform(store, ToggleFavorite(story.id, !story.isFavorite), user, fails);
      ok := result.Success?;
      if ok {
        stories := SetFavoriteWhere(stories, story.id, !story.isFavorite);
      }
    }

    /** The confirmed branch of `handleDelete(id)`: the remote delete first, then drop that id locally. */
    method HandleDelete(store: StoryStore, user: Option<User>, id: string, fails: bool) returns (ok: bool)
      modifies this, store
      ensures store.clock == old(store.clock)
      ensures loading == old(loading) && filter == old(filter)
      ensures ok <==> !fails
      ensures ok ==> store.docs == old(store.docs) - {id} && stories == WithoutStory(old(stories), id)
      ensures ok ==> forall s :: s in Visible() ==> s.id != id
      ensures !ok ==> store.docs == old(store.docs) && stories == old(stories)
    {
      var result := Perform(store, DeleteStory(id), user, fails);
      ok := result.Success?;
      if ok {
        stories := WithoutStory(stories, id);
      }
    }
  }
}
