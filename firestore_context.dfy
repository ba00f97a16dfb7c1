/**
 * The document context: a login guard on `saveStory` and `getUserStories`,
 * and plain forwarding of `toggleFavorite`, `deleteStory` and `addTag` to
 * the document facade.
 */
module FirestoreContext {
  import opened Common
  import opened AuthService
  import opened OpenAIService
  import opened FirestoreService

  const SaveRequiresLogin := "User must be logged in to save stories"
  const ListRequiresLogin := "User must be logged in to get stories"
  const MissingFirestoreProvider := "useFirestore must be used within a FirestoreProvider"

  /** An operation as the screens call it on the context. */
  datatype Operation =
    | SaveStory(story: GeneratedStory)
    | GetUserStories
    | ToggleFavorite(storyId: string, isFavorite: bool)
    | DeleteStory(storyId: string)
    | AddTag(storyId: string, tag: string)

  /** The facade call the context makes for it. */
  datatype ServiceCall =
    | SaveFor(story: GeneratedStory, owner: User)
    | ListFor(owner: User)
    | SetFavorite(storyId: string, isFavorite: bool)
    | Remove(storyId: string)
    | Tag(storyId: string, tag: string)

  /** What a context operation resolves with. */
  datatype Reply = SavedId(id: string) | Stories(stories: seq<StoredStory>) | Done

  predicate NeedsUser(op: Operation) {
    op.SaveStory? || op.GetUserStories?
  }

  /** The guard and the forwarding, as a choice of facade call. */
  function Route(op: Operation, user: Option<User>): (r: Result<ServiceCall, string>)
    ensures r.Failure? <==> NeedsUser(op) && user.None?
    ensures op.SaveStory? && user.None? ==> r == Failure(SaveRequiresLogin)
    ensures op.GetUserStories? && user.None? ==> r == Failure(ListRequiresLogin)
    ensures op.SaveStory? && user.Some? ==> r == Success(SaveFor(op.story, user.value))
    ensures op.GetUserStories? && user.Some? ==> r == Success(ListFor(user.value))
  {
    match op
    case SaveStory(story) =>
      if user.None? then Failure(SaveRequiresLogin) else Success(SaveFor(story, user.value))
    case GetUserStories =>
      if user.None? then Failure(ListRequiresLogin) else Success(ListFor(user.value))
    case ToggleFavorite(id, value) => Success(SetFavorite(id, value))
    case DeleteStory(id) => Success(Remove(id))
    case AddTag(id, tag) => Success(Tag(id, tag))
  }

  /** The three id-based operations do no user check: their arguments go through unchanged, whoever is signed in. */
  lemma UnguardedOperationsForward(op: Operation, user: Option<User>)
    requires !NeedsUser(op)
    ensures op.ToggleFavorite? ==> Route(op, user) == Success(SetFavorite(op.storyId, op.isFavorite))
    ensures op.DeleteStory? ==> Route(op, user) == Success(Remove(op.storyId))
    ensures op.AddTag? ==> Route(op, user) == Success(Tag(op.storyId, op.tag))
    ensures Route(op, user) == Route(op, None)
  {
  }

  /** `useFirestore`: the provider's value, or an error outside any provider. */
  function UseFirestore<T>(context: Option<T>): (r: Result<T, string>)
    ensures context.Some? ==> r == Success(context.value)
    ensures context.None? ==> r == Failure(MissingFirestoreProvider)
  {
    match context
    case Some(c) => Success(c)
    case None => Failure(MissingFirestoreProvider)
  }

  /**
   * Run a context operation against the store: a guarded operation without
   * a user fails without reaching the store; everything else is the facade
   * call's own outcome.
   */
  method Perform(store: StoryStore, op: Operation, user: Option<User>, fails: bool) returns (r: Result<Reply, string>)
    modifies store
    ensures store.clock == old(store.clock)
    ensures Route(op, user).Failure? ==> r == Failure(Route(op, user).error) && store.docs == old(store.docs)
    ensures op.GetUserStories? ==> store.docs == old(store.docs)
    ensures op.SaveStory? && user.Some? ==>
      if fails then r == Failure(SaveFailed) && store.docs == old(store.docs)
      else r.Success? && r.value.SavedId? && r.value.id !in old(store.docs)
           && store.docs == old(store.docs)[r.value.id := NewDoc(op.story, user.value, store.clock)]
    ensures op.ToggleFavorite? ==>
      if fails || op.storyId !in old(store.docs) then r == Failure(UpdateFailed) && store.docs == old(store.docs)
      else r == Success(Done) && store.docs == Favorited(old(store.docs), op.storyId, op.isFavorite)
    ensures op.DeleteStory? ==>
      if fails then r == Failure(DeleteFailed) && store.docs == old(store.docs)
      else r == Success(Done) && store.docs == old(store.docs) - {op.storyId}
    ensures op.AddTag? ==>
      if fails then r == Failure(TagFailed) && store.docs == old(store.docs)
      else r == Success(Done) && store.docs == Tagged(old(store.docs), op.storyId, op.tag)
    ensures op.GetUserStories? && user.Some? && !fails ==>
      r.Success? && r.value.Stories? && IsListing(store.docs, user.value.uid, store.clock, r.value.stories)
    ensures op.GetUserStories? && user.Some? && fails ==> r == Failure(ListFailed)
  {
    var route := Route(op, user);
    if route.Failure? {
      return Failure(route.error);
    }
    match route.value
    case SaveFor(story, owner) =>
      var saved := store.SaveStory(story, owner, fails);
      r := if saved.Success? then Success(SavedId(saved.value)) else Failure(saved.error);
    case ListFor(owner) =>
      var listed := store.GetUserStories(owner, fails);
      r := if listed.Success? then Success(Stories(listed.value)) else Failure(listed.error);
    case SetFavorite(id, value) =>
      var done := store.ToggleFavorite(id, value, fails);
      r := if done.Success? then Success(Done) else Failure(done.error);
    case Remove(id) =>
      var done := store.DeleteStory(id, fails);
      r := if done.Success? then Success(Done) else Failure(done.error);
    case Tag(id, tag) =>
      var done := store.AddTag(id, tag, fails);
      r := if done.Success? then Success(Done) else Failure(done.error);
  }
}
