# StoryNest core, modelled in Dafny

StoryNest is a mobile app for generating children's stories. Its logic sits between the screens and three remote services: an auth provider, a document store holding the `stories` collection, and a chat-completion model. This project models that logic and proves what it promises:

- the auth facade's error normalisation, with its fixed code table and two-step fallback;
- the document facade: save, the owner-scoped newest-first listing, favourite, delete and tag;
- the generation facade: the prompt, the request, and the parse-or-fallback rule;
- the session state (`user`, `loading`) and the story-draft state (`currentStory`, `isGenerating`, `error`);
- the login guard of the document context and the navigator's choice of screen set;
- the screens' own rules: the register and login checks, the story-parameter validation, and the "my stories" list updates and filter.

Remote services are parameters:
- the auth provider is a function from the call's arguments to an outcome, or a given outcome;
- a store failure is a `fails` flag;
- the chat completion is `api: ChatRequest -> Option<seq<string>>`, where None is a failed request;
- `JSON.parse` is `json: string -> Option<StoryFields>`;
- time is a `nat`: the store's `clock`, or a `now` parameter.

Stateful parts are classes with `modifies` clauses:
- `StoryStore` holds the collection as `map<string, Doc>` plus the clock;
- `Session`, `StoryDraft`, `MyStories`, `StoryGeneratorForm`, `RegisterForm` and `LoginForm` hold a provider's or a screen's state.

An `await` becomes a call to another model member, and every operation is one atomic step.

Files, one module each: `common.dfy`, `auth_service.dfy`, `openai_service.dfy`, `firestore_service.dfy`, `auth_context.dfy`, `story_context.dfy`, `firestore_context.dfy`, `app_navigator.dfy`, `my_stories_screen.dfy`, `story_generator_screen.dfy`, `register_screen.dfy`, `login_screen.dfy`.

## Model

| member | source | states |
|---|---|---|
| Common.OrElse | src/services/auth.ts:134 | JavaScript `a \|\| b` on strings: `a` when non-empty, else `b` |
| Common.ContainsMiddle | src/services/openai.ts:61-72 | the middle part of a three-part concatenation occurs in it (used for the prompt's lines) |
| AuthService.TableMessage | src/services/auth.ts:123-134 | `errorMap[code]`: the fixed, non-empty message of a table code, and the falsy empty string for any other code |
| AuthService.HandleError | src/services/auth.ts:120-136 | total; the code is kept; a table code gets its fixed message, else a non-empty provider message, else "An unknown error occurred"; never empty |
| AuthService.Classify | src/services/auth.ts:34-39 | an error with a code goes through `handleError` keeping the code; one without becomes `{auth/unknown, An unknown error occurred}`; message never empty |
| AuthService.Normalise | src/services/auth.ts:27-40 | success passes through unchanged; a rejection is classified |
| AuthService.Register | src/services/auth.ts:26-41 | the created user unchanged on success; a rejection becomes `Classify` of it (code kept, table message, else the provider's, else the unknown message), never empty; a code-less error becomes the unknown error |
| AuthService.Login | src/services/auth.ts:49-64 | as Register, for sign-in: the user on success, `Classify` of the rejection otherwise |
| AuthService.Logout | src/services/auth.ts:70-79 | succeeds iff sign-out does; a rejection becomes `Classify` of it, non-empty; a code-less one is the unknown error |
| AuthService.ResetPassword | src/services/auth.ts:86-95 | succeeds iff the reset e-mail call does; a rejection becomes `Classify` of it, non-empty; a code-less one is the unknown error |
| AuthService.TableCodesMessages | src/services/auth.ts:123-132 | each of the six table codes yields its fixed message whatever the provider said |
| AuthService.UntabledCodesKeepProviderMessage | src/services/auth.ts:134 | user-not-found, wrong-password and user-disabled keep a non-empty provider message and their code |
| OpenAIService.SixPartLayout | src/services/openai.ts:61-72 | in a six-part concatenation the first part is a prefix, the middle four occur, the last is a suffix |
| OpenAIService.CreatePrompt | src/services/openai.ts:60-73 | the prompt starts with the header, holds each of the four parameters verbatim on its labelled, newline-terminated line, and ends with the JSON-format instruction |
| OpenAIService.BuildRequest | src/services/openai.ts:36-51 | model gpt-3.5-turbo, max tokens 500, the system instruction first and the prompt second |
| OpenAIService.ParseResponse | src/services/openai.ts:75-94 | parsed text gives the parsed title, content and summary; unparsable text gives "Generated Story", the raw text and the fallback summary; stamped now either way |
| OpenAIService.GenerateStory | src/services/openai.ts:32-58 | fails iff the request fails or returns no choice, always with "Failed to generate story"; otherwise the first choice parsed |
| OpenAIService.NonJsonTextNeverFails | src/services/openai.ts:77-93 | non-JSON model text resolves with the fallback story instead of failing |
| FirestoreService.NewDoc | src/services/firestore.ts:31-39 | the saved record: the story's title, content and summary, the owner's uid, not favourite, no tags, stamped with the save time |
| FirestoreService.NewDocIgnoresStoryTime | src/services/firestore.ts:31-39 | the saved record is stamped with the save time, whatever the story's own `createdAt` |
| FirestoreService.ReadCreatedAt | src/services/firestore.ts:61-64 | a stored timestamp reads as its time; any other value reads as now |
| FirestoreService.ReadStory | src/services/firestore.ts:58-70 | the story read from a record: its id, every stored field, and `createdAt` read as above |
| FirestoreService.SavedStoryReadsBack | src/services/firestore.ts:31-39 | a saved record reads back with the story's text, the owner's uid, not favourite, no tags, the save time |
| FirestoreService.MalformedTimeReadsAsNow | src/services/firestore.ts:61-70 | a `createdAt` that is not a timestamp reads back as now, with id and owner kept |
| FirestoreService.AtLeastTotalPreorder | src/services/firestore.ts:54 | the descending `createdAt` order is reflexive, total and transitive |
| FirestoreService.TimestampsBetweenGroups | src/services/firestore.ts:54 | a timestamp sorts after null, boolean and number values and before string, array and map values |
| FirestoreService.SpliceAt | src/services/firestore.ts:54 | where each element of a list with one element spliced in comes from |
| FirestoreService.SpliceNewestFirst | src/services/firestore.ts:54 | splicing where everything before sorts at or before the new id, and the next one does not, keeps a list newest first |
| FirestoreService.SpliceDistinct | src/services/firestore.ts:54 | splicing a new id keeps a list duplicate-free |
| FirestoreService.InsertNewestFirst | src/services/firestore.ts:54 | the result is newest first, one longer, holds exactly the old ids and the new one, duplicate-free when the input was |
| FirestoreService.QueryByOwner | src/services/firestore.ts:51-55 | exactly the owner's records that have a `createdAt` field, each once, ordered by `createdAt` descending with values grouped by type |
| FirestoreService.ReadAll | src/services/firestore.ts:58-71 | one story per listed id, in order, each the record read back with `createdAt` defaulting |
| FirestoreService.ListingBelongsToOwner | src/services/firestore.ts:51-71 | every story of a listing belongs to the owner; an owner with no listed record gets an empty list |
| FirestoreService.ListingSkipsMissingTimes | src/services/firestore.ts:54 | a record without a `createdAt` field is never listed |
| FirestoreService.LaterSaveListedFirst | src/services/firestore.ts:54 | of two listed stories stamped at different times, the later one comes first |
| FirestoreService.FreshId | src/services/firestore.ts:41-42 | the new record's id is not in use |
| FirestoreService.Favorited | src/services/firestore.ts:80-83 | that record's `isFavorite` is the given value; no other field or record changes |
| FirestoreService.WithTag | src/services/firestore.ts:106-112 | the new tag list holds exactly the old tags and the new one, starts with the old list and is at most one longer |
| FirestoreService.WithTagContents | src/services/firestore.ts:108-112 | a present tag leaves the list as it was; otherwise it is appended at the end |
| FirestoreService.WithTagKeepsDistinct | src/services/firestore.ts:106-112 | a duplicate-free tag list stays duplicate-free |
| FirestoreService.AddTagTwice | src/services/firestore.ts:108-112 | adding the same tag twice is adding it once; exactly one copy |
| FirestoreService.Tagged | src/services/firestore.ts:99-113 | the collection after `addTag`: same ids, that record's tags become `WithTag`, every other record untouched |
| FirestoreService.TaggedIdempotent | src/services/firestore.ts:99-113 | tagging the collection is idempotent and a missing id changes nothing |
| FirestoreService.FavoriteRoundTrip | src/services/firestore.ts:78-88 | favouriting then un-favouriting restores a record that was not a favourite |
| FirestoreService.StoryStore.constructor | src/services/firestore.ts:25-26 | an empty collection and the given clock |
| FirestoreService.StoryStore.SaveStory | src/services/firestore.ts:28-47 | one new record under a fresh id, which is returned; no other record changes; failure is "Failed to save story" with nothing changed |
| FirestoreService.StoryStore.GetUserStories | src/services/firestore.ts:49-76 | exactly the owner's records that have a `createdAt` field, each once, newest first, each read back from the store; failure is "Failed to get user stories" |
| FirestoreService.StoryStore.ToggleFavorite | src/services/firestore.ts:78-88 | the collection becomes `Favorited`; a missing id or a failure is "Failed to update story" with nothing changed |
| FirestoreService.StoryStore.DeleteStory | src/services/firestore.ts:90-97 | that id is removed and every other record is untouched; failure is "Failed to delete story" |
| FirestoreService.StoryStore.AddTag | src/services/firestore.ts:99-118 | the collection becomes `Tagged`; a missing id is a silent no-op; failure is "Failed to update story tags" |
| AuthContext.UseAuth | src/contexts/AuthContext.tsx:20-26 | the provider's value, or "useAuth must be used within an AuthProvider" |
| AuthContext.Session.constructor | src/contexts/AuthContext.tsx:30-31 | no user, loading |
| AuthContext.Session.OnAuthStateChanged | src/contexts/AuthContext.tsx:36-40 | user is the notified value and loading is false |
| AuthContext.Session.Login | src/contexts/AuthContext.tsx:50-60 | success sets user to the signed-in user; failure keeps user and re-throws the service's error; loading unchanged |
| AuthContext.Session.Register | src/contexts/AuthContext.tsx:62-72 | as Login, through registration |
| AuthContext.Session.Logout | src/contexts/AuthContext.tsx:74-84 | success clears user; failure keeps it and re-throws; loading unchanged |
| AuthContext.Session.ResetPassword | src/contexts/AuthContext.tsx:86-95 | forwards the service's outcome and changes no state |
| AuthContext.Session.RendersChildren | src/contexts/AuthContext.tsx:108 | children render iff not loading |
| StoryContext.UseStory | src/contexts/StoryContext.tsx:14-20 | the provider's value, or "useStory must be used within a StoryProvider" |
| StoryContext.ErrorText | src/contexts/StoryContext.tsx:36 | an `Error`'s own message, else "Failed to generate story" |
| StoryContext.AsThrown | src/services/openai.ts:54-57 | the service rejects with an `Error` carrying its message |
| StoryContext.StoryDraft.constructor | src/contexts/StoryContext.tsx:23-25 | no story, not generating, no error |
| StoryContext.StoryDraft.Begin | src/contexts/StoryContext.tsx:28-29 | generating, error cleared, story kept |
| StoryContext.StoryDraft.Settle | src/contexts/StoryContext.tsx:32-41 | success stores the story; failure keeps it and records the `Error` message or the default; not generating afterwards |
| StoryContext.StoryDraft.GenerateStory | src/contexts/StoryContext.tsx:27-42 | returns the service's outcome; success stores that same story with no error; failure keeps the story and records "Failed to generate story"; not generating afterwards |
| StoryContext.StoryDraft.ClearCurrentStory | src/contexts/StoryContext.tsx:44-46 | only the current story is cleared |
| FirestoreContext.Route | src/contexts/FirestoreContext.tsx:27-47 | save and list fail with their own login messages iff no user, else forward with that user; the other three always forward |
| FirestoreContext.UnguardedOperationsForward | src/contexts/FirestoreContext.tsx:37-47 | favourite, delete and tag forward their arguments unchanged, whoever is signed in |
| FirestoreContext.UseFirestore | src/contexts/FirestoreContext.tsx:16-22 | the provider's value, or "useFirestore must be used within a FirestoreProvider" |
| FirestoreContext.Perform | src/contexts/FirestoreContext.tsx:24-47 | a guarded operation without a user fails before the store and changes nothing; otherwise each operation has its store method's effect and outcome |
| AppNavigator.ScreenSet | src/navigation/AppNavigator.tsx:17-46 | nothing while loading; {Home, StoryGenerator} with a user; {Login, Register, ForgotPassword} without |
| AppNavigator.ScreenSetsPartition | src/navigation/AppNavigator.tsx:29-42 | the two screen sets are disjoint and cover every screen |
| AppNavigator.ScreenSetDependsOnPresenceOnly | src/navigation/AppNavigator.tsx:18-43 | the chosen set depends only on loading and whether a user is present |
| AppNavigator.SignedInNeverSeesLogin | src/navigation/AppNavigator.tsx:29-41 | a signed-in user gets Home and never Login; a signed-out one gets Login and never Home |
| MyStoriesScreen.SetFavoriteWhere | src/screens/story/MyStoriesScreen.tsx:52-54 | same length and order; records with the id get the new flag, the others are untouched |
| MyStoriesScreen.Keep | src/screens/story/MyStoriesScreen.tsx:69 | the filter keeps exactly the stories passing the test, never lengthening the list |
| MyStoriesScreen.KeepAppend | src/screens/story/MyStoriesScreen.tsx:69 | filtering distributes over concatenation (it keeps relative order) |
| MyStoriesScreen.KeepEverything | src/screens/story/MyStoriesScreen.tsx:69 | a filter every story passes changes nothing |
| MyStoriesScreen.WithoutStory | src/screens/story/MyStoriesScreen.tsx:69 | exactly the stories with another id remain |
| MyStoriesScreen.FilteredStories | src/screens/story/MyStoriesScreen.tsx:87 | "all" is the list itself; "favorites" holds exactly the favourite stories |
| MyStoriesScreen.WithoutAbsentStory | src/screens/story/MyStoriesScreen.tsx:69 | deleting an id the list does not hold leaves it unchanged |
| MyStoriesScreen.DeleteKeepsOrder | src/screens/story/MyStoriesScreen.tsx:69 | the remaining stories keep their relative order |
| MyStoriesScreen.FavoritesKeepOrder | src/screens/story/MyStoriesScreen.tsx:87 | the favourites view is an order-preserving subsequence |
| MyStoriesScreen.MyStories.constructor | src/screens/story/MyStoriesScreen.tsx:21-23 | empty list, loading, filter "all" |
| MyStoriesScreen.MyStories.SetFilter | src/screens/story/MyStoriesScreen.tsx:23 | only the filter changes |
| MyStoriesScreen.MyStories.Visible | src/screens/story/MyStoriesScreen.tsx:87 | the rendered list: the whole list under "all", exactly its favourites under "favorites", never a story outside it |
| MyStoriesScreen.MyStories.LoadStories | src/screens/story/MyStoriesScreen.tsx:26-36 | not loading afterwards; success replaces the list with the listing of the user's stories (each read back from its record, every listed record once, newest first); failure keeps it; the store is unchanged |
| MyStoriesScreen.MyStories.HandleFavoriteToggle | src/screens/story/MyStoriesScreen.tsx:48-58 | on remote success the store and the local list both set the negated flag on that id; on failure neither changes |
| MyStoriesScreen.MyStories.HandleDelete | src/screens/story/MyStoriesScreen.tsx:66-72 | on remote success the id leaves the store, the local list and the rendered list; on failure neither changes |
| StoryGeneratorScreen.WithValue | src/screens/story/StoryGeneratorScreen.tsx:71 | `{...params, [f]: text}`: that field becomes the text and the others are kept |
| StoryGeneratorScreen.TrimStartShape | src/screens/story/StoryGeneratorScreen.tsx:35 | leading white space removed: a suffix of the text, empty iff the text is all white space, otherwise starting with a non-space |
| StoryGeneratorScreen.TrimEndShape | src/screens/story/StoryGeneratorScreen.tsx:35 | trailing white space removed: a prefix of the text ending with a non-space, non-empty when the text starts with a non-space |
| StoryGeneratorScreen.Trim | src/screens/story/StoryGeneratorScreen.tsx:35 | `!value.trim()` holds iff every character of the value is white space |
| StoryGeneratorScreen.TrimShape | src/screens/story/StoryGeneratorScreen.tsx:35 | the trimmed text is a slice of the value that starts and ends with a non-space |
| StoryGeneratorScreen.RequiredMessage | src/screens/story/StoryGeneratorScreen.tsx:36-37 | the key with its first letter upper-cased, the rest of the key unchanged, followed by " is required" |
| StoryGeneratorScreen.MainCharacterMessage | src/screens/story/StoryGeneratorScreen.tsx:36-37 | the message is "MainCharacter is required" |
| StoryGeneratorScreen.SettingMessage | src/screens/story/StoryGeneratorScreen.tsx:36-37 | the message is "Setting is required" |
| StoryGeneratorScreen.ThemeMessage | src/screens/story/StoryGeneratorScreen.tsx:36-37 | the message is "Theme is required" |
| StoryGeneratorScreen.AgeGroupMessage | src/screens/story/StoryGeneratorScreen.tsx:36-37 | the message is "AgeGroup is required" |
| StoryGeneratorScreen.FieldOrderCoversEveryField | src/screens/story/StoryGeneratorScreen.tsx:34 | the iteration visits every parameter |
| StoryGeneratorScreen.CollectErrors | src/screens/story/StoryGeneratorScreen.tsx:30-41 | an error exactly for each field that trims to empty, each the field's message; valid iff every field is non-blank, iff no error |
| StoryGeneratorScreen.StoryGeneratorForm.constructor | src/screens/story/StoryGeneratorScreen.tsx:21-28 | four empty fields, no errors |
| StoryGeneratorScreen.StoryGeneratorForm.ValidateForm | src/screens/story/StoryGeneratorScreen.tsx:30-44 | the error map is replaced wholesale by one entry per blank field; valid iff none is blank |
| StoryGeneratorScreen.StoryGeneratorForm.HandleGenerate | src/screens/story/StoryGeneratorScreen.tsx:46-59 | the error map holds exactly the blank fields; generation runs iff none is blank; otherwise the draft is untouched; when it runs, success stores the story with no error and failure keeps the story and records "Failed to generate story" |
| StoryGeneratorScreen.StoryGeneratorForm.OnChangeText | src/screens/story/StoryGeneratorScreen.tsx:70-75 | the field takes the text; only its own error is cleared, the others are kept |
| RegisterScreen.ValidateRegistration | src/screens/auth/RegisterScreen.tsx:34-50 | emptiness first, then mismatch, then length below 6; passes iff all inputs are non-empty, they match and the password has at least 6 characters |
| RegisterScreen.MismatchBeforeLength | src/screens/auth/RegisterScreen.tsx:40-50 | a short, mismatched password reports the mismatch |
| RegisterScreen.BlankPasswordAccepted | src/screens/auth/RegisterScreen.tsx:34-50 | six matching spaces pass: nothing is trimmed |
| RegisterScreen.RegisterForm.constructor | src/screens/auth/RegisterScreen.tsx:21-25 | empty inputs, not loading, no error |
| RegisterScreen.RegisterForm.OnChangeText | src/screens/auth/RegisterScreen.tsx:85-115 | the input takes the text and the error is cleared |
| RegisterScreen.RegisterForm.HandleRegister | src/screens/auth/RegisterScreen.tsx:28-69 | registration is called iff the checks pass; a failed check shows its message and leaves the session alone; a service failure shows its non-empty message, so the fallback never shows; not loading afterwards |
| LoginScreen.ValidateLogin | src/screens/auth/LoginScreen.tsx:32-36 | passes iff both inputs are non-empty, otherwise "Please fill in all fields" |
| LoginScreen.LoginForm.constructor | src/screens/auth/LoginScreen.tsx:20-23 | empty inputs, not loading, no error |
| LoginScreen.LoginForm.OnChangeText | src/screens/auth/LoginScreen.tsx:74-94 | the input takes the text and the error is cleared |
| LoginScreen.LoginForm.HandleLogin | src/screens/auth/LoginScreen.tsx:26-51 | login is called with the inputs unchanged iff both are non-empty; success signs the session in; a failure shows the service's non-empty message; not loading afterwards |

## Left out

- Firebase Auth, Firestore and OpenAI SDK calls: replaced by oracles (outcome functions, a `fails` flag, `api`, `json`). Query execution, indexes and the network are not modelled.
- `createError` is the `AuthError` constructor itself; `getCurrentUser` (src/services/auth.ts:101-103) reads the SDK's current user and is not modelled.
- `temperature: 0.7` is a floating-point request option with no logic around it; the request model carries the model name, the messages and the token cap only.
- `Date`, `Timestamp` and ISO-string conversions: time is a `nat`. The serialisation of stories passed between screens is not modelled.
- `JSON.parse` is an oracle returning the three fields or None. A JSON value that is not an object, a null message content and fields of other types are not distinguished.
- `FirestoreService.AtLeast`: values of one non-timestamp type group (null, booleans and numbers below timestamps; strings, bytes, references, points, arrays and maps above them) are not ordered against each other, and the store's tie-break by document id is not modelled. Such values, and equal timestamps, may appear in either order.
- `FirestoreService.StoryStore.clock`: no operation advances the clock. It stands for `new Date()`, and the caller moves it forward by assigning the public field between operations; two saves with no assignment between them get equal stamps.
- `FirestoreService.FreshId`: only freshness of store-generated ids is modelled, not their random 20-character form.
- `FirestoreService.Doc`: a record without a `tags` field (read by `addTag` as `[]`) is not modelled; every record holds a tag list.
- `AuthService.TableMessage`: an error code naming an inherited property of a plain object (such as `toString`) is not modelled; only the six own keys are in the table.
- `RegisterScreen.ValidateRegistration`: the password length counts characters, not UTF-16 code units.
- `StoryGeneratorScreen.UpperAscii`: `toUpperCase` is modelled for ASCII letters only, which covers the four keys.
- `StoryGeneratorScreen.StoryGeneratorForm.OnChangeText`: the source sets the entry to `undefined`; the model removes the key. Both render as "no error".
- `MyStoriesScreen.MyStories.HandleDelete`: only the confirmed branch of the confirmation dialog is modelled; cancelling changes nothing.
- Async scheduling is not modelled: each operation is one atomic step. This covers the read-then-write race in `addTag`, screens acting on stale copies of their state, and auth-listener subscription and unsubscription.
- `Alert`, `console`, navigation calls, focus listeners, styling and rendering are UI or I/O.
- Files with nothing to model: `src/screens/home/HomeScreen.tsx`, `src/screens/story/StoryViewerScreen.tsx`, `App.tsx`, `src/navigation/types.ts`, tests and build configuration are not part of this model.
