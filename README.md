# socmedapp client state rules, in Dafny

A model of the client-side state rules of a small React social-media client (feed, likes,
replies, composer, registration) that talks to a REST backend. Each component's `useState`
slots become the fields of a class whose methods are the event handlers and effects; the
list expressions they apply (`filter`, `map`, `find`, spread-append/prepend) are pure
functions with their own lemmas. Every HTTP call is an input: a `Response<T>` that is either
`Ok(data)` or `Failed(message)`, where `message` is the server's optional error message.
Where a handler has an observable in-flight state (the like button's `isLiking`, the feed's
`loading`), it is split at its `await` into a start method and a settle method.

Modules and files:

- `wrappers.dfy` (`Wrappers`): `Option`, `Response`, JavaScript truthiness of optional strings.
- `entities.dfy` (`Entities`): users, posts, replies, the embedded `[{ count }]` aggregates.
- `text.dfy` (`Text`): `String.prototype.trim` over the ECMAScript whitespace and line-terminator set.
- `feed_lists.dfy` (`FeedLists`): the pure list updates shared by the three feed pages.
- `post_card.dfy` (`Likes`): the optimistic like toggle of `PostCard`.
- `home_page.dfy` (`HomePage`), `my_posts_page.dfy` (`MyPostsPage`), `my_posts.dfy` (`MyPosts`): the three feed controllers, modelled separately.
- `right_sidebar.dfy` (`Composer`): the post/reply composer.
- `left_sidebar.dfy` (`ReplyPanel`): the reply panel of the active post.
- `registration_page.dfy` (`Registration`): the registration validator and submit.

Methods whose names describe a scenario (`LikeThenUnlike`, `LoadTwoPages`, ...) build a fresh
component, drive its handlers and state the end-to-end outcome in their postconditions.

Where the code and its own comments or a plain reading of the feature disagree, the model follows the code:

- The composer clears the textarea after every non-blank submit, including a failed one
  (`src/components/RightSidebar.jsx:73` runs after both `catch` blocks), although the comment
  there says "on success".
- The composer's clearing effect is keyed on reply *mode*, so moving the reply target from
  one post to another keeps the text (`Composer.ModeSwitchClears`).
- Both "my posts" feeds set `hasMore` from the *filtered* page, so paging stops at the first
  server page without any of the viewer's posts (`MyPostsPage.ForeignPageStopsPaging`).
- The infinite-scroll sentinel is the ref of the last post only, so an empty feed has none,
  none exists before the user is loaded (no card is rendered then), and no observer watches
  it while a page is loading (`SentinelObserved`). A callback ref runs when the last card
  mounts, so the sentinel is attached as soon as the user arrives.
- The snap observer is different: its effect observes the cards rendered when it last ran
  and re-runs only when `posts` or the active post's id change. The main feed fetches posts
  without waiting for the user, so a first page that arrives before the user is fetched
  while only the loading notice is rendered, and its cards stay unobserved until `posts`
  changes again (`HomePage.Feed.cardsObserved`, `HomePage.UserLoadedAfterFirstPage`).
  The "my posts" feeds fetch only once the user is loaded, so their cards are always
  observed.

## Model

| member | source | states |
|---|---|---|
| `Text.TrimEmptyIffAllWhitespace` | src/components/RightSidebar.jsx:47 | `!content.trim()` holds exactly when every character is ECMAScript whitespace or a line terminator |
| `Text.TrimStartOfWhitespace` | src/components/RightSidebar.jsx:47 | trimming an all-whitespace text leaves nothing at its start |
| `Text.TrimIsInfix` | src/components/RightSidebar.jsx:47 | the trimmed text is the slice of the original between an all-whitespace prefix and an all-whitespace suffix, so only whitespace at the ends is dropped |
| `Text.TrimStart` | src/components/RightSidebar.jsx:47 | the result is a suffix that starts with a non-whitespace character, and everything dropped is whitespace |
| `Text.TrimEnd` | src/components/RightSidebar.jsx:47 | the result is a prefix that ends with a non-whitespace character, and everything dropped is whitespace |
| `Text.Trim` | src/components/RightSidebar.jsx:47 | `content.trim()`: the result is no longer than the text and neither starts nor ends with whitespace |
| `Text.IsWhitespace` | src/components/RightSidebar.jsx:47 | the characters `trim` removes, the ECMAScript WhiteSpace and LineTerminator code points, all in the Basic Multilingual Plane |
| `FeedLists.OwnPosts` | src/pages/MyPostsPage.jsx:78 | the filter keeps only posts of the owner, all of them, and nothing from outside the page |
| `FeedLists.OwnPostsOfConcat` | src/pages/MyPostsPage.jsx:78-79 | filtering old posts plus a page equals the filtered old posts followed by the filtered page, order kept |
| `FeedLists.OwnPostsOfOwned` | src/pages/MyPosts.jsx:79 | a page made only of the owner's posts passes the filter unchanged |
| `FeedLists.OwnPostsEmptyIff` | src/pages/MyPostsPage.jsx:80 | the filtered page is empty exactly when no post of the page belongs to the owner |
| `FeedLists.OwnPostsHead` | src/pages/MyPostsPage.jsx:81 | the first filtered post is the first own post of the page |
| `FeedLists.WithUserData` | src/pages/HomePage.jsx:124-129 | a created post keeps its id, owner, content and date, gets the current user attached and zero like and reply counts |
| `FeedLists.ReplacedById` | src/pages/HomePage.jsx:145 | the length is kept, posts with the updated id are replaced and every other post is unchanged |
| `FeedLists.ReplacedByIdAbsent` | src/pages/HomePage.jsx:145 | replacing an id no post carries leaves the list unchanged |
| `FeedLists.ReplacedByIdIdempotent` | src/pages/HomePage.jsx:145 | replacing twice with the same post equals replacing once |
| `FeedLists.FindById` | src/pages/HomePage.jsx:103 | `find` yields nothing exactly when no post has the id, else the first post with it |
| `FeedLists.ToggledReplyTarget` | src/pages/MyPosts.jsx:158 | the updater yields null exactly when the previous target has the post's id, and the post otherwise |
| `FeedLists.ToggleTwiceClears` | src/pages/HomePage.jsx:135-141 | clicking the same reply icon twice from a state not targeting that post ends reply mode |
| `Likes.Toggled` | src/components/PostCard.jsx:42-43 | the optimistic view flips the heart and moves the count by one in the matching direction |
| `Likes.ToggledTwice` | src/components/PostCard.jsx:42-43 | two optimistic toggles restore both heart and count |
| `Entities.FirstCount` | src/components/PostCard.jsx:27 | `likes[0]?.count \|\| 0`: the first aggregate's count, or 0 without one |
| `Likes.PostCard.constructor` | src/components/PostCard.jsx:27-29 | a new card is not liked, not liking, and shows the first likes count or 0 |
| `Likes.PostCard.Click` | src/components/PostCard.jsx:35-52 | a click while liking changes nothing and sends nothing; otherwise the originals are captured, the view is toggled, liking is set, and a create-like or delete-like request is issued by the previous heart state |
| `Likes.PostCard.Settle` | src/components/PostCard.jsx:53-61 | success keeps the optimistic values, failure restores the captured ones and alerts, and liking ends on both |
| `Likes.FailedClickRestores` | src/components/PostCard.jsx:39-40 | after a click whose request fails, heart and count equal their values before the click |
| `Likes.LikeThenUnlike` | src/components/PostCard.jsx:43-52 | like then unlike, both succeeding, returns the count to its original value, via a create then a delete request |
| `Likes.ClickWhilePending` | src/components/PostCard.jsx:36 | a second click while the first request is pending issues nothing and changes nothing |
| `HomePage.Feed.constructor` | src/pages/HomePage.jsx:26-32 | the feed starts empty on page 1, not loading, with more pages assumed, no active or target post, and no card observed |
| `HomePage.Feed.FetchCurrentUser` | src/pages/HomePage.jsx:46-61 | without a token or on failure the page redirects to login; otherwise the user is stored |
| `HomePage.Feed.StartFetch` | src/pages/HomePage.jsx:64-69 | with a token the current page is requested and loading is set; without one nothing happens |
| `HomePage.Feed.FinishFetch` | src/pages/HomePage.jsx:69-79 | a page is appended as it came, `hasMore` is true iff it was non-empty, a non-empty page 1 makes its first post active, the snap effect re-runs and observes the cards iff the user is loaded, a failure changes none of these, and loading ends |
| `HomePage.Feed.SentinelObserved` | src/pages/HomePage.jsx:156-186 | the sentinel is the last rendered card, so it exists only once the user is loaded, while not loading, and when the feed is non-empty |
| `HomePage.Feed.SentinelIntersected` | src/pages/HomePage.jsx:85-94 | the page grows by exactly one iff the sentinel is observed, intersects and more pages may exist |
| `HomePage.Feed.PostVisible` | src/pages/HomePage.jsx:97-115 | when the snap effect last ran over rendered cards (otherwise nothing is observed), the active post changes only to the first post with the visible id, and only when that id is not already active |
| `HomePage.Feed.HandlePostCreated` | src/pages/HomePage.jsx:118-132 | a response without a first element changes nothing; otherwise that post with zero counts and the user goes first, the feed scrolls up, and the snap effect re-runs |
| `HomePage.Feed.HandleToggleReplyMode` | src/pages/HomePage.jsx:135-141 | the reply target becomes the toggled target of the clicked post |
| `HomePage.Feed.HandleReplyCreated` | src/pages/HomePage.jsx:144-148 | posts are replaced by id, the updated post becomes active, reply mode ends, and the snap effect re-runs |
| `HomePage.IsActiveId` | src/pages/HomePage.jsx:104 | `post.id !== activePost?.id` is false exactly when an active post with that id exists |
| `HomePage.LoadTwoPages` | src/pages/HomePage.jsx:69-75 | with the user loaded, page 1 then page 2 gives page 1 followed by page 2 with no de-duplication, and page 1's first post active |
| `HomePage.EmptyPageStopsPaging` | src/pages/HomePage.jsx:72 | after an empty page `hasMore` is false and the sentinel no longer advances the page |
| `HomePage.NoAdvanceWhileLoading` | src/pages/HomePage.jsx:85-86 | while a page is loading the page counter does not advance |
| `HomePage.NothingObservedBeforeUser` | src/pages/HomePage.jsx:156-158 | a feed fetched before the user loads is not observed: the page stays 1 and scrolling activates nothing |
| `HomePage.UserLoadedAfterFirstPage` | src/pages/HomePage.jsx:97-115 | when page 1 arrives before the user, loading the user does not make its cards observable and scrolling keeps page 1's first post active; a created post re-runs the effect and scrolling to it makes it active |
| `MyPostsPage.Feed.constructor` | src/pages/MyPostsPage.jsx:26-32 | the feed starts empty on page 1, not loading, with more pages assumed |
| `MyPostsPage.Feed.FetchCurrentUser` | src/pages/MyPostsPage.jsx:49-64 | without a token or on failure the page redirects to login; otherwise the user is stored |
| `MyPostsPage.Feed.StartFetch` | src/pages/MyPostsPage.jsx:71-76 | a page is requested only with both a token and a loaded user |
| `MyPostsPage.Feed.FinishFetch` | src/pages/MyPostsPage.jsx:76-85 | the user's own posts of the page are appended in order, `hasMore` is true iff there were any, page 1 makes the first of them active, a failure changes nothing, the feed stays the user's posts |
| `MyPostsPage.Feed.SentinelObserved` | src/pages/MyPostsPage.jsx:179-208 | the sentinel is the last rendered card, so it exists only once the user is loaded, while not loading, and when the feed is non-empty |
| `MyPostsPage.Feed.SentinelIntersected` | src/pages/MyPostsPage.jsx:93-102 | the page grows by exactly one iff the sentinel is observed, intersects and more pages may exist |
| `MyPostsPage.Feed.PostVisible` | src/pages/MyPostsPage.jsx:111-116 | with the user loaded, the active post changes only to the first post with the visible id, when not already active |
| `MyPostsPage.Feed.HandlePostCreated` | src/pages/MyPostsPage.jsx:131-148 | only a valid response whose post belongs to the user prepends it with zero counts and scrolls; anything else changes nothing |
| `MyPostsPage.Feed.HandleToggleReplyMode` | src/pages/MyPostsPage.jsx:153-159 | the reply target becomes the toggled target of the clicked post |
| `MyPostsPage.Feed.HandleReplyCreated` | src/pages/MyPostsPage.jsx:164-168 | posts are replaced by id, the updated post becomes active, reply mode ends |
| `MyPostsPage.NoFetchBeforeUser` | src/pages/MyPostsPage.jsx:72 | with a token but no loaded user nothing is requested and the feed is not loading |
| `MyPostsPage.LoadTwoPages` | src/pages/MyPostsPage.jsx:70-102 | when page 1 holds one of the user's posts, pages 1 and 2 are requested and the feed is exactly the user's posts of both pages, in order, all owned by the user |
| `MyPostsPage.IsOwner` | src/pages/MyPostsPage.jsx:78 | `post.user_id === currentUser.id` with a loaded user, the test both "my posts" feeds filter and gate created posts by |
| `MyPostsPage.ForeignPostIgnored` | src/pages/MyPostsPage.jsx:138-147 | someone else's created post neither enters the feed nor scrolls it |
| `MyPostsPage.ForeignPageStopsPaging` | src/pages/MyPostsPage.jsx:80 | a first page with none of the user's posts sets `hasMore` false and leaves page 1 and an empty feed |
| `MyPosts.Feed.constructor` | src/pages/MyPosts.jsx:26-32 | the feed starts empty on page 1, not loading, with more pages assumed |
| `MyPosts.Feed.FetchCurrentUser` | src/pages/MyPosts.jsx:49-65 | without a token or on failure the page redirects to login; otherwise the user is stored |
| `MyPosts.Feed.StartFetch` | src/pages/MyPosts.jsx:72-76 | a page is requested only with both a token and a loaded user |
| `MyPosts.Feed.FinishFetch` | src/pages/MyPosts.jsx:76-90 | the user's own posts are appended in order, `hasMore` is true iff there were any, page 1 makes the first active, a failure changes nothing |
| `MyPosts.Feed.SentinelObserved` | src/pages/MyPosts.jsx:179-208 | the sentinel is the last rendered card, so it exists only once the user is loaded, while not loading, and when the feed is non-empty |
| `MyPosts.Feed.SentinelIntersected` | src/pages/MyPosts.jsx:99-108 | the page grows by exactly one iff the sentinel is observed, intersects and more pages may exist |
| `MyPosts.Feed.PostVisible` | src/pages/MyPosts.jsx:117-122 | with the user loaded, the active post changes only to the first post with the visible id, when not already active |
| `MyPosts.Feed.HandlePostCreated` | src/pages/MyPosts.jsx:136-152 | a valid response always scrolls to the top, but the posts change only when its post belongs to the user |
| `MyPosts.Feed.HandleToggleReplyMode` | src/pages/MyPosts.jsx:157-159 | the functional updater is applied to the previous target |
| `MyPosts.Feed.HandleReplyCreated` | src/pages/MyPosts.jsx:164-168 | posts are replaced by id only, the updated post becomes active, reply mode ends |
| `MyPosts.CreatedPostsOfTwoOwners` | src/pages/MyPosts.jsx:136-152 | someone else's created post scrolls but adds nothing, the user's own post is prepended with zero counts |
| `Composer.Dispatch` | src/components/RightSidebar.jsx:47-66 | nothing is sent iff the text is all whitespace; a reply to the target's id is sent iff a target is set; the text is sent as typed |
| `Composer.SentBodyIsTypedText` | src/components/RightSidebar.jsx:51-64 | for any non-blank text a request is sent whose body is the single field `content` holding the text untrimmed |
| `Composer.RightSidebar.constructor` | src/components/RightSidebar.jsx:30 | the textarea starts empty |
| `Composer.RightSidebar.Type` | src/components/RightSidebar.jsx:91 | typing replaces the text |
| `Composer.RightSidebar.IsReplying` | src/components/RightSidebar.jsx:32 | `!!replyingTo`: a reply target is set |
| `Composer.FormBody` | src/components/RightSidebar.jsx:51-52 | the URL-encoded body holds the single field `content` |
| `Composer.RightSidebar.ReceiveReplyingTo` | src/components/RightSidebar.jsx:32-39 | a new target prop clears the text exactly when reply mode changes |
| `Composer.RightSidebar.HandleSubmit` | src/components/RightSidebar.jsx:45-74 | blank text sends nothing and keeps the text; otherwise the dispatched request is sent, `onReplyCreated` or `onPostCreated` (by endpoint) gets the response exactly when that call succeeded, an alert is raised on failure, and the text is cleared |
| `Composer.FailedSubmitClearsText` | src/components/RightSidebar.jsx:57-73 | a failing non-blank submit sends the text, reaches no callback and empties the textarea |
| `Composer.ModeSwitchClears` | src/components/RightSidebar.jsx:37-39 | leaving reply mode clears the text; retargeting a reply keeps it |
| `ReplyPanel.DeleteControls` | src/components/LeftSidebar.jsx:108-114 | a reply card shows a delete control, for that reply's id, iff its author's id equals the viewer's |
| `ReplyPanel.CanDelete` | src/components/LeftSidebar.jsx:108 | a reply is the viewer's exactly when it has an embedded author whose id is the viewer's |
| `ReplyPanel.OfferedDeletesAreOwn` | src/components/LeftSidebar.jsx:108-112 | every offered delete targets a reply the viewer owns |
| `ReplyPanel.LeftSidebar.constructor` | src/components/LeftSidebar.jsx:23 | the panel starts with no replies |
| `ReplyPanel.RepliesOrEmpty` | src/components/LeftSidebar.jsx:37 | `response.data.replies \|\| []` |
| `ReplyPanel.LeftSidebar.FetchReplies` | src/components/LeftSidebar.jsx:29-44 | no active post clears the list and requests nothing; a success installs the server's replies or empty; a failure clears the list |
| `ReplyPanel.LeftSidebar.HandleDeleteReply` | src/components/LeftSidebar.jsx:51-60 | no active post is a no-op; a success installs the server's list or empty; a failure alerts and keeps the list |
| `ReplyPanel.FailedDeleteKeepsReplies` | src/components/LeftSidebar.jsx:56-59 | a failed delete keeps the list fetched before it |
| `Registration.Validate` | src/pages/RegistrationPage.jsx:46-53 | "All fields are required." iff some field is empty; "Passwords do not match." iff all are filled and the passwords differ; no error otherwise |
| `Registration.AnyFieldEmpty` | src/pages/RegistrationPage.jsx:46 | some of the five fields is the empty string |
| `Registration.Payload` | src/pages/RegistrationPage.jsx:57-61 | the payload is `fName`, `lName`, `email`, `password` in that order |
| `Registration.PayloadOmitsConfirmation` | src/pages/RegistrationPage.jsx:57-61 | no field is named `confirmPassword` and the payload does not depend on it |
| `Wrappers.Truthy` | src/pages/RegistrationPage.jsx:71 | JavaScript truthiness of an optional string: present and non-empty |
| `Registration.FailureMessage` | src/pages/RegistrationPage.jsx:78 | the server's message when truthy, else the default message; never empty |
| `Registration.RegistrationPage.constructor` | src/pages/RegistrationPage.jsx:25-31 | all fields and the error start empty and the terms not accepted |
| `Registration.RegistrationPage.Fill` | src/pages/RegistrationPage.jsx:104-142 | the inputs hold the typed values |
| `Registration.RegistrationPage.ToggleTerms` | src/pages/RegistrationPage.jsx:145-151 | the checkbox flips the terms acceptance |
| `Registration.RegistrationPage.ProceedEnabled` | src/pages/RegistrationPage.jsx:157-160 | the submit button, and with it `handleSubmit`, is enabled exactly when the terms are accepted |
| `Registration.RegistrationPage.HandleSubmit` | src/pages/RegistrationPage.jsx:41-82 | reachable only with the terms accepted; a validation error is shown and nothing is sent; otherwise the payload is sent, a truthy token is stored and the page navigates home, and a failure shows the server's or the default message |
| `Registration.RequiredBeforeMismatch` | src/pages/RegistrationPage.jsx:46-53 | with an empty field and mismatched passwords the required-fields error wins and nothing is sent |

## Left out

- HTTP: requests are returned as values (endpoint and arguments); headers, the base URL and the form encoding beyond field names and values are not modelled.
- Local storage and navigation: the stored token is a field of the registration page, redirects are returned flags; the feeds read the token only as a `hasToken` input.
- Scrolling and `IntersectionObserver`: "sentinel intersecting" and "card with this id mostly in view" are inputs; the 0.7 threshold and `document.querySelectorAll` are not modelled.
- `StartFetch`, on every feed, may be called at any time, while the source's fetch effect runs only after one of its dependencies changes (`[page, authToken]` at src/pages/HomePage.jsx:82, `[page, authToken, currentUser]` at src/pages/MyPostsPage.jsx:88 and src/pages/MyPosts.jsx:94); the scenarios call it only where the effect would run.
- Async interleavings: a response settling after navigation, overlapping fetches, typing while a submit is in flight, and React's batching of state updates are not modelled; each handler runs to completion before the next event.
- `alert` and `console.error` are returned flags or omitted.
- Rendering: the JSX, CSS, date formatting and the static terms text.
- Backend response shapes are taken as typed (a post list is a list of posts); malformed bodies that would throw in JavaScript are not modelled.
- `src/pages/LoginPage.jsx`, `src/pages/ProfilePage.jsx`, `src/App.jsx` and `src/main.jsx` are not part of this model (no state rules beyond navigation and display).
