# BlogModel in Dafny

This project models the client-side model of a small Persian-language weblog
(`public/js/model.js`). `BlogModel` holds the browser's copy of the post
list, a registry of observers and a loading flag. It talks to the REST API
under `/api/posts` and announces every change to the observers by event
name.

The model is a Dafny `class BlogModel`. It keeps three of the JavaScript
object's fields: `posts`, `observers` and `isLoading`. The fourth field,
`apiBaseUrl`, is dropped because the model does no networking. The class
adds three records that are not fields of the JavaScript object:

- `delivered`: the handler calls made so far, in order.
- `emitted`: a ghost log of every notification sent, whether or not anyone
  listened.
- `requests`: a ghost log of every request sent to the server. Each entry
  carries the number of notifications sent before the request, so the log
  places each request among the notifications.

Each asynchronous method (`loadPosts`, `createPost`, `updatePost`,
`deletePost`) runs as one atomic step. The server's answer is a parameter:

- `Fetched` is either an answer with a status and a body, or a `fetch`
  that rejected with a message.
- `Json` is either a parsed body or a body `response.json()` could not parse.
- An `Error` thrown to the caller becomes a `Failure` result carrying its
  message.

Observers are objects. They are compared by identity, as `!==` does, and
each has the set of handler names it defines. `notifyObservers` calls the
handler on every registered observer that defines it, in registration order.

Modules:

- `Wrappers`: `Option` and `Result`.
- `Text`: the string operations the model depends on:
  - `trim` with ECMAScript's white space and line terminators;
  - `.length` in UTF-16 code units;
  - `join`;
  - the decimal rendering of a status in the `HTTP error! status: N` message.
- `Seqs`: `filter` and the subsequence order.
- `Posts`: posts, lookup, removal and replacement by id, and the spread merge of an update.
- `Validation`: the validation of a payload and its messages.
- `Observers`: handlers, events, observers and dispatch.
- `Http`: the outcome of a request.
- `Model`: the class.

## Model

| member | source | states |
|---|---|---|
| Model.BlogModel.constructor | public/js/model.js:2-8 | a new model has no posts, no observers, is not loading and has sent and delivered nothing |
| Model.BlogModel.AddObserver | public/js/model.js:10-12 | the observer is appended to the registry, after all earlier registrations |
| Model.BlogModel.RemoveObserver | public/js/model.js:14-16 | the registry becomes the old one without the observer (see `Observers.WithoutSpec`) |
| Observers.WithoutSpec | public/js/model.js:15 | removing an observer drops every registration of it, keeps every other registration as often as it occurred, and keeps their order |
| Model.BlogModel.Deliver | public/js/model.js:19-23 | the loop appends exactly `Dispatch(observers, e)` to the handler calls: one call per registered observer that defines the event's handler |
| Model.BlogModel.NotifyObservers | public/js/model.js:18-24 | a notification is logged once and makes exactly the handler calls `Dispatch` describes |
| Observers.DispatchRecipients | public/js/model.js:19-23 | the calls one notification makes go, one each, to the observers that define the handler, in registration order |
| Observers.DispatchSpec | public/js/model.js:19-23 | each observer that defines the handler is called once per registration and no other observer is called, in the registry's order |
| Model.BlogModel.SetLoading | public/js/model.js:26-29 | the flag takes the new value, then one `onLoadingChange` notification carrying it is sent and delivered |
| Model.BlogModel.LoadPosts | public/js/model.js:31-54 | the result is the parsed list of an ok answer, else the error. On success the list is replaced, on failure it is kept. One GET is sent, after loading-change(true) and loading-start and before the outcome. The notifications are loading-change(true), loading-start, posts-loaded or error, loading-change(false) and loading-end. The handler calls are those of each notification, in that order. Loading ends false. |
| Http.Settle | public/js/model.js:37-40 | a request succeeds exactly when it was answered with a 2xx status. Otherwise the error is the rejection's message or `HTTP error! status: N`. |
| Http.ReadJson | public/js/model.js:37-42 | a body is read exactly when the answer is 2xx and parses. Otherwise the error is the status error or the parse error. |
| Http.StatusError | public/js/model.js:39 | the message is the fixed prefix followed by decimal digits whose value is exactly the status |
| Text.Decimal | public/js/model.js:39 | a number renders as at least one decimal digit with no leading zero |
| Text.DecimalRoundTrip | public/js/model.js:39 | reading back the rendered digits gives the number |
| Validation.ValidationSpec | public/js/model.js:56-68 | there are no errors exactly when both fields are present and long enough after trimming. The title message is present exactly when the title is missing or shorter than 3. The content message is present exactly when the content is missing or shorter than 10. No other message occurs, and the title message comes first. |
| Text.TrimSpec | public/js/model.js:59 | the trimmed string is the input minus a leading and a trailing run of white space, and it neither starts nor ends with white space. It is empty exactly when the input is all white space. |
| Text.TrimStartSpec | public/js/model.js:59 | the leading run that is cut is white space and is maximal |
| Text.TrimEndSpec | public/js/model.js:59 | the trailing run that is cut is white space and is maximal, and the rest is a prefix of the input |
| Text.TrimIdempotent | public/js/model.js:59 | trimming twice is trimming once |
| Text.Utf16Length | public/js/model.js:63 | a string's JavaScript length lies between its code point count and twice that count |
| Validation.RejectionMessage | public/js/model.js:74-77 | a rejected payload fails with the title message, the content message, or both joined by ` و `, as the failures dictate |
| Model.BlogModel.CreatePost | public/js/model.js:70-102 | an invalid payload fails with the joined messages and sends nothing. A valid one is sent right after loading-change(true), and the outcome is the parsed body of a 2xx answer or the error. The created post goes to the front of the list. The notifications are loading-change(true), post-created or error, and loading-change(false), and the handler calls are theirs in that order. Loading ends false. |
| Model.BlogModel.UpdatePost | public/js/model.js:104-143 | the result succeeds exactly when the payload is valid and the answer is 2xx, and otherwise carries the validation or request error. A valid payload is sent right after loading-change(true), an invalid one not at all. On success the result is the first local post with the id, merged with the payload and stamped with the new time, and every post with that id is replaced by it (see `Posts.UpdateSpec`). The notifications are loading-change(true), post-updated or error, and loading-change(false), and the handler calls are theirs in that order. |
| Model.BlogModel.ApplyUpdate | public/js/model.js:124-132 | the result is the first local post with the id merged with the payload and the new time, and it is written over every post with the id; the new list is `UpdatedEverywhere` |
| Posts.UpdateSpec | public/js/model.js:124-132 | after an update every post with the id carries the new title, content and time and the first such post's creation time, and every other post is untouched. The length is kept, and with no such post nothing changes. |
| Posts.ReplaceByIdSpec | public/js/model.js:130-132 | the mapping keeps the length and replaces exactly the posts with the id |
| Model.BlogModel.DeletePost | public/js/model.js:145-175 | every post with the id is removed locally whatever the server says, and one DELETE is sent right after loading-change(true). A rejected request or a status other than 2xx or 404 first sends an error notification with its message. Then post-deleted and loading-change(false) follow, and the handler calls are theirs in that order. |
| Posts.RemoveByIdSpec | public/js/model.js:164 | no post with the id remains. Every other post remains as often as before and in order, and with no such post the list is unchanged. |
| Posts.FindById | public/js/model.js:178 | the result is absent exactly when no post has the id, and otherwise is the first post that has it |
| Model.BlogModel.GetPostById | public/js/model.js:177-179 | the lookup returns the first post in the list with the id, or nothing when there is none |
| Seqs.FilterCount | public/js/model.js:15 | a filter keeps each passing element as many times as it occurred and drops every failing one |
| Seqs.FilterMembers | public/js/model.js:164 | every kept element is from the input and passes the test |
| Seqs.FilterOrder | public/js/model.js:164 | a filter keeps the input's order |
| Seqs.FilterKeepsAll | public/js/model.js:170 | a filter that every element passes returns the input |
| Seqs.FilterAppend | public/js/model.js:19-23 | filtering a concatenation is concatenating the filtered parts |

## Left out

- The network, `fetch`, `response.json()` and the `apiBaseUrl` built from `window.location` are not modelled. The server's answer is a parameter of each method, and the request sent is recorded as a `Request` value, together with its position among the notifications.
- `console.log`, `console.warn` and `console.error` are left out. They write only to the console, with one exception: the `console.log` after `this.posts = await response.json()` reads `this.posts.length`, which throws on a `null` body (see the next line).
- Model.BlogModel.LoadPosts: response bodies are typed as lists of posts, so a body of another JSON shape is not modelled. On a `null` body the source replaces the list with `null`, then throws a TypeError at the `console.log`, reports the error and fails with the list already replaced. The model's "on failure the list is kept" does not cover that case.
- Model.BlogModel.CreatePost: the body is typed as a post, so another JSON shape is not modelled. In the source, `unshift` would put any parsed value, even `null`, at the front of the list.
- `formatDate` is left out because it depends on the browser's locale-aware date formatting. The clock read by `new Date().toISOString()` in `updatePost` is the parameter `now`.
- Each asynchronous method runs as one atomic step. Interleavings of two pending calls are not modelled.
- Handlers are not run. Their side effects are not modelled, and neither are the exceptions they throw. A handler that throws inside a `try` block would send the method into its `catch`. In `deletePost` that would report an error and a second `onPostDeleted`.
- The posts array handed to `onPostsLoaded` is shared with the model, and `unshift` later changes it in place. The model passes lists by value, so this aliasing is not modelled.
- Payload fields that are not strings, and payload keys other than `title` and `content`, are not modelled. In the source, such keys would be spread into an updated post.
- `===` on ids is modelled as equality of integers. A string id never matches a numeric one in the source, and the model has no such mix.
- An update for an id with no local post returns `Unmatched`, which holds the payload's fields and the new time. The source builds an object with no `id` and no `createdAt` in that case, leaves the list unchanged and announces that object.
- `public/js/view.js`, `public/js/controller.js` and `server.js` are not part of this model.
