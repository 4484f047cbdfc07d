/** The post entity and the list operations the model applies to its `posts` array. */
module Posts {
  import opened Wrappers
  import opened Seqs

  type PostId = int

  /** A post as the server returns it; timestamps are opaque ISO strings. */
  datatype Post = Post(id: PostId, title: string, content: string, createdAt: string, updatedAt: string)

  /** The `{title, content}` payload of a create or update; `None` is an absent key. */
  datatype PostData = PostData(title: Option<string>, content: Option<string>)

  /**
   * The record `updatePost` builds: the stored post patched with the payload
   * and a new `updatedAt`, or, when no post has the id, only the payload's
   * keys and `updatedAt` (spreading `undefined` adds nothing).
   */
  datatype UpdatedPost =
    | Merged(post: Post)
    | Unmatched(title: Option<string>, content: Option<string>, updatedAt: string)

  /** `posts.find(post => post.id === id)`: the first post with that id. */
  function FindById(posts: seq<Post>, id: PostId): (r: Option<Post>)
    ensures r.None? <==> forall k :: 0 <= k < |posts| ==> posts[k].id != id
    ensures r.Some? ==> exists k :: 0 <= k < |posts| && posts[k] == r.value && r.value.id == id
                           && forall j :: 0 <= j < k ==> posts[j].id != id
  {
    if posts == [] then None
    else if posts[0].id == id then Some(posts[0])
    else
      var r := FindById(posts[1..], id);
      assert r.Some? ==> exists k :: 0 <= k < |posts[1..]| && posts[1..][k] == r.value && posts[k + 1] == r.value;
      r
  }

  /** `posts.filter(post => post.id !== id)` */
  function RemoveById(posts: seq<Post>, id: PostId): seq<Post> {
    Filter(posts, (p: Post) => p.id != id)
  }

  /**
   * After `RemoveById` no post with the id is left, every other post stays as
   * often as it occurred, in the same order; with no post to remove the list
   * is unchanged.
   */
  lemma RemoveByIdSpec(posts: seq<Post>, id: PostId)
    ensures var r := RemoveById(posts, id);
      && (forall k :: 0 <= k < |r| ==> r[k].id != id)
      && (forall p: Post :: multiset(r)[p] == if p.id == id then 0 else multiset(posts)[p])
      && IsSubsequence(r, posts)
      && ((forall k :: 0 <= k < |posts| ==> posts[k].id != id) ==> r == posts)
  {
    var keep := (p: Post) => p.id != id;
    FilterMembers(posts, keep);
    FilterCount(posts, keep);
    FilterOrder(posts, keep);
    FilterKeepsAll(posts, keep);
  }

  /** `posts.map(post => post.id === id ? q : post)` */
  function ReplaceById(posts: seq<Post>, id: PostId, q: Post): seq<Post> {
    if posts == [] then []
    else [if posts[0].id == id then q else posts[0]] + ReplaceById(posts[1..], id, q)
  }

  /** `ReplaceById` keeps the length and swaps in `q` exactly at the posts with the id. */
  lemma {:induction false} ReplaceByIdSpec(posts: seq<Post>, id: PostId, q: Post)
    ensures var r := ReplaceById(posts, id, q);
      && |r| == |posts|
      && forall k :: 0 <= k < |posts| ==> r[k] == if posts[k].id == id then q else posts[k]
  {
    if posts != [] {
      ReplaceByIdSpec(posts[1..], id, q);
    }
  }

  /** `{...existing, ...data, updatedAt: now}` */
  function Merge(existing: Post, data: PostData, now: string): Post {
    existing.(title := data.title.GetOr(existing.title),
              content := data.content.GetOr(existing.content),
              updatedAt := now)
  }

  /** `{...posts.find(...), ...data, updatedAt: now}`, whether or not a post was found. */
  function Patch(found: Option<Post>, data: PostData, now: string): UpdatedPost {
    match found
    case Some(p) => Merged(Merge(p, data, now))
    case None => Unmatched(data.title, data.content, now)
  }

  /**
   * `after` is `before` with every post whose id is `id` replaced by the
   * first such post carrying the new title, content and `updatedAt`, and
   * every other post left as it was.
   */
  ghost predicate UpdatedEverywhere(before: seq<Post>, after: seq<Post>, id: PostId, title: string, content: string, now: string) {
    && |after| == |before|
    && forall k :: 0 <= k < |before| ==>
         if before[k].id == id
         then exists j :: 0 <= j <= k && before[j].id == id && (forall i :: 0 <= i < j ==> before[i].id != id)
                && after[k] == Post(id, title, content, before[j].createdAt, now)
         else after[k] == before[k]
  }

  /**
   * Patching with a payload that has both fields and writing the result over
   * every post with the id is `UpdatedEverywhere`; with no such post the list
   * is unchanged.
   */
  lemma UpdateSpec(posts: seq<Post>, id: PostId, data: PostData, now: string)
    requires data.title.Some? && data.content.Some?
    ensures var u := Patch(FindById(posts, id), data, now);
      var after := if u.Merged? then ReplaceById(posts, id, u.post) else posts;
      UpdatedEverywhere(posts, after, id, data.title.value, data.content.value, now)
  {
    var found := FindById(posts, id);
    if found.Some? {
      var q := Merge(found.value, data, now);
      var after := ReplaceById(posts, id, q);
      ReplaceByIdSpec(posts, id, q);
      var j :| 0 <= j < |posts| && posts[j] == found.value && found.value.id == id
               && forall i :: 0 <= i < j ==> posts[i].id != id;
      forall k | 0 <= k < |posts| && posts[k].id == id
        ensures 0 <= j <= k && after[k] == Post(id, data.title.value, data.content.value, posts[j].createdAt, now)
      {
      }
    }
  }
}
