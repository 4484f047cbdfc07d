/**
 * `BlogModel`: the client's copy of the post list, its observer registry and
 * its loading flag. Each asynchronous method is one atomic step whose server
 * outcome is a parameter; a thrown error is a `Failure` result.
 */
module Model {
  import opened Wrappers
  import opened Seqs
  import opened Posts
  import opened Validation
  import opened Observers
  import opened Http

  class BlogModel {
    var posts: seq<Post>
    var observers: seq<Observer>
    var isLoading: bool
    /** Every handler call made so far, in order. */
    var delivered: seq<Delivery>
    /** Every notification sent so far, whether or not anyone listened. */
    ghost var emitted: seq<Event>
    /** Every request sent to the server so far, each placed among the notifications. */
    ghost var requests: seq<Sent>

    constructor ()
      ensures posts == [] && observers == [] && !isLoading
      ensures delivered == [] && emitted == [] && requests == []
    {
      posts := [];
      observers := [];
      isLoading := false;
      delivered := [];
      emitted := [];
      requests := [];
    }

    method AddObserver(observer: Observer)
      modifies this`observers
      ensures observers == old(observers) + [observer]
    {
      observers := observers + [observer];
    }

    /** Unregisters every occurrence of `observer`; the others keep their order. */
    method RemoveObserver(observer: Observer)
      modifies this`observers
      ensures observers == Without(old(observers), observer)
    {
      observers := Without(observers, observer);
    }

    /**
     * Calls the handler for `e` on each registered observer that defines it,
     * in registration order.
     */
    method Deliver(e: Event)
      modifies this`delivered
      ensures delivered == old(delivered) + Dispatch(observers, e)
    {
      var i := 0;
      while i < |observers|
        invariant 0 <= i <= |observers|
        invariant delivered == old(delivered) + Dispatch(observers[..i], e)
      {
        var observer := observers[i];
        ghost var step := if e.Handler() in observer.handles then [Delivery(observer, e)] else [];
        assert observers[..i + 1][..i] == observers[..i] && observers[..i + 1][i] == observer;
        assert Dispatch(observers[..i + 1], e) == Dispatch(observers[..i], e) + step;
        if e.Handler() in observer.handles {
          delivered := delivered + [Delivery(observer, e)];
        }
        i := i + 1;
      }
      assert observers[..i] == observers;
    }

    /** Sends `e` to the observers: the event is logged once and delivered. */
    method NotifyObservers(e: Event)
      modifies this`delivered, this`emitted
      ensures emitted == old(emitted) + [e]
      ensures delivered == old(delivered) + Dispatch(observers, e)
    {
      emitted := emitted + [e];
      Deliver(e);
    }

    /** Sets the loading flag and announces the new value. */
    method SetLoading(loading: bool)
      modifies this`isLoading, this`delivered, this`emitted
      ensures isLoading == loading
      ensures emitted == old(emitted) + [LoadingChange(loading)]
      ensures delivered == old(delivered) + Dispatch(observers, LoadingChange(loading))
    {
      isLoading := loading;
      NotifyObservers(LoadingChange(loading));
    }

    /**
     * Replaces the list with the server's, announced between loading-start
     * and loading-end; on failure keeps the list and reports the error.
     */
    method LoadPosts(response: Fetched<Json<seq<Post>>>) returns (r: Result<seq<Post>>)
      modifies this
      ensures r == ReadJson(response)
      ensures posts == if r.Success? then r.value else old(posts)
      ensures observers == old(observers) && !isLoading
      ensures requests == old(requests) + [Sent(ListPosts, |old(emitted)| + 2)]
      ensures emitted == old(emitted) + [
        LoadingChange(true), LoadingStart,
        if r.Success? then PostsLoaded(r.value) else Error(r.error),
        LoadingChange(false), LoadingEnd]
      ensures delivered == old(delivered) + Dispatch(observers, LoadingChange(true)) + Dispatch(observers, LoadingStart)
        + Dispatch(observers, if r.Success? then PostsLoaded(r.value) else Error(r.error))
        + Dispatch(observers, LoadingChange(false)) + Dispatch(observers, LoadingEnd)
    {
      ghost var e0 := emitted;
      SetLoading(true);
      NotifyObservers(LoadingStart);
      requests := requests + [Sent(ListPosts, |emitted|)];
      r := ReadJson(response);
      var outcome := if r.Success? then PostsLoaded(r.value) else Error(r.error);
      if r.Success? {
        posts := r.value;
      }
      NotifyObservers(outcome);
      SetLoading(false);
      NotifyObservers(LoadingEnd);
      Snoc5(e0, LoadingChange(true), LoadingStart, outcome, LoadingChange(false), LoadingEnd);
    }

    /**
     * Validates, then sends the post; the server's post goes to the front of
     * the list. An invalid payload sends nothing and fails with the joined messages.
     */
    method CreatePost(data: PostData, response: Fetched<Json<Post>>) returns (r: Result<Post>)
      modifies this
      ensures var errors := ValidatePostData(data);
        r == if errors != [] then Failure(ValidationError(errors)) else ReadJson(response)
      ensures requests == old(requests) + if ValidatePostData(data) == [] then [Sent(SendNewPost(data), |old(emitted)| + 1)] else []
      ensures posts == if r.Success? then [r.value] + old(posts) else old(posts)
      ensures observers == old(observers) && !isLoading
      ensures emitted == old(emitted) + [
        LoadingChange(true),
        if r.Success? then PostCreated(r.value) else Error(r.error),
        LoadingChange(false)]
      ensures delivered == old(delivered) + Dispatch(observers, LoadingChange(true))
        + Dispatch(observers, if r.Success? then PostCreated(r.value) else Error(r.error))
        + Dispatch(observers, LoadingChange(false))
    {
      ghost var e0 := emitted;
      SetLoading(true);
      var errors := ValidatePostData(data);
      if errors != [] {
        r := Failure(ValidationError(errors));
      } else {
        requests := requests + [Sent(SendNewPost(data), |emitted|)];
        r := ReadJson(response);
      }
      var outcome := if r.Success? then PostCreated(r.value) else Error(r.error);
      if r.Success? {
        posts := [r.value] + posts;
      }
      NotifyObservers(outcome);
      SetLoading(false);
      Snoc3(e0, LoadingChange(true), outcome, LoadingChange(false));
    }

    /**
     * Validates, then sends the update; every post with the id becomes the
     * first such post patched with the payload and the new `updatedAt`.
     */
    method UpdatePost(postId: PostId, data: PostData, now: string, response: Fetched<()>)
      returns (r: Result<UpdatedPost>)
      modifies this
      ensures r.Success? <==> ValidatePostData(data) == [] && Settle(response).Success?
      ensures var errors := ValidatePostData(data);
        r.Failure? ==> r.error == if errors != [] then ValidationError(errors) else Settle(response).error
      ensures r.Success? ==> r.value == Patch(FindById(old(posts), postId), data, now)
      ensures requests == old(requests) + if ValidatePostData(data) == [] then [Sent(SendUpdate(postId, data), |old(emitted)| + 1)] else []
      ensures posts == if r.Success? && r.value.Merged? then ReplaceById(old(posts), postId, r.value.post) else old(posts)
      ensures r.Success? ==> UpdatedEverywhere(old(posts), posts, postId, data.title.value, data.content.value, now)
      ensures observers == old(observers) && !isLoading
      ensures emitted == old(emitted) + [
        LoadingChange(true),
        if r.Success? then PostUpdated(r.value) else Error(r.error),
        LoadingChange(false)]
      ensures delivered == old(delivered) + Dispatch(observers, LoadingChange(true))
        + Dispatch(observers, if r.Success? then PostUpdated(r.value) else Error(r.error))
        + Dispatch(observers, LoadingChange(false))
    {
      ghost var e0 := emitted;
      SetLoading(true);
      var errors := ValidatePostData(data);
      if errors != [] {
        r := Failure(ValidationError(errors));
      } else {
        requests := requests + [Sent(SendUpdate(postId, data), |emitted|)];
        var reply := Settle(response);
        if reply.Failure? {
          r := Failure(reply.error);
        } else {
          var updated := ApplyUpdate(postId, data, now);
          r := Success(updated);
        }
      }
      var outcome := if r.Success? then PostUpdated(r.value) else Error(r.error);
      NotifyObservers(outcome);
      SetLoading(false);
      Snoc3(e0, LoadingChange(true), outcome, LoadingChange(false));
    }

    /**
     * The success path of an update: the first post with the id, merged with
     * the payload and stamped `now`, is written over every post with the id.
     */
    method ApplyUpdate(postId: PostId, data: PostData, now: string) returns (updated: UpdatedPost)
      requires data.title.Some? && data.content.Some?
      modifies this`posts
      ensures updated == Patch(FindById(old(posts), postId), data, now)
      ensures posts == if updated.Merged? then ReplaceById(old(posts), postId, updated.post) else old(posts)
      ensures UpdatedEverywhere(old(posts), posts, postId, data.title.value, data.content.value, now)
    {
      updated := Patch(GetPostById(postId), data, now);
      UpdateSpec(posts, postId, data, now);
      if updated.Merged? {
        posts := ReplaceById(posts, postId, updated.post);
      }
    }

    /**
     * Sends the delete and removes every post with the id locally whatever the
     * server says; a status other than success or 404, or a failed request,
     * is reported first. Never fails.
     */
    method DeletePost(postId: PostId, response: Fetched<()>)
      modifies this
      ensures posts == RemoveById(old(posts), postId)
      ensures requests == old(requests) + [Sent(SendDelete(postId), |old(emitted)| + 1)]
      ensures observers == old(observers) && !isLoading
      ensures emitted == old(emitted) + (
        if response.Failed? || (!IsOk(response.status) && response.status != NotFound)
        then [LoadingChange(true), Error(Settle(response).error), PostDeleted(postId), LoadingChange(false)]
        else [LoadingChange(true), PostDeleted(postId), LoadingChange(false)])
      ensures delivered == old(delivered) + Dispatch(observers, LoadingChange(true))
        + (if response.Failed? || (!IsOk(response.status) && response.status != NotFound)
           then Dispatch(observers, Error(Settle(response).error)) else [])
        + Dispatch(observers, PostDeleted(postId)) + Dispatch(observers, LoadingChange(false))
    {
      ghost var e0 := emitted;
      SetLoading(true);
      requests := requests + [Sent(SendDelete(postId), |emitted|)];
      var error: Option<string> := None;
      match response {
        case Failed(message) =>
          error := Some(message);
        case Answered(status, _) =>
          if !IsOk(status) && status != NotFound {
            error := Some(StatusError(status));
          }
      }
      if error.Some? {
        // the catch block reports the error, then removes locally all the same
        NotifyObservers(Error(error.value));
      }
      posts := RemoveById(posts, postId);
      NotifyObservers(PostDeleted(postId));
      SetLoading(false);
      if error.Some? {
        Snoc4(e0, LoadingChange(true), Error(error.value), PostDeleted(postId), LoadingChange(false));
      } else {
        Snoc3(e0, LoadingChange(true), PostDeleted(postId), LoadingChange(false));
      }
    }

    /** The first post with the id, if any. */
    function GetPostById(postId: PostId): (r: Option<Post>)
      reads this
      ensures r.None? <==> forall k :: 0 <= k < |posts| ==> posts[k].id != postId
      ensures r.Some? ==> exists k :: 0 <= k < |posts| && posts[k] == r.value && r.value.id == postId
                             && forall j :: 0 <= j < k ==> posts[j].id != postId
    {
      FindById(posts, postId)
    }
  }
}
