/**
 * The model's observer registry: listener objects, the handler names they may
 * define, and which handler calls one `notifyObservers(event, data)` makes.
 */
module Observers {
  import opened Seqs
  import opened Posts

  /** The handler names the model notifies. */
  datatype Handler =
    | OnLoadingChange | OnLoadingStart | OnLoadingEnd | OnPostsLoaded
    | OnPostCreated | OnPostUpdated | OnPostDeleted | OnError

  /** One notification: the handler name with its payload. */
  datatype Event =
    | LoadingChange(loading: bool)
    | LoadingStart
    | LoadingEnd
    | PostsLoaded(posts: seq<Post>)
    | PostCreated(post: Post)
    | PostUpdated(updated: UpdatedPost)
    | PostDeleted(id: PostId)
    | Error(message: string)
  {
    function Handler(): Handler {
      match this
      case LoadingChange(_) => OnLoadingChange
      case LoadingStart => OnLoadingStart
      case LoadingEnd => OnLoadingEnd
      case PostsLoaded(_) => OnPostsLoaded
      case PostCreated(_) => OnPostCreated
      case PostUpdated(_) => OnPostUpdated
      case PostDeleted(_) => OnPostDeleted
      case Error(_) => OnError
    }
  }

  /**
   * A listener object. `handles` is the set of handler properties it defines;
   * identity is the object's, as with `!==`.
   */
  class Observer {
    const handles: set<Handler>

    constructor (handles: set<Handler>)
      ensures this.handles == handles
    {
      this.handles := handles;
    }
  }

  /** One call `observer[handler](data)`. */
  datatype Delivery = Delivery(observer: Observer, event: Event)

  /** `observers.filter(obs => obs !== observer)` */
  function Without(observers: seq<Observer>, observer: Observer): seq<Observer> {
    Filter(observers, (o: Observer) => o != observer)
  }

  /**
   * `Without` drops every occurrence of the observer and keeps every other
   * registration, as often as it occurred and in the same order.
   */
  lemma WithoutSpec(observers: seq<Observer>, observer: Observer)
    ensures var r := Without(observers, observer);
      && (forall k :: 0 <= k < |r| ==> r[k] != observer)
      && (forall o: Observer :: multiset(r)[o] == if o == observer then 0 else multiset(observers)[o])
      && IsSubsequence(r, observers)
  {
    var keep := (o: Observer) => o != observer;
    FilterMembers(observers, keep);
    FilterCount(observers, keep);
    FilterOrder(observers, keep);
  }

  /** The registered observers that define handler `h`, in registration order. */
  function Recipients(observers: seq<Observer>, h: Handler): seq<Observer> {
    Filter(observers, (o: Observer) => h in o.handles)
  }

  /**
   * The handler calls one notification makes, as `forEach` makes them: those
   * for all but the last observer, then the last one's if it defines the handler.
   */
  function Dispatch(observers: seq<Observer>, e: Event): seq<Delivery> {
    if observers == [] then []
    else
      var last := observers[|observers| - 1];
      Dispatch(observers[..|observers| - 1], e)
      + if e.Handler() in last.handles then [Delivery(last, e)] else []
  }

  /** The calls one notification makes go to `Recipients`, in their order. */
  lemma {:induction false} DispatchRecipients(observers: seq<Observer>, e: Event)
    ensures var d, rs := Dispatch(observers, e), Recipients(observers, e.Handler());
      |d| == |rs| && forall k :: 0 <= k < |d| ==> d[k] == Delivery(rs[k], e)
  {
    if observers != [] {
      var init, last := observers[..|observers| - 1], observers[|observers| - 1];
      var keep := (o: Observer) => e.Handler() in o.handles;
      DispatchRecipients(init, e);
      assert observers == init + [last];
      FilterAppend(init, [last], keep);
      assert Filter([last], keep) == if keep(last) then [last] else [];
    }
  }

  /**
   * A notification calls, in registration order, each registered observer
   * that defines the handler, once per registration, and no other.
   */
  lemma DispatchSpec(observers: seq<Observer>, e: Event)
    ensures var d, rs := Dispatch(observers, e), Recipients(observers, e.Handler());
      && |d| == |rs|
      && (forall k :: 0 <= k < |d| ==> d[k] == Delivery(rs[k], e))
      && (forall o: Observer :: multiset(rs)[o] == if e.Handler() in o.handles then multiset(observers)[o] else 0)
      && IsSubsequence(rs, observers)
  {
    var keep := (o: Observer) => e.Handler() in o.handles;
    DispatchRecipients(observers, e);
    FilterCount(observers, keep);
    FilterOrder(observers, keep);
  }
}
