/**
  The client object: the registry of active watches (`watchMap`, from key
  path to the observer handed to the caller), `watch` and `ignore` that
  update it in place, and the per-watch state that one `watch` call's
  response handler updates in place. Each handler invocation is proved to
  do what `WatchStep.Step` says, so the lemmas about `Step` and `Run` are
  lemmas about this code.
 */
module KvClient {
  import opened KvTypes
  import opened WatchStep

  const DefaultMaxRetries: int := 5

  /** The handle a caller receives from `watch`; only whether it was torn down is modelled. */
  class Observer {
    var destroyed: bool

    constructor ()
      ensures !destroyed
    {
      destroyed := false;
    }

    method Destroy()
      modifies this
      ensures destroyed
    {
      destroyed := true;
    }
  }

  class KvStore {
    var watchMap: map<string, Observer>
    const maxRetries: int

    constructor (maxRetries: int := DefaultMaxRetries)
      ensures watchMap == map[] && this.maxRetries == maxRetries
    {
      watchMap := map[];
      this.maxRetries := maxRetries;
    }

    /**
      Tears down the watch registered under the key's path, if any, and
      removes exactly that entry; with no entry, nothing changes.
     */
    method Ignore(key: Key)
      modifies this, if key.path in watchMap then {watchMap[key.path]} else {}
      ensures watchMap == old(watchMap) - {key.path}
      ensures key.path in old(watchMap) ==> old(watchMap)[key.path].destroyed
      ensures key.path !in old(watchMap) ==> unchanged(this)
    {
      if key.path in watchMap {
        var observer := watchMap[key.path];
        observer.Destroy();
        watchMap := watchMap - {key.path};
      }
    }

    /**
      Starts a watch: a fresh observer is registered under the key's path,
      replacing any entry there without tearing the old watch down, and the
      first poll is outstanding without a block index.
     */
    method Watch<V>(key: Key, codec: Codec<V>) returns (w: Watcher<V>)
      modifies this
      ensures fresh(w) && fresh(w.observer) && !w.observer.destroyed
      ensures w.store == this && w.key == key && w.Valid()
      ensures w.State() == Start(codec)
      ensures watchMap == old(watchMap)[key.path := w.observer]
      ensures key.path in old(watchMap) ==> unchanged(old(watchMap)[key.path])
    {
      var observer := new Observer();
      w := new Watcher(this, key, observer, codec.undefinedValue);
      watchMap := watchMap[key.path := observer];
    }
  }

  /** The state one `watch` call's poll loop keeps between responses. */
  class Watcher<V> {
    const store: KvStore
    const key: Key
    const observer: Observer
    var numRetries: int
    var currentValue: V
    var poll: Poll

    function State(): WatchState<V>
      reads this
    {
      WatchState(numRetries, currentValue, poll)
    }

    function Settings(): Config
    {
      Config(key.path, store.maxRetries)
    }

    ghost predicate Valid()
      reads this
    {
      RetryBound(Settings(), State())
    }

    constructor (store: KvStore, key: Key, observer: Observer, undefinedValue: V)
      ensures this.store == store && this.key == key && this.observer == observer
      ensures State() == WatchState(0, undefinedValue, Awaiting(None))
      ensures Valid()
    {
      this.store := store;
      this.key := key;
      this.observer := observer;
      numRetries := 0;
      currentValue := undefinedValue;
      poll := Awaiting(None);
    }

    /**
      The handler of the outstanding poll: `ack` is what the sink returns if
      it is called with a value; the results are the sink call made and what
      the loop does next.
     */
    method OnEvent(codec: Codec<V>, ev: Event, ack: bool) returns (call: SinkCall<V>, next: Action)
      requires Valid() && poll.Awaiting?
      modifies this
      ensures Valid()
      ensures Outcome(State(), call, next)
              == Step(Settings(), codec, old(State()), Input(ev, key.path in store.watchMap, ack))
    {
      var index := poll.index;
      call, next := NoCall, Stop;
      match ev {
        case Rejected(message) =>
          // the rejection handler runs whether or not the path is registered
          call, next := HandleFailure(message);
        case Resolved(res) =>
          if key.path in store.watchMap {
            if res.statusCode == 200 {
              if !(res.body.Entries? && |res.body.items| > 0) {
                // reading the first envelope element throws, and the rejection handler runs
                call, next := HandleFailure(EnvelopeFault);
              } else {
                var metadata := res.body.items;
                var modifyIndex := metadata[0].modifyIndex;
                var nextValue := codec.decode(metadata[0].value);
                numRetries := 0;
                if Some(modifyIndex) != index && !codec.equal(currentValue, nextValue) {
                  currentValue := nextValue;
                  call := Deliver(currentValue);
                  if ack {
                    next := PollNow(modifyIndex);
                  }
                } else {
                  next := RetryLater(index);
                }
              }
            } else if res.statusCode == 404 {
              if numRetries < store.maxRetries {
                next := RetryLater(None);
                numRetries := numRetries + 1;
              }
            } else {
              call, next := HandleFailure(res.statusMessage);
            }
          }
      }
      poll := PollAfter(next);
    }

    /** Retry after the delay while the budget lasts, otherwise report a terminal error. */
    method HandleFailure(reason: string) returns (call: SinkCall<V>, next: Action)
      modifies this
      ensures poll == old(poll)
      ensures Outcome(State().(poll := PollAfter(next)), call, next) == Failed(Settings(), old(State()), reason)
    {
      if numRetries < store.maxRetries {
        call, next := NoCall, RetryLater(None);
        numRetries := numRetries + 1;
      } else {
        call, next := Fail(ErrorText(key.path, reason)), Stop;
      }
    }
  }

  /**
    A response that arrives after `ignore` is discarded: the sink is not
    called and nothing more is polled.
   */
  method IgnoredWatchDiscardsResponse<V>(key: Key, codec: Codec<V>, res: Response, ack: bool)
    returns (call: SinkCall<V>, next: Action, torn: bool)
    ensures call.NoCall? && next.Stop? && torn
  {
    var store := new KvStore();
    var w := store.Watch(key, codec);
    store.Ignore(key);
    call, next := w.OnEvent(codec, Resolved(res), ack);
    torn := w.observer.destroyed;
  }

  /**
    Watching a path twice leaves the first loop running: its responses still
    find the path registered, so a 404 is retried rather than discarded, and
    its observer is never torn down.
   */
  method RewatchLeavesFirstLoopRunning<V>(key: Key, codec: Codec<V>, msg: string, body: Body)
    returns (call: SinkCall<V>, next: Action, torn: bool)
    ensures call.NoCall? && next == RetryLater(None) && !torn
  {
    var store := new KvStore();
    var first := store.Watch(key, codec);
    var second := store.Watch(key, codec);
    call, next := first.OnEvent(codec, Resolved(Response(404, msg, body)), false);
    torn := first.observer.destroyed;
  }

  /**
    With no retry budget, the first failed poll reaches the sink as a
    terminal error whether or not the watch was ignored meanwhile.
   */
  method FailureAfterIgnoreStillReported<V>(key: Key, codec: Codec<V>, message: string)
    returns (call: SinkCall<V>, next: Action)
    ensures call == Fail(ErrorText(key.path, message)) && next.Stop?
  {
    var store := new KvStore(0);
    var w := store.Watch(key, codec);
    store.Ignore(key);
    call, next := w.OnEvent(codec, Rejected(message), true);
  }
}
