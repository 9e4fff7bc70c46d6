/**
 * FrontendCacheService: a one-shot runner of startup initialisers. Initialisers are registered
 * before start-up; `initialize` runs them one after another, in registration order, each after
 * the previous one has completed, and then marks the service initialised. Initialisers are
 * named by ids, and which of them fail is a parameter of `initialize`.
 */
module FrontendCache {
  import opened Wrappers

  /** Names an initialiser callback. */
  type InitializerId = nat

  /** The errors FrontendCacheService throws (or rejects with). */
  datatype CacheError =
    | AlreadyInitialized               // 'Service already initialized'
    | AlreadyInitializing              // 'Service already initializing'
    | InitializerFailed(id: InitializerId)  // an initialiser threw or rejected
    | UndefinedInitializerList         // `push` on an undefined `_initializers`

  /** Every initialiser in `inits` succeeds. */
  predicate AllSucceed(inits: seq<InitializerId>, failing: set<InitializerId>) {
    forall i :: 0 <= i < |inits| ==> inits[i] !in failing
  }

  /**
   * The initialisers that run when `inits` are chained in order: all of them when none fails,
   * otherwise those up to and including the first that fails.
   */
  function RunUntilFailure(inits: seq<InitializerId>, failing: set<InitializerId>): (ran: seq<InitializerId>)
    ensures |ran| <= |inits| && ran == inits[..|ran|]
    ensures forall i :: 0 <= i < |ran| - 1 ==> ran[i] !in failing
    ensures AllSucceed(inits, failing) ==> ran == inits
    ensures !AllSucceed(inits, failing) ==> ran != [] && ran[|ran| - 1] in failing
  {
    if inits == [] then []
    else if inits[0] in failing then [inits[0]]
    else [inits[0]] + RunUntilFailure(inits[1..], failing)
  }

  class FrontendCacheService {
    /** `_initialized`. */
    var initialized: bool
    /** `_initializing`. */
    var initializing: bool
    /**
     * `_initializers`. The source declares this field without an initial value, so it starts
     * `undefined` and `push` on it throws; it is modelled as starting empty, as evidently meant
     * (see RegisterAsWritten below).
     */
    var initializers: seq<InitializerId>
    /** Every initialiser call made, in order. */
    var ran: seq<InitializerId>

    constructor ()
      ensures !initialized && !initializing && initializers == [] && ran == []
    {
      initialized := false;
      initializing := false;
      initializers := [];
      ran := [];
    }

    /** `registerInitializer(callback)`: refused once initialising has begun; otherwise appended. */
    method RegisterInitializer(callback: InitializerId) returns (r: Outcome<CacheError>)
      modifies this`initializers
      ensures old(initialized) ==> r == Fail(AlreadyInitialized) && initializers == old(initializers)
      ensures !old(initialized) && old(initializing) ==> r == Fail(AlreadyInitializing) && initializers == old(initializers)
      ensures !old(initialized) && !old(initializing) ==> r == Pass && initializers == old(initializers) + [callback]
    {
      if initialized {
        return Fail(AlreadyInitialized);
      }
      if initializing {
        return Fail(AlreadyInitializing);
      }
      initializers := initializers + [callback];
      r := Pass;
    }

    /** `isInitialized()`. */
    predicate IsInitialized()
      reads this
    {
      initialized
    }

    /**
     * `initialize()`: refused when initialised or initialising. Otherwise the initialisers run
     * in registration order, each once, until one fails. When none fails the service ends up
     * initialised and no longer initialising; when one fails the call fails with it and the
     * service stays initialising, so every later call is refused.
     */
    method Initialize(failing: set<InitializerId>) returns (r: Outcome<CacheError>)
      modifies this`initialized, this`initializing, this`ran
      ensures old(initialized) ==> r == Fail(AlreadyInitialized) && unchanged(this)
      ensures !old(initialized) && old(initializing) ==> r == Fail(AlreadyInitializing) && unchanged(this)
      ensures !old(initialized) && !old(initializing) ==>
        ran == old(ran) + RunUntilFailure(initializers, failing)
        && (r.Pass? <==> AllSucceed(initializers, failing))
        && (r.Pass? ==> IsInitialized() && !initializing)
        && (r.Fail? ==> !initialized && initializing && r.error.InitializerFailed? && r.error.id in failing
                        && r.error == InitializerFailed(ran[|ran| - 1]))
    {
      if initialized {
        return Fail(AlreadyInitialized);
      }
      if initializing {
        return Fail(AlreadyInitializing);
      }
      initializing := true;
      var i := 0;
      while i < |initializers|
        invariant 0 <= i <= |initializers|
        invariant initializing && !initialized
        invariant ran == old(ran) + initializers[..i]
        invariant forall k :: 0 <= k < i ==> initializers[k] !in failing
      {
        var id := initializers[i];
        ran := ran + [id];
        if id in failing {
          assert initializers[..i + 1] == initializers[..i] + [id];
          return Fail(InitializerFailed(id));
        }
        i := i + 1;
      }
      assert initializers[..i] == initializers;
      initializing := false;
      initialized := true;
      r := Pass;
    }
  }

  /** `_initializers` as the source leaves it: `undefined` until something assigns it. */
  datatype InitializerList = Undefined | Defined(ids: seq<InitializerId>)

  /** `registerInitializer` as written: `push` on an undefined list throws a TypeError. */
  function RegisterAsWritten(initialized: bool, initializing: bool, list: InitializerList, callback: InitializerId)
    : (r: Result<InitializerList, CacheError>)
    ensures r.Ok? <==> !initialized && !initializing && list.Defined?
    ensures r.Ok? ==> r.value == Defined(list.ids + [callback])
  {
    if initialized then Err(AlreadyInitialized)
    else if initializing then Err(AlreadyInitializing)
    else if list.Undefined? then Err(UndefinedInitializerList)
    else Ok(Defined(list.ids + [callback]))
  }

  /** As written, a freshly loaded service refuses every registration. */
  lemma FreshServiceRefusesRegistrationAsWritten(callback: InitializerId)
    ensures RegisterAsWritten(false, false, Undefined, callback) == Err(UndefinedInitializerList)
  {
  }

  /** With the list starting empty, a freshly loaded service accepts a registration. */
  method FreshServiceAcceptsRegistration(callback: InitializerId) returns (r: Outcome<CacheError>, inits: seq<InitializerId>)
    ensures r == Pass && inits == [callback]
  {
    var s := new FrontendCacheService();
    r := s.RegisterInitializer(callback);
    inits := s.initializers;
  }

  /** After a successful `initialize`, a second call and any registration are refused. */
  method SecondInitializeFails(s: FrontendCacheService, failing: set<InitializerId>)
    returns (first: Outcome<CacheError>, second: Outcome<CacheError>, late: Outcome<CacheError>)
    requires !s.initialized && !s.initializing && AllSucceed(s.initializers, failing)
    modifies s
    ensures first == Pass && second == Fail(AlreadyInitialized) && late == Fail(AlreadyInitialized)
  {
    first := s.Initialize(failing);
    second := s.Initialize(failing);
    late := s.RegisterInitializer(0);
  }
}
