/**
 * The `useEffect` of `ServerContainer` (src/App.tsx:85-90) over the
 * process-wide `serverStore.server` field. The effect writes the fetched
 * server only when `server && !error && !loading`, and then returns a
 * cleanup that resets the store to null. React runs the effect after a
 * commit whose dependencies `[server, error, loading]` changed, running the
 * pending cleanup first, and runs the pending cleanup on unmount.
 */
module ServerEffect {
  import opened Wrappers
  import opened ServerStore

  /** The effect's dependency array `[server, error, loading]`. */
  datatype Deps = Deps(server: Option<Server>, error: bool, loading: bool)

  /** What React can do to the component's effect. */
  datatype Event =
    | Commit(deps: Deps)  // a render was committed with these dependencies
    | Unmount             // the component was removed

  /**
   * The store together with React's bookkeeping for this effect: whether a
   * cleanup is registered, and the dependencies of the last effect run.
   */
  datatype EffectState = EffectState(store: Option<Server>, cleanupPending: bool, lastDeps: Option<Deps>)

  const Initial: EffectState := EffectState(None, false, None)

  /** The guard `server && !error && !loading`. */
  predicate Qualifies(d: Deps)
  {
    d.server.Some? && !d.error && !d.loading
  }

  /** Runs the registered cleanup, if any: `serverStore.setState({ server: null })`. */
  function Cleanup(s: EffectState): (t: EffectState)
    ensures !t.cleanupPending && t.lastDeps == s.lastDeps
    ensures t.store == if s.cleanupPending then None else s.store
  {
    if s.cleanupPending then s.(store := None, cleanupPending := false) else s
  }

  /** Runs the effect body for `d`: a write and a cleanup only when `d` qualifies. */
  function RunEffect(s: EffectState, d: Deps): (t: EffectState)
    ensures t.lastDeps == Some(d)
    ensures t.cleanupPending == (Qualifies(d) || s.cleanupPending)
    ensures t.store == if Qualifies(d) then d.server else s.store
  {
    if Qualifies(d) then EffectState(d.server, true, Some(d))
    else s.(lastDeps := Some(d))
  }

  /**
   * One React step. A commit with unchanged dependencies does nothing; with
   * changed ones the previous cleanup runs before the new effect. Unmount
   * runs the pending cleanup; a later commit is a fresh mount.
   */
  function Step(s: EffectState, e: Event): (t: EffectState)
    ensures e.Commit? && s.lastDeps == Some(e.deps) ==> t == s
    ensures e.Commit? && s.lastDeps != Some(e.deps) ==>
      t.lastDeps == Some(e.deps) &&
      t.store == (if Qualifies(e.deps) then e.deps.server else if s.cleanupPending then None else s.store) &&
      t.cleanupPending == Qualifies(e.deps)
    ensures e.Unmount? ==>
      t.lastDeps == None && !t.cleanupPending && t.store == (if s.cleanupPending then None else s.store)
  {
    match e
    case Commit(d) => if s.lastDeps == Some(d) then s else RunEffect(Cleanup(s), d)
    case Unmount => Cleanup(s).(lastDeps := None)
  }

  /** The state after a whole sequence of events, starting from a null store. */
  function Run(trace: seq<Event>): (r: EffectState)
    ensures trace == [] ==> r == Initial
    ensures trace != [] ==>
              r.lastDeps == (match trace[|trace| - 1] case Commit(d) => Some(d) case Unmount => None)
  {
    if trace == [] then Initial else Step(Run(trace[..|trace| - 1]), trace[|trace| - 1])
  }

  /** The value the store must hold for the latest dependencies: the server if they qualify, else null. */
  function Expected(last: Option<Deps>): Option<Server>
  {
    if last.Some? && Qualifies(last.value) then last.value.server else None
  }

  /**
   * The lifecycle invariant: the store holds exactly the expected value for
   * the last dependencies, and a cleanup is pending exactly when it holds one.
   */
  predicate Consistent(s: EffectState)
  {
    s.store == Expected(s.lastDeps) && s.cleanupPending == s.store.Some?
  }

  lemma StepPreservesConsistent(s: EffectState, e: Event)
    requires Consistent(s)
    ensures Consistent(Step(s, e))
  {
  }

  lemma {:induction false} RunConsistent(trace: seq<Event>)
    ensures Consistent(Run(trace))
  {
    if trace != [] {
      RunConsistent(trace[..|trace| - 1]);
      StepPreservesConsistent(Run(trace[..|trace| - 1]), trace[|trace| - 1]);
    }
  }

  /**
   * Whatever happened before, after an event the store is decided by that
   * event alone: a commit leaves the store holding its server exactly when
   * `server && !error && !loading`, and null otherwise; an unmount leaves it null.
   */
  lemma {:induction false} StoreAfterEvent(trace: seq<Event>, e: Event)
    ensures Run(trace + [e]).store ==
      match e
      case Commit(d) => if Qualifies(d) then d.server else None
      case Unmount => None
  {
    RunConsistent(trace);
    assert (trace + [e])[..|trace + [e]| - 1] == trace;
  }

  /**
   * The store never holds a stale value: at every point of any sequence of
   * events it is null or the server of the latest qualifying commit, and
   * that commit is the latest event.
   */
  lemma {:induction false} NeverStale(trace: seq<Event>, k: nat)
    requires k <= |trace|
    ensures var st := Run(trace[..k]).store;
      st == None || (k > 0 && trace[k - 1].Commit? && Qualifies(trace[k - 1].deps) && st == trace[k - 1].deps.server)
  {
    if k > 0 {
      StoreAfterEvent(trace[..k - 1], trace[k - 1]);
      assert trace[..k - 1] + [trace[k - 1]] == trace[..k];
    }
  }

  /** After unmount the store is null, whatever the effect had written. */
  lemma UnmountClears(trace: seq<Event>)
    ensures Run(trace + [Unmount]).store == None
    ensures !Run(trace + [Unmount]).cleanupPending
  {
    StoreAfterEvent(trace, Unmount);
    RunConsistent(trace + [Unmount]);
  }

  /**
   * Switching servers never leaks the old one: after a session for server a
   * was written, a commit for b that does not qualify (still loading, or
   * failed) leaves the store null rather than holding a.
   */
  lemma {:induction false} SwitchResetsFirst(trace: seq<Event>, a: Deps, b: Deps)
    requires Qualifies(a) && !Qualifies(b)
    ensures Run(trace + [Commit(a)]).store == a.server
    ensures Run(trace + [Commit(a), Commit(b)]).store == None
  {
    StoreAfterEvent(trace, Commit(a));
    StoreAfterEvent(trace + [Commit(a)], Commit(b));
    assert trace + [Commit(a)] + [Commit(b)] == trace + [Commit(a), Commit(b)];
  }

  /**
   * The mutable side: the store field and React's bookkeeping for the
   * effect, updated in place as the component is rendered and unmounted.
   * The ghost `history` records the events so far; `Valid` ties the fields to
   * the pure `Run` of that history.
   */
  class EffectHost {
    var store: Option<Server>
    var cleanupPending: bool
    var lastDeps: Option<Deps>
    ghost var history: seq<Event>

    function State(): EffectState
      reads this
    {
      EffectState(store, cleanupPending, lastDeps)
    }

    ghost predicate Valid()
      reads this
    {
      State() == Run(history)
    }

    constructor ()
      ensures Valid() && history == [] && store == None && !cleanupPending
    {
      store := None;
      cleanupPending := false;
      lastDeps := None;
      history := [];
    }

    /**
     * React re-runs the effect because a dependency changed: the previous
     * cleanup first, then the effect body for the new dependencies.
     */
    method OnDepsChange(server: Option<Server>, error: bool, loading: bool)
      requires Valid() && lastDeps != Some(Deps(server, error, loading))
      modifies this
      ensures Valid() && history == old(history) + [Commit(Deps(server, error, loading))]
      ensures State() == RunEffect(Cleanup(old(State())), Deps(server, error, loading))
      ensures store == if server.Some? && !error && !loading then server else None
    {
      if cleanupPending {
        store := None;
        cleanupPending := false;
      }
      if server.Some? && !error && !loading {
        store := server;
        cleanupPending := true;
      }
      lastDeps := Some(Deps(server, error, loading));
      StoreAfterEvent(history, Commit(Deps(server, error, loading)));
      history := history + [Commit(Deps(server, error, loading))];
      assert history[..|history| - 1] == old(history);
    }

    /** A committed render: the effect re-runs only when a dependency changed. */
    method Render(server: Option<Server>, error: bool, loading: bool)
      requires Valid()
      modifies this
      ensures Valid() && history == old(history) + [Commit(Deps(server, error, loading))]
      ensures State() == Step(old(State()), Commit(Deps(server, error, loading)))
      ensures store == if server.Some? && !error && !loading then server else None
    {
      var deps := Deps(server, error, loading);
      if lastDeps != Some(deps) {
        OnDepsChange(server, error, loading);
      } else {
        StoreAfterEvent(history, Commit(deps));
        history := history + [Commit(deps)];
        assert history[..|history| - 1] == old(history);
      }
    }

    /** The component is removed: the pending cleanup runs. */
    method Unmount()
      requires Valid()
      modifies this
      ensures Valid() && history == old(history) + [Event.Unmount]
      ensures State() == Step(old(State()), Event.Unmount)
      ensures store == None && !cleanupPending
    {
      if cleanupPending {
        store := None;
        cleanupPending := false;
      }
      lastDeps := None;
      UnmountClears(history);
      history := history + [Event.Unmount];
      assert history[..|history| - 1] == old(history);
    }
  }
}
