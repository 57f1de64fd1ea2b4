/**
 * The Lifecycle Adapter of the configuration screen: the commit handler
 * (`onConfigure`), and the screen object whose record is seeded from the
 * host, edited field by field, and read on every commit.
 *
 * The host SDK is not modelled: the answer of `getParameters` is the
 * argument of `Load`, the answer of `getCurrentState` the argument of
 * `Commit`, and the screen's `getParameters`, `setReady` and
 * `getCurrentState` calls are recorded in a ghost trace. The registration of
 * the commit handler (`onConfigure`) is not traced.
 */
module Lifecycle {
  import opened Wrappers
  import opened ParameterStore

  /** What the commit handler hands the host: `false`, or `{ parameters, targetState }`. */
  datatype CommitResult<T> = Refused | Accepted(parameters: Params, targetState: T)

  /**
   * The commit handler once the host has answered `getCurrentState` with
   * `currentState`: refuse unless every field is truthy, else pass the
   * record and the state through unchanged.
   */
  function Configure<T>(p: Params, currentState: T): (r: CommitResult<T>)
    ensures r == Refused <==> exists k :: Get(p, k) == None || Get(p, k) == Some("")
    ensures r.Accepted? ==> r.parameters == p && r.targetState == currentState
  {
    if IsComplete(p) then Accepted(p, currentState) else Refused
  }

  /** Emptying or removing any single field makes a commit refuse, whatever the other fields hold. */
  lemma SingleMissingFieldRefused<T>(p: Params, k: Key, v: Option<string>, currentState: T)
    requires v == None || v == Some("")
    ensures Configure(Put(p, k, v), currentState) == Refused
  {
  }

  /** A commit accepts exactly when all three fields hold non-empty strings. */
  lemma AcceptedIffAllNonEmpty<T>(p: Params, currentState: T)
    ensures Configure(p, currentState).Accepted? <==>
      p.huggingfaceApiKey.Some? && |p.huggingfaceApiKey.value| > 0 &&
      p.textModelId.Some? && |p.textModelId.value| > 0 &&
      p.imageModelId.Some? && |p.imageModelId.value| > 0
  {
  }

  /** A refusal is the same whatever state the host would have reported. */
  lemma RefusalIgnoresState<T>(p: Params, s: T, t: T)
    requires Configure(p, s) == Refused
    ensures Configure(p, t) == Refused
  {
  }

  /** The state of the screen: waiting for the host's saved parameters, or ready. */
  datatype Phase = Loading | Ready

  /**
   * A traced call the screen makes into the host (the registration of the
   * commit handler is not traced). `SetReady` carries, as a ghost
   * annotation, the record the model holds at the moment of the signal.
   */
  datatype HostCall = GetParameters | SetReady(held: Params) | GetCurrentState

  /** The number of ready signals in a trace. */
  ghost function ReadySignals(calls: seq<HostCall>): nat
  {
    if calls == [] then 0
    else ReadySignals(calls[..|calls| - 1]) + (if calls[|calls| - 1].SetReady? then 1 else 0)
  }

  /** The `ConfigScreen` component's state: the `parameters` record and the loading flag. */
  class Screen {
    var parameters: Params
    var phase: Phase
    ghost var calls: seq<HostCall>

    /**
     * Of the traced calls, the request for the saved parameters comes first; the ready
     * signal has been sent once exactly when the screen is Ready.
     */
    ghost predicate Valid()
      reads this
    {
      |calls| > 0 && calls[0] == GetParameters &&
      ReadySignals(calls) == (if phase == Ready then 1 else 0)
    }

    /** Mounting: the record starts at its defaults and the host is asked for the saved parameters. */
    constructor ()
      ensures Valid()
      ensures parameters == Defaults() && phase == Loading
      ensures calls == [GetParameters]
    {
      parameters := Defaults();
      phase := Loading;
      calls := [GetParameters];
    }

    /**
     * The host has answered `getParameters` with `saved`: a saved record
     * replaces the whole current one (edits made while Loading are lost),
     * no record leaves it as it is; only then is the host told the screen
     * is ready.
     */
    method Load(saved: Option<Params>)
      requires Valid() && phase == Loading
      modifies this
      ensures Valid()
      ensures parameters == (if saved.Some? then saved.value else old(parameters))
      ensures phase == Ready
      ensures calls == old(calls) + [SetReady(parameters)]
    {
      if saved.Some? {
        parameters := saved.value;
      }
      calls := calls + [SetReady(parameters)];
      phase := Ready;
    }

    /** A change event on the input bound to `k`: the field takes the input's value verbatim. */
    method SetField(k: Key, value: string)
      requires Valid()
      modifies this`parameters
      ensures Valid()
      ensures parameters == Put(old(parameters), k, Some(value))
    {
      parameters := Put(parameters, k, Some(value));
    }

    /**
     * The host asks the screen to commit. The current state is only asked
     * of the host, and `currentState` only used, when the record is
     * complete; the record itself is left as it is.
     */
    method Commit<T>(currentState: T) returns (r: CommitResult<T>)
      requires Valid()
      modifies this`calls
      ensures Valid()
      ensures r == Configure(parameters, currentState)
      ensures calls == old(calls) + (if r.Accepted? then [GetCurrentState] else [])
    {
      if !IsComplete(parameters) {
        return Refused;
      }
      calls := calls + [GetCurrentState];
      r := Accepted(parameters, currentState);
    }
  }

  /** A commit straight after mounting, with neither a load nor an edit, is refused. */
  method CommitAfterMountRefused<T>(currentState: T) returns (r: CommitResult<T>)
    ensures r == Refused
  {
    var screen := new Screen();
    r := screen.Commit(currentState);
  }

  /** Loading a saved record leaves exactly that record, and the ready signal sees it. */
  method LoadSavedRecord(saved: Params) returns (p: Params, ghost calls: seq<HostCall>)
    ensures p == saved
    ensures calls == [GetParameters, SetReady(saved)]
  {
    var screen := new Screen();
    screen.Load(Some(saved));
    p := screen.parameters;
    calls := screen.calls;
  }

  /** An edit made while Loading is overwritten by the saved record, even by a field it lacks. */
  method EditDuringLoadingLost(k: Key, value: string, saved: Params) returns (p: Params)
    ensures p == saved
    ensures Get(saved, k) == None ==> Get(p, k) == None
  {
    var screen := new Screen();
    screen.SetField(k, value);
    screen.Load(Some(saved));
    p := screen.parameters;
  }

  /**
   * With nothing saved, setting the API key and committing hands back the
   * defaults with that key, and the state reported at commit time.
   */
  method SetKeyThenCommit<T>(key: string, currentState: T) returns (r: CommitResult<T>)
    requires key != ""
    ensures r == Accepted(Params(Some(key), Some(DefaultTextModelId), Some(DefaultImageModelId)), currentState)
  {
    var screen := new Screen();
    screen.Load(None);
    screen.SetField(HuggingfaceApiKey, key);
    r := screen.Commit(currentState);
  }

  /** Two commits of the same record carry the state reported at each commit, not one fixed earlier. */
  method TwoCommits<T>(saved: Params, first: T, second: T) returns (r1: CommitResult<T>, r2: CommitResult<T>)
    requires IsComplete(saved)
    ensures r1 == Accepted(saved, first) && r2 == Accepted(saved, second)
  {
    var screen := new Screen();
    screen.Load(Some(saved));
    r1 := screen.Commit(first);
    r2 := screen.Commit(second);
  }
}
