/** `RemotePresentationState`: a four-state machine folded over the pager's
    combined load states, telling the list when a refresh driven by the
    remote mediator has been fully presented from the local source. */
module PresentationState {
  import opened Types
  import opened Flows

  /** The per-edge load state of one backing source. */
  datatype LoadState = NotLoading(endOfPaginationReached: bool) | Loading | Error(error: FetchError)

  datatype LoadStates = LoadStates(refresh: LoadState, prepend: LoadState, append: LoadState)

  /** The load states of the local source and, when there is one, the remote mediator. */
  datatype CombinedLoadStates = CombinedLoadStates(source: LoadStates, mediator: Option<LoadStates>)

  datatype RemotePresentationState = Initial | RemoteLoading | SourceLoading | Presented

  /** `loadState.mediator?.refresh is LoadState.Loading`; an absent mediator is not loading. */
  predicate MediatorRefreshLoading(ls: CombinedLoadStates)
  {
    ls.mediator.Some? && ls.mediator.value.refresh.Loading?
  }

  /** The `scan` operation: one transition per combined load state. */
  function Step(state: RemotePresentationState, ls: CombinedLoadStates): (r: RemotePresentationState)
    ensures r == state || Advances(state, r)
    ensures r != Initial || state == Initial
  {
    match state
    case Initial => if MediatorRefreshLoading(ls) then RemoteLoading else state
    case RemoteLoading => if ls.source.refresh.Loading? then SourceLoading else state
    case SourceLoading => if ls.source.refresh.NotLoading? then Presented else state
    case Presented => if MediatorRefreshLoading(ls) then RemoteLoading else state
  }

  /** The four edges of the machine. */
  predicate Advances(a: RemotePresentationState, b: RemotePresentationState)
  {
    || (a == Initial && b == RemoteLoading)
    || (a == RemoteLoading && b == SourceLoading)
    || (a == SourceLoading && b == Presented)
    || (a == Presented && b == RemoteLoading)
  }

  /** Each transition, and the condition under which it fires; in every
      other case the state stays as it is. */
  lemma StepTransitions(state: RemotePresentationState, ls: CombinedLoadStates)
    ensures state == Initial ==> (Step(state, ls) == RemoteLoading <==> MediatorRefreshLoading(ls))
    ensures state == RemoteLoading ==> (Step(state, ls) == SourceLoading <==> ls.source.refresh.Loading?)
    ensures state == SourceLoading ==> (Step(state, ls) == Presented <==> ls.source.refresh.NotLoading?)
    ensures state == Presented ==> (Step(state, ls) == RemoteLoading <==> MediatorRefreshLoading(ls))
    ensures Step(state, ls) == state || Advances(state, Step(state, ls))
  {
  }

  /** A source refresh that fails leaves the machine waiting in `SourceLoading`. */
  lemma SourceErrorKeepsWaiting(ls: CombinedLoadStates)
    requires ls.source.refresh.Error?
    ensures Step(SourceLoading, ls) == SourceLoading
  {
  }

  /** The flow before `distinctUntilChanged`: `INITIAL`, then every `scan` result. */
  function Scanned(inputs: seq<CombinedLoadStates>): (r: seq<RemotePresentationState>)
    ensures |r| == |inputs| + 1 && r[0] == Initial
    ensures forall i {:trigger inputs[i]} :: 0 <= i < |inputs| ==> r[i + 1] == Step(r[i], inputs[i])
  {
    Scan(Step, Initial, inputs)
  }

  /** `asRemotePresentationState()`. */
  function AsRemotePresentationState(inputs: seq<CombinedLoadStates>): (r: seq<RemotePresentationState>)
    ensures r != [] && r[0] == Initial
    ensures forall i :: 0 <= i < |r| - 1 ==> r[i] != r[i + 1]
    ensures r[|r| - 1] == Scanned(inputs)[|inputs|]
  {
    DistinctUntilChanged(Scanned(inputs))
  }

  /** Every state change the list observes is one of the machine's four edges:
      in particular `PRESENTED` is only reached from `SOURCE_LOADING`, which is
      only reached from `REMOTE_LOADING`. */
  lemma {:induction false} PresentationOnlyAdvances(inputs: seq<CombinedLoadStates>)
    ensures var r := AsRemotePresentationState(inputs);
            forall i :: 0 <= i < |r| - 1 ==> Advances(r[i], r[i + 1])
  {
    var s := Scanned(inputs);
    forall i | 0 <= i < |s| - 1
      ensures s[i] == s[i + 1] || Advances(s[i], s[i + 1])
    {
      assert s[i + 1] == Step(s[i], inputs[i]);
      StepTransitions(s[i], inputs[i]);
    }
    DistinctKeepsSteps(Advances, None, s);
    var r := DistinctFrom(None, s);
    assert AsRemotePresentationState(inputs) == r;
    assert forall i :: 0 <= i < |r| - 1 ==> Advances(r[i], r[i + 1]);
  }

  /** Once it has left `INITIAL`, the observed state never returns to it. */
  lemma NeverBackToInitial(inputs: seq<CombinedLoadStates>)
    ensures var r := AsRemotePresentationState(inputs);
            forall i :: 0 < i < |r| ==> r[i] != Initial
  {
    var r := AsRemotePresentationState(inputs);
    PresentationOnlyAdvances(inputs);
    forall i | 0 < i < |r|
      ensures r[i] != Initial
    {
      assert Advances(r[i - 1], r[i]);
    }
  }

  /** Load states with nothing loading, and with only the refresh loading. */
  const AllIdle := LoadStates(NotLoading(false), NotLoading(false), NotLoading(false))
  const RefreshLoading := LoadStates(Loading, NotLoading(false), NotLoading(false))

  /** A refresh that succeeds: the mediator starts loading, then the local
      source starts and finishes loading; repeated load states do not
      repeat a presentation state. */
  lemma SuccessfulRefresh()
    ensures AsRemotePresentationState([
              CombinedLoadStates(AllIdle, Some(RefreshLoading)),
              CombinedLoadStates(AllIdle, Some(RefreshLoading)),
              CombinedLoadStates(RefreshLoading, Some(RefreshLoading)),
              CombinedLoadStates(AllIdle, Some(AllIdle))])
            == [Initial, RemoteLoading, SourceLoading, Presented]
  {
    var inputs := [
      CombinedLoadStates(AllIdle, Some(RefreshLoading)),
      CombinedLoadStates(AllIdle, Some(RefreshLoading)),
      CombinedLoadStates(RefreshLoading, Some(RefreshLoading)),
      CombinedLoadStates(AllIdle, Some(AllIdle))];
    var s := Scanned(inputs);
    assert s == [Initial, RemoteLoading, RemoteLoading, SourceLoading, Presented] by {
      assert s[1] == Step(s[0], inputs[0]) == RemoteLoading;
      assert s[2] == Step(s[1], inputs[1]) == RemoteLoading;
      assert s[3] == Step(s[2], inputs[2]) == SourceLoading;
      assert s[4] == Step(s[3], inputs[3]) == Presented;
    }
    DistinctOfRefresh();
  }

  lemma DistinctOfRefresh()
    ensures DistinctUntilChanged([Initial, RemoteLoading, RemoteLoading, SourceLoading, Presented])
            == [Initial, RemoteLoading, SourceLoading, Presented]
  {
    DistinctAfterInitial();
    assert [Initial, RemoteLoading, RemoteLoading, SourceLoading, Presented][1..]
           == [RemoteLoading, RemoteLoading, SourceLoading, Presented];
  }

  /** The refresh trace after its first state: the repeated REMOTE_LOADING is dropped. */
  lemma DistinctAfterInitial()
    ensures DistinctFrom(Some(Initial), [RemoteLoading, RemoteLoading, SourceLoading, Presented])
            == [RemoteLoading, SourceLoading, Presented]
  {
    DistinctAfterRemoteLoading();
    assert [RemoteLoading, RemoteLoading, SourceLoading, Presented][1..]
           == [RemoteLoading, SourceLoading, Presented];
    assert [RemoteLoading, SourceLoading, Presented][1..] == [SourceLoading, Presented];
  }

  /** The last two states of the refresh trace both pass. */
  lemma DistinctAfterRemoteLoading()
    ensures DistinctFrom(Some(RemoteLoading), [SourceLoading, Presented]) == [SourceLoading, Presented]
  {
    assert [SourceLoading, Presented][1..] == [Presented];
    assert DistinctFrom(Some(SourceLoading), [Presented]) == [Presented];
  }
}
