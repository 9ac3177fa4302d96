/**
 * Audio ducking for SAPI5: the driver hooks `waveOutOpen` and `waveOutClose`
 * in the import table of sapi.dll so that every wave-out device SAPI opens
 * gets an audio ducker, kept in `_duckersByHandle` until the device is
 * closed. `ensureWaveOutHooks` installs the two hooks once per process.
 *
 * The real winmm calls, `AudioDucker.enable()`, `isAudioDuckingSupported()`
 * and the native hooking call are outside this model: their outcomes are
 * parameters (a status code, booleans).
 */
module Ducking {
  import opened Wrappers

  /** An `audioDucking.AudioDucker`, with whether its `enable()` succeeded. */
  datatype Ducker = AudioDucker(enabled: bool)

  /** A `FunctionHooker` over sapi.dll's import of `funcName` from WINMM.dll. */
  datatype Hook = FunctionHooker(importDll: string, funcName: string)

  const OPEN_HOOK := FunctionHooker("WINMM.dll", "waveOutOpen")
  const CLOSE_HOOK := FunctionHooker("WINMM.dll", "waveOutClose")

  /** MMSYSERR_NOERROR. */
  const NO_ERROR := 0

  /** Whether `ensureWaveOutHooks` returned or raised `RuntimeError`. */
  datatype HookOutcome = Returned | RaisedRuntimeError

  /**
   * The registry after the `waveOutOpen` hook: `status` is what the real call
   * returned (or the `winerror` it raised), `handleOut` is None for a null
   * handle pointer and otherwise the handle the call wrote through it.
   */
  function AfterOpen(m: map<int, Ducker>, status: int, handleOut: Option<int>, enabled: bool): map<int, Ducker>
  {
    if status == NO_ERROR && handleOut.Some? then m[handleOut.value := AudioDucker(enabled)] else m
  }

  /** The registry after the `waveOutClose` hook for `handle`. */
  function AfterClose(m: map<int, Ducker>, status: int, handle: int): map<int, Ducker>
  {
    if status == NO_ERROR && handle != 0 then m - {handle} else m
  }

  /** One intercepted call, with the outcome of the real function. */
  datatype WaveOutCall =
    | Opened(status: int, handleOut: Option<int>, enabled: bool)
    | Closed(status: int, handle: int)

  function Apply(m: map<int, Ducker>, call: WaveOutCall): map<int, Ducker>
  {
    match call
    case Opened(status, handleOut, enabled) => AfterOpen(m, status, handleOut, enabled)
    case Closed(status, handle) => AfterClose(m, status, handle)
  }

  /** The registry after a history of intercepted calls. */
  function Replay(m: map<int, Ducker>, calls: seq<WaveOutCall>): map<int, Ducker>
  {
    if calls == [] then m else Apply(Replay(m, calls[..|calls| - 1]), calls[|calls| - 1])
  }

  predicate OpensHandle(call: WaveOutCall, h: int)
  {
    call.Opened? && call.status == NO_ERROR && call.handleOut == Some(h)
  }

  /** A close that removes `h`: only a successful close of a non-zero handle does. */
  predicate ClosesHandle(call: WaveOutCall, h: int)
  {
    call.Closed? && call.status == NO_ERROR && call.handle == h && h != 0
  }

  /**
   * Starting from an empty registry, a handle has a ducker exactly when some
   * successful open yielded it and no successful close of it came later; the
   * ducker is the one made by the last such open. A handle of 0 is never
   * closed, so once opened it keeps its ducker.
   */
  lemma {:induction false} RegistryTracksOpenHandles(calls: seq<WaveOutCall>, h: int)
    ensures h in Replay(map[], calls) <==>
      exists i :: 0 <= i < |calls| && OpensHandle(calls[i], h)
        && forall j :: i < j < |calls| ==> !ClosesHandle(calls[j], h)
    ensures h in Replay(map[], calls) ==>
      exists i :: 0 <= i < |calls| && OpensHandle(calls[i], h)
        && Replay(map[], calls)[h] == AudioDucker(calls[i].enabled)
        && forall j :: i < j < |calls| ==> !OpensHandle(calls[j], h) && !ClosesHandle(calls[j], h)
    ensures h == 0 ==>
      (h in Replay(map[], calls) <==> exists i :: 0 <= i < |calls| && OpensHandle(calls[i], 0))
  {
    if calls != [] {
      var front := calls[..|calls| - 1];
      var last := calls[|calls| - 1];
      RegistryTracksOpenHandles(front, h);
      assert forall i :: 0 <= i < |front| ==> front[i] == calls[i];
      if OpensHandle(last, h) {
        assert OpensHandle(calls[|calls| - 1], h);
      } else if ClosesHandle(last, h) {
        assert h !in Replay(map[], calls);
        forall i | 0 <= i < |calls| && OpensHandle(calls[i], h)
          ensures exists j :: i < j < |calls| && ClosesHandle(calls[j], h)
        {
          assert ClosesHandle(calls[|calls| - 1], h);
        }
      } else {
        if h in Replay(map[], calls) {
          assert Replay(map[], calls)[h] == Replay(map[], front)[h];
        }
      }
    }
  }

  /** Closing a handle a second time is a no-op, whatever the second status. */
  lemma CloseIsIdempotent(m: map<int, Ducker>, h: int, status: int)
    ensures AfterClose(AfterClose(m, NO_ERROR, h), status, h) == AfterClose(m, NO_ERROR, h)
  {
  }

  /** Opening two different handles and closing them in reverse order leaves
      the registry empty. */
  lemma OpenTwoCloseReverse(h1: int, h2: int, e1: bool, e2: bool)
    requires h1 != 0 && h2 != 0 && h1 != h2
    ensures Replay(map[], [Opened(NO_ERROR, Some(h1), e1), Opened(NO_ERROR, Some(h2), e2),
                           Closed(NO_ERROR, h2), Closed(NO_ERROR, h1)]) == map[]
  {
    var calls := [Opened(NO_ERROR, Some(h1), e1), Opened(NO_ERROR, Some(h2), e2),
                  Closed(NO_ERROR, h2), Closed(NO_ERROR, h1)];
    var m1 := map[h1 := AudioDucker(e1)];
    var m2 := m1[h2 := AudioDucker(e2)];
    assert Replay(map[], calls[..1]) == m1 by {
      assert calls[..1][..0] == [];
    }
    assert Replay(map[], calls[..2]) == m2 by {
      assert calls[..2][..1] == calls[..1];
    }
    assert Replay(map[], calls[..3]) == m1 by {
      assert calls[..3][..2] == calls[..2];
      assert m2 - {h2} == m1;
    }
    assert calls[..4][..3] == calls[..3];
    assert calls[..4] == calls;
    assert m1 - {h1} == map[];
  }

  /**
   * `ensureWaveOutHooks` as written: the open hook is recorded as soon as it
   * is installed, so when the close hook then fails, the list keeps the open
   * hook alone, and every later call finds the list non-empty and returns.
   */
  function InstallHooksAsWritten(hooks: seq<Hook>, duckingSupported: bool, openHooked: bool, closeHooked: bool)
    : (HookOutcome, seq<Hook>)
  {
    if hooks != [] || !duckingSupported then (Returned, hooks)
    else if !openHooked then (RaisedRuntimeError, hooks)
    else if !closeHooked then (RaisedRuntimeError, hooks + [OPEN_HOOK])
    else (Returned, hooks + [OPEN_HOOK, CLOSE_HOOK])
  }

  /** The input that shows it: a failed close hook, then a second call with
      everything succeeding, returns normally with `waveOutClose` never hooked. */
  lemma AsWrittenLeavesCloseUnhooked()
    ensures var (o1, h1) := InstallHooksAsWritten([], true, true, false);
      var (o2, h2) := InstallHooksAsWritten(h1, true, true, true);
      o1 == RaisedRuntimeError && o2 == Returned && h2 == [OPEN_HOOK] && CLOSE_HOOK !in h2
  {
  }

  /**
   * `ensureWaveOutHooks` with the two hooks installed all or nothing: when
   * the close hook fails, the open hook is dropped (and so unhooked) before
   * `RuntimeError` propagates.
   */
  function InstallHooks(hooks: seq<Hook>, duckingSupported: bool, openHooked: bool, closeHooked: bool)
    : (HookOutcome, seq<Hook>)
  {
    if hooks != [] || !duckingSupported then (Returned, hooks)
    else if !openHooked || !closeHooked then (RaisedRuntimeError, hooks)
    else (Returned, hooks + [OPEN_HOOK, CLOSE_HOOK])
  }

  /** The hook list only ever holds nothing or both hooks, open first. */
  predicate HooksWellFormed(hooks: seq<Hook>)
  {
    hooks == [] || hooks == [OPEN_HOOK, CLOSE_HOOK]
  }

  /**
   * Installing keeps the hook list all or nothing; it installs exactly the
   * two hooks, open then close, only on an empty list with ducking
   * supported and both hooks succeeding; it raises exactly when an install
   * was attempted and a hook failed; and once installed, a second call is a
   * no-op.
   */
  lemma HooksAllOrNothing(hooks: seq<Hook>, duckingSupported: bool, openHooked: bool, closeHooked: bool)
    requires HooksWellFormed(hooks)
    ensures var (outcome, after) := InstallHooks(hooks, duckingSupported, openHooked, closeHooked);
      && HooksWellFormed(after)
      && (after != hooks <==> hooks == [] && duckingSupported && openHooked && closeHooked)
      && (outcome == RaisedRuntimeError <==> hooks == [] && duckingSupported && !(openHooked && closeHooked))
      && (after != [] ==> forall s, o, c :: InstallHooks(after, s, o, c) == (Returned, after))
  {
  }

  /** The module's globals `_duckersByHandle` and `_waveOutHooks`. */
  class WaveOutHooks {
    var duckersByHandle: map<int, Ducker>
    var waveOutHooks: seq<Hook>

    constructor ()
      ensures duckersByHandle == map[] && waveOutHooks == []
    {
      duckersByHandle := map[];
      waveOutHooks := [];
    }

    /** The `waveOutOpen` hook; `status` is the real call's result and `enableSucceeded` is `d.enable()`. */
    method WaveOutOpen(status: int, handleOut: Option<int>, enableSucceeded: bool) returns (res: int)
      modifies this
      ensures res == status
      ensures status == NO_ERROR && handleOut.Some? ==>
        duckersByHandle == old(duckersByHandle)[handleOut.value := AudioDucker(enableSucceeded)]
      ensures !(status == NO_ERROR && handleOut.Some?) ==> duckersByHandle == old(duckersByHandle)
      ensures duckersByHandle == AfterOpen(old(duckersByHandle), status, handleOut, enableSucceeded)
      ensures waveOutHooks == old(waveOutHooks)
    {
      res := status;
      if res == NO_ERROR && handleOut.Some? {
        var h := handleOut.value;
        var d := AudioDucker(enableSucceeded);
        duckersByHandle := duckersByHandle[h := d];
      }
    }

    /** The `waveOutClose` hook; `status` is the real call's result. */
    method WaveOutClose(status: int, waveOutHandle: int) returns (res: int)
      modifies this
      ensures res == status
      ensures status == NO_ERROR && waveOutHandle != 0 ==>
        duckersByHandle == old(duckersByHandle) - {waveOutHandle}
      ensures !(status == NO_ERROR && waveOutHandle != 0) ==> duckersByHandle == old(duckersByHandle)
      ensures duckersByHandle == AfterClose(old(duckersByHandle), status, waveOutHandle)
      ensures waveOutHooks == old(waveOutHooks)
    {
      res := status;
      if res == NO_ERROR && waveOutHandle != 0 {
        duckersByHandle := duckersByHandle - {waveOutHandle};
      }
    }

    /** `ensureWaveOutHooks`, installing the two hooks all or nothing. */
    method EnsureWaveOutHooks(duckingSupported: bool, openHooked: bool, closeHooked: bool) returns (outcome: HookOutcome)
      modifies this
      ensures (outcome, waveOutHooks) == InstallHooks(old(waveOutHooks), duckingSupported, openHooked, closeHooked)
      ensures duckersByHandle == old(duckersByHandle)
    {
      outcome := Returned;
      if waveOutHooks == [] && duckingSupported {
        if !openHooked {
          return RaisedRuntimeError;
        }
        if !closeHooked {
          return RaisedRuntimeError;
        }
        waveOutHooks := waveOutHooks + [OPEN_HOOK, CLOSE_HOOK];
      }
    }
  }
}
