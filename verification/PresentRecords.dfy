/** What events enter about a present, how it is found by that, and what is left when it is taken back. */
module PresentRecords {
  import opened Wrappers
  import opened RingIndex
  import opened PresentSpec
  import opened PresentInv
  import opened PresentEvents
  import opened PresentKeys
  import opened PresentOutcomes
  import opened PresentProofs
  import opened PresentCourse

  // ---------------------------------------------------------------------------------------------
  // A new present

  /** Nothing is known of a new present but where and when it started and what was announced for it. */
  lemma NewPresentExactly(serial: nat, start: nat, pid: nat, tid: nat, swapChain: nat, runtime: Runtime, announced: Option<Announced>)
    ensures var p := NewPresent(serial, start, pid, tid, swapChain, runtime, announced);
            && p.start == start && p.pid == pid && p.tid == tid && p.swapChain == swapChain && p.runtime == runtime
            && p.timeInPresent == 0 && p.finalState == ResultUnknown && p.mode == ModeUnknown && p.dependents == [] && p.keys == NO_KEYS
            && !p.completed && !p.lost && !p.waitingForPresentStop && !p.waitingForFlipFrameType && !p.doneWaitingForFlipFrameType
            && (match announced
                case None => p.frameId == serial && p.displayed == [] && !p.waitingForFrameId
                case Some(a) => p.frameId == a.frameId && p.displayed == [Shown(a.frameType, 0)] && p.waitingForFrameId)
  {
  }

  /** It takes the next slot, and the slots are used in turn; it is found at its start among those of its process. */
  lemma TrackExactly(s: State, id: Id, p: Present)
    requires s.nextFree < |s.ix.tracked| && (p.pid in s.ix.ordered ==> p.start !in s.ix.ordered[p.pid])
    ensures var s' := Track(s, id, p);
            && |s'.ix.tracked| == |s.ix.tracked| && s'.ix.tracked[s.nextFree] == Some(id)
            && (forall i :: 0 <= i < |s.ix.tracked| && i != s.nextFree ==> s'.ix.tracked[i] == s.ix.tracked[i])
            && s'.nextFree == (s.nextFree + 1) % |s.ix.tracked|
            && id in s'.presents && s'.presents[id] == p.(keys := p.keys.(ringIndex := Some(s.nextFree)))
            && (forall a :: a in s.presents && a != id ==> a in s'.presents && s'.presents[a] == s.presents[a])
            && p.pid in s'.ix.ordered && p.start in s'.ix.ordered[p.pid] && s'.ix.ordered[p.pid][p.start] == id
            && (forall pid, k :: pid in s.ix.ordered && k in s.ix.ordered[pid] ==>
                  pid in s'.ix.ordered && k in s'.ix.ordered[pid] && s'.ix.ordered[pid][k] == s.ix.ordered[pid][k])
            && s'.ix.byThread == s.ix.byThread && s'.ring == s.ring && s'.log == s.log
  {
    WrapIsModulo(s.nextFree, 1, |s.ix.tracked|);
  }

  /** A present that is not tracked any more has no key but that of the driver's thread; all else that is known of it stays. */
  lemma UntrackedExactly(s: State, id: Id)
    requires id in s.presents && RingIndexOk(s, id)
    ensures var s', p := StopTracking(s, id), s.presents[id];
            && s'.presents.Keys == s.presents.Keys && (forall a :: a in s.presents && a != id ==> s'.presents[a] == s.presents[a])
            && s'.presents[id].(keys := p.keys) == p
            && (var k := s'.presents[id].keys;
                && k.ringIndex == None && k.submitSequence == k.dxgkToken == k.dxgkTokenData == k.dxgkContext == k.hwnd == 0
                && k.win32K.luid == 0 && k.driverTid == p.keys.driverTid)
            && s'.ring == s.ring && s'.log == s.log
  {
    hide StopTrackingIx;
  }

  /** A thread leads to the present that was set first, until it is forgotten. */
  lemma ThreadExactly(s: State, t: nat, id: Id)
    ensures var u := SetThread(s, t, id);
            && t in u.ix.byThread && u.ix.byThread[t] == (if t in s.ix.byThread then s.ix.byThread[t] else id)
            && (forall k :: k != t ==> (k in u.ix.byThread <==> k in s.ix.byThread)
                                       && (k in s.ix.byThread ==> u.ix.byThread[k] == s.ix.byThread[k]))
            && ForgetThread(u, t).ix.byThread == s.ix.byThread - {t}
            && (t !in s.ix.byThread ==> ForgetThread(u, t) == s)
  {
    assert ForgetThread(SetThread(s, t, id), t).ix.byThread == s.ix.byThread - {t};
    if t !in s.ix.byThread {
      assert s.ix.byThread - {t} == s.ix.byThread;
    }
  }

  /** The driver may have deferred what only the runtime has seen. */
  lemma UndrivenExactly(s: State, id: Id, token: Win32KToken, t: nat, mode: PresentMode)
    requires id in s.presents && Undriven(s.presents[id])
    ensures !Undriven(TakeWin32K(s, id, token).presents[id]) && !Undriven(SeeDxgkPresent(s, id).presents[id])
    ensures !Undriven(Drive(s, id, t).presents[id]) <==> t != 0
    ensures Undriven(s.presents[id].(mode := mode)) <==> mode == ModeUnknown
  {
    SeenDriven(s, id, token);
    DrivenBy(s, id, t);
  }

  lemma DrivenBy(s: State, id: Id, t: nat)
    requires id in s.presents && Undriven(s.presents[id])
    ensures !Undriven(Drive(s, id, t).presents[id]) <==> t != 0
  {
  }

  lemma SeenDriven(s: State, id: Id, token: Win32KToken)
    requires id in s.presents
    ensures !Undriven(TakeWin32K(s, id, token).presents[id]) && !Undriven(SeeDxgkPresent(s, id).presents[id])
  {
  }

  // ---------------------------------------------------------------------------------------------
  // Tokens

  /** A Win32K token leads to its present, which is composed, until it is dropped; nothing else is left of it. */
  lemma Win32KRoundTrip(s: State, id: Id, token: Win32KToken)
    requires id in s.presents && token !in s.ix.byWin32K && s.presents[id].keys.win32K == NO_TOKEN
    ensures var t := TakeWin32K(s, id, token);
            && token in t.ix.byWin32K && t.ix.byWin32K[token] == id && id in t.presents
            && t.presents[id].keys == s.presents[id].keys.(win32K := token)
            && (forall k :: k in s.ix.byWin32K ==> k in t.ix.byWin32K && t.ix.byWin32K[k] == s.ix.byWin32K[k])
            && DropWin32K(t, id, token)
               == With(s, id, s.presents[id].(mode := ComposedFlip, evidence := s.presents[id].evidence.(seenWin32KEvents := true)))
  {
    Win32KUndone(s, id, token);
    hide DropWin32K;
  }

  lemma Win32KUndone(s: State, id: Id, token: Win32KToken)
    requires id in s.presents && token !in s.ix.byWin32K && s.presents[id].keys.win32K == NO_TOKEN
    ensures id in TakeWin32K(s, id, token).presents
    ensures DropWin32K(TakeWin32K(s, id, token), id, token)
            == With(s, id, s.presents[id].(mode := ComposedFlip, evidence := s.presents[id].evidence.(seenWin32KEvents := true)))
  {
    assert TakeWin32K(s, id, token).ix.byWin32K - {token} == s.ix.byWin32K;
    var p := s.presents[id].(mode := ComposedFlip, evidence := s.presents[id].evidence.(seenWin32KEvents := true));
    KeysUndone(p, token);
    PutTwice(s.presents, id, p.(keys := p.keys.(win32K := token)), p);
  }

  lemma KeysUndone(p: Present, token: Win32KToken)
    requires p.keys.win32K == NO_TOKEN
    ensures WithKeys(p.(keys := p.keys.(win32K := token)), p.keys.(win32K := token).(win32K := NO_TOKEN)) == p
  {
  }

  lemma PutTwice(P: Presents, id: Id, p: Present, q: Present)
    ensures P[id := p][id := q] == P[id := q]
  {
  }

  /** A history token leads to its present until it is forgotten; the present remembers it. */
  lemma DxgkTokenRoundTrip(s: State, id: Id, token: nat)
    requires id in s.presents && token !in s.ix.byDxgkToken
    ensures var t := EnterDxgkToken(NoteDxgkToken(s, id, token), id, token);
            && token in t.ix.byDxgkToken && t.ix.byDxgkToken[token] == id && id in t.presents
            && t.presents == s.presents[id := s.presents[id].(keys := s.presents[id].keys.(dxgkToken := token))]
            && (forall k :: k in s.ix.byDxgkToken ==> k in t.ix.byDxgkToken && t.ix.byDxgkToken[k] == s.ix.byDxgkToken[k])
            && ForgetDxgkToken(t, token) == s.(presents := t.presents)
  {
    assert s.ix.byDxgkToken[token := id] - {token} == s.ix.byDxgkToken;
  }

  /** Token data leads to its present until a flip chain names it; nothing is left of it. */
  lemma TokenDataRoundTrip(s: State, id: Id, data: nat)
    requires id in s.presents && data !in s.ix.byDxgkTokenData && s.presents[id].keys.dxgkTokenData == 0
    ensures var t := TakeTokenData(s, id, data);
            && data in t.ix.byDxgkTokenData && t.ix.byDxgkTokenData[data] == id && id in t.presents
            && t.presents[id].keys == s.presents[id].keys.(dxgkTokenData := data)
            && (forall k :: k in s.ix.byDxgkTokenData ==> k in t.ix.byDxgkTokenData && t.ix.byDxgkTokenData[k] == s.ix.byDxgkTokenData[k])
            && DropTokenData(t, id, data) == s
  {
    TokenDataUndone(s, id, data);
    hide DropTokenData;
  }

  lemma TokenDataUndone(s: State, id: Id, data: nat)
    requires id in s.presents && data !in s.ix.byDxgkTokenData && s.presents[id].keys.dxgkTokenData == 0
    ensures id in TakeTokenData(s, id, data).presents && DropTokenData(TakeTokenData(s, id, data), id, data) == s
  {
    var t := TakeTokenData(s, id, data);
    assert t.ix.byDxgkTokenData - {data} == s.ix.byDxgkTokenData;
    DataUndone(s.presents[id], data);
    PutTwice(s.presents, id, t.presents[id], s.presents[id]);
  }

  lemma DataUndone(p: Present, data: nat)
    requires p.keys.dxgkTokenData == 0
    ensures WithKeys(WithKeys(p, p.keys.(dxgkTokenData := data)), p.keys.(dxgkTokenData := data).(dxgkTokenData := 0)) == p
  {
  }

  // ---------------------------------------------------------------------------------------------
  // Submissions

  /** A submission is found by its number and context; only a blt on Windows 7 is found by the context alone, too. */
  lemma SubmitExactly(s: State, id: Id, sequence: nat, context: nat, win7: bool)
    requires id in s.presents
    ensures var t := Submit(s, id, sequence, context, win7);
            && sequence in t.ix.bySubmit && context in t.ix.bySubmit[sequence] && t.ix.bySubmit[sequence][context] == id
            && (forall c :: c != context ==> (c in t.ix.bySubmit[sequence] <==> sequence in s.ix.bySubmit && c in s.ix.bySubmit[sequence]))
            && (forall c :: c != context && c in t.ix.bySubmit[sequence] ==>
                  t.ix.bySubmit[sequence][c] == s.ix.bySubmit[sequence][c])
            && (forall q :: q != sequence ==> (q in t.ix.bySubmit <==> q in s.ix.bySubmit)
                                              && (q in s.ix.bySubmit ==> t.ix.bySubmit[q] == s.ix.bySubmit[q]))
            && id in t.presents && t.presents[id].keys.submitSequence == sequence
            && (if win7 && s.presents[id].mode == HardwareLegacyCopyToFrontBuffer then
                  && context in t.ix.byDxgkContext && t.ix.byDxgkContext[context] == id && t.presents[id].keys.dxgkContext == context
                else t.ix.byDxgkContext == s.ix.byDxgkContext && t.presents[id].keys.dxgkContext == s.presents[id].keys.dxgkContext)
  {
  }

  /** Withdrawing the only submission under a number leaves nothing of it but the outcome. */
  lemma WithdrawRoundTrip(s: State, id: Id, sequence: nat, context: nat, outcome: PresentResult)
    requires id in s.presents && sequence !in s.ix.bySubmit && sequence != 0 && s.presents[id].keys.submitSequence == 0
    ensures var t := Submit(s, id, sequence, context, false);
            id in t.presents && Withdraw(t, id, outcome) == With(s, id, s.presents[id].(finalState := outcome))
  {
    hide EraseSubmit, EnterSubmit;
    SubmitUndone(s.ix.bySubmit, id, sequence, context);
    SequenceUndone(s.presents[id].keys, sequence);
  }

  lemma SubmitUndone(bySubmit: map<nat, map<nat, Id>>, id: Id, sequence: nat, context: nat)
    requires sequence !in bySubmit && sequence != 0
    ensures EraseSubmit(EnterSubmit(bySubmit, id, sequence, context), id, sequence) == bySubmit
  {
    assert EnterSubmit(bySubmit, id, sequence, context)[sequence] == map[context := id];
    assert Others(map[context := id], id) == map[];
    assert EnterSubmit(bySubmit, id, sequence, context) - {sequence} == bySubmit;
  }

  lemma SequenceUndone(k: Keys, sequence: nat)
    ensures k.submitSequence == 0 ==> k.(submitSequence := sequence, dxgkContext := k.dxgkContext).(submitSequence := 0) == k
  {
  }

  /** Closing a context takes back that it leads to a present, and nothing else. */
  lemma CloseContextExactly(s: State, id: Id, context: nat)
    requires id in s.presents
    ensures var t := CloseContext(s, id, context);
            && (s.presents[id].keys.dxgkContext == 0 ==> t == s)
            && (s.presents[id].keys.dxgkContext != 0 ==>
                  && context !in t.ix.byDxgkContext && id in t.presents && t.presents[id].keys.dxgkContext == 0
                  && (forall k :: k != context ==> (k in t.ix.byDxgkContext <==> k in s.ix.byDxgkContext)
                                                   && (k in s.ix.byDxgkContext ==> t.ix.byDxgkContext[k] == s.ix.byDxgkContext[k]))
                  && t.presents[id].(keys := s.presents[id].keys) == s.presents[id]
                  && (forall a :: a in s.presents && a != id ==> a in t.presents && t.presents[a] == s.presents[a]))
  {
  }

  // ---------------------------------------------------------------------------------------------
  // Composition

  /** A dependent that takes over the outcome of a frame also waits for flip frame types as the frame does. */
  lemma DependentWaitsAlike(P: Presents, id: Id, i: nat)
    requires DependentsIn(P, id) && !P[id].lost && i < |P[id].dependents| && RepeatFree(P[id].dependents)
    ensures var deps, R := P[id].dependents, Decided(P, id);
            var p := P[deps[i]];
            && deps[i] in R
            && (!p.completed && p.finalState != Discarded
                && !(InComposition(p.mode)
                     && exists j :: i < j < |deps| && Shows(P[deps[j]], p.keys.hwnd)) ==>
                  && R[deps[i]].waitingForFlipFrameType == P[id].waitingForFlipFrameType
                  && R[deps[i]].doneWaitingForFlipFrameType == P[id].doneWaitingForFlipFrameType)
            && (p.completed ==> R[deps[i]] == p)
  {
    hide Shows, Inherit;
    var deps := P[id].dependents;
    PropagateAt(P, deps, {}, P[id], i);
    SeenBehindExact(P, deps, i, {}, P[deps[i]].keys.hwnd);
    InheritsWaits(P[deps[i]], P[id]);
  }

  lemma InheritsWaits(p: Present, parent: Present)
    ensures Inherit(p, parent).waitingForFlipFrameType == parent.waitingForFlipFrameType
    ensures Inherit(p, parent).doneWaitingForFlipFrameType == parent.doneWaitingForFlipFrameType
  {
  }

  /** A frame of the compositor has exactly the dependents that waited for it. */
  lemma ComposeExactly(s: State, id: Id, deps: seq<Id>)
    requires id in s.presents
    ensures var t := Compose(s, id, deps);
            && id in t.presents && t.presents[id].dependents == deps
            && t.presents[id].(dependents := s.presents[id].dependents) == s.presents[id]
            && t.presents.Keys == s.presents.Keys && forall a :: a in s.presents && a != id ==> t.presents[a] == s.presents[a]
  {
  }

  // ---------------------------------------------------------------------------------------------
  // The ring

  /** A full ring takes the newcomer unless that is lost and the head is not. */
  lemma InsertDecides(r: Ring, P: Presents, id: Id, cfg: Config)
    requires 0 < cfg.capacity && r.ready <= |r.queue| <= cfg.capacity && id in P && id !in r.queue && forall q :: q in r.queue ==> q in P
    ensures var r' := Insert(r, P, id, cfg);
            var full := |r.queue| == cfg.capacity;
            var delivers := full && !cfg.realtime && !cfg.disableBackpressure && r.ready > 0;
            && (id in r'.queue <==> !full || delivers || P[r.queue[0]].lost || !P[id].lost)
            && (id !in r'.queue ==> r' == r)
            && (delivers ==>
                  r'.queue == r.queue[r.ready..] + [id] && r'.ready == 0 && r'.overflowed == r.overflowed
                  && Deliveries(r'.removed) == Deliveries(r.removed) + r.queue[..r.ready])
            && (!full ==> r' == r.(queue := r.queue + [id]))
            && (full && !delivers && id in r'.queue ==>
                  r'.queue == r.queue[1..] + [id] && r'.overflowed == r.overflowed + 1 && |r'.removed| == |r.removed| + 1
                  && r'.removed[|r.removed|].Evicted? && r'.removed[|r.removed|].id == r.queue[0]
                  && r'.ready == (if r.ready == 0 then 0 else r.ready - 1))
  {
    if |r.queue| == cfg.capacity && Blocks(r, cfg) {
      DeliveriesAdded(r.removed, r.queue[..r.ready]);
    }
  }

  lemma {:induction false} DeliveriesAdded(removed: seq<Removal>, ids: seq<Id>)
    ensures Deliveries(removed + Delivery(ids)) == Deliveries(removed) + ids
  {
    if ids == [] {
      assert removed + Delivery(ids) == removed;
    } else {
      var n := |ids| - 1;
      DeliveriesAdded(removed, ids[..n]);
      assert removed + Delivery(ids) == (removed + Delivery(ids[..n])) + [Delivered(ids[n])];
      assert ids == ids[..n] + [ids[n]];
    }
  }
}
