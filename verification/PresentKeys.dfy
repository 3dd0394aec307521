/** The events that give a present a key of some index, or take it away, and that they keep the invariants. */
module PresentKeys {
  import opened Wrappers
  import opened PresentSpec
  import opened PresentInv
  import opened PresentEvents
  import PresentSteps

  function WithKeys(p: Present, k: Keys): Present {
    p.(keys := k)
  }

  // ---------------------------------------------------------------------------------------------
  // One index at a time

  lemma KeyedAdd<K(!new)>(P: Presents, id: Id, p: Present, index: map<K, Id>, key: Keys -> K, k: K)
    requires KeyedBy(P, index, key) && id in P && key(P[id].keys) !in index && key(p.keys) == k
    ensures KeyedBy(P[id := p], index[k := id], key)
  {
  }

  lemma KeyedDrop<K(!new)>(P: Presents, id: Id, p: Present, index: map<K, Id>, key: Keys -> K, k: K)
    requires KeyedBy(P, index, key) && id in P && key(P[id].keys) == k
    ensures KeyedBy(P[id := p], index - {k}, key)
  {
  }

  /** The keys that decide a present's place in the tracked ring, among threads and among submissions. */
  predicate SamePlace(k: Keys, l: Keys) {
    l.ringIndex == k.ringIndex && l.driverTid == k.driverTid && l.submitSequence == k.submitSequence
  }

  lemma PlaceKept(P: Presents, ix: Indexes, id: Id, p: Present)
    requires IxOk(P, ix) && id in P && p.tid == P[id].tid && SamePlace(P[id].keys, p.keys)
    ensures TrackedOk(P[id := p], ix.tracked) && ThreadsOk(P[id := p], ix.byThread) && SubmitsOk(P[id := p], ix.bySubmit)
  {
  }

  /** A record changes and keeps all its keys but the window. */
  lemma WindowIx(P: Presents, ix: Indexes, id: Id, p: Present)
    requires IxOk(P, ix) && id in P && p.tid == P[id].tid && p.keys == P[id].keys.(hwnd := p.keys.hwnd)
    ensures IxOk(P[id := p], ix)
  {
    hide TrackedOk, ThreadsOk, SubmitsOk, SubmitsOnce, KeyedBy;
    PlaceKept(P, ix, id, p);
    KeyedSame(P, id, p, ix.byWin32K, (k: Keys) => k.win32K);
    KeyedSame(P, id, p, ix.byDxgkTokenData, (k: Keys) => k.dxgkTokenData);
    KeyedSame(P, id, p, ix.byDxgkContext, (k: Keys) => k.dxgkContext);
  }

  // ---------------------------------------------------------------------------------------------
  // Tokens

  /** The present is seen by Win32K for the first time. */
  function TakeWin32K(s: State, id: Id, token: Win32KToken): State
    requires id in s.presents
  {
    var p := s.presents[id];
    With(s, id, p.(mode := ComposedFlip, evidence := p.evidence.(seenWin32KEvents := true), keys := p.keys.(win32K := token)))
      .(ix := s.ix.(byWin32K := s.ix.byWin32K[token := id]))
  }

  lemma TakeWin32KSteady(s: State, id: Id, token: Win32KToken, dwm: nat, shaped: bool)
    requires Steady(s, dwm, shaped) && id in s.presents && token.luid != 0 && !s.presents[id].evidence.seenWin32KEvents
    ensures Steady(TakeWin32K(s, id, token), dwm, shaped) && Continues(s, TakeWin32K(s, id, token))
  {
    var s' := TakeWin32K(s, id, token);
    assert Orderly(s.presents[id]);
    Win32KIx(s.presents, s.ix, id, s'.presents[id], token);
    RecordSteady(s, id, s'.presents[id], s'.ix, dwm, shaped);
    hide Steady, Continues;
    assert With(s, id, s'.presents[id]).(ix := s'.ix) == s';
  }

  lemma Win32KIx(P: Presents, ix: Indexes, id: Id, p: Present, token: Win32KToken)
    requires IxOk(P, ix) && id in P && P[id].keys.win32K.luid == 0 && token.luid != 0
    requires p.tid == P[id].tid && p.keys == P[id].keys.(win32K := token)
    ensures IxOk(P[id := p], ix.(byWin32K := ix.byWin32K[token := id]))
  {
    hide TrackedOk, ThreadsOk, SubmitsOk, SubmitsOnce, KeyedBy;
    PlaceKept(P, ix, id, p);
    KeyedAdd(P, id, p, ix.byWin32K, (k: Keys) => k.win32K, token);
    KeyedSame(P, id, p, ix.byDxgkTokenData, (k: Keys) => k.dxgkTokenData);
    KeyedSame(P, id, p, ix.byDxgkContext, (k: Keys) => k.dxgkContext);
  }

  /** Win32K discards the token: it leads to the present no more. */
  function DropWin32K(s: State, id: Id, token: Win32KToken): State
    requires id in s.presents
  {
    With(s, id, WithKeys(s.presents[id], s.presents[id].keys.(win32K := NO_TOKEN)))
      .(ix := s.ix.(byWin32K := s.ix.byWin32K - {token}))
  }

  lemma DropWin32KSteady(s: State, token: Win32KToken, dwm: nat, shaped: bool)
    requires Steady(s, dwm, shaped) && token in s.ix.byWin32K
    ensures s.ix.byWin32K[token] in s.presents
    ensures var s' := DropWin32K(s, s.ix.byWin32K[token], token); Steady(s', dwm, shaped) && Continues(s, s')
  {
    assert KeyedBy(s.presents, s.ix.byWin32K, (k: Keys) => k.win32K);
    var id := s.ix.byWin32K[token];
    var s' := DropWin32K(s, id, token);
    assert Orderly(s.presents[id]);
    DropWin32KIx(s.presents, s.ix, id, s'.presents[id], token);
    RecordSteady(s, id, s'.presents[id], s'.ix, dwm, shaped);
    hide Steady, Continues;
    assert With(s, id, s'.presents[id]).(ix := s'.ix) == s';
  }

  lemma DropWin32KIx(P: Presents, ix: Indexes, id: Id, p: Present, token: Win32KToken)
    requires IxOk(P, ix) && id in P && P[id].keys.win32K == token
    requires p.tid == P[id].tid && p.keys == P[id].keys.(win32K := NO_TOKEN)
    ensures IxOk(P[id := p], ix.(byWin32K := ix.byWin32K - {token}))
  {
    hide TrackedOk, ThreadsOk, SubmitsOk, SubmitsOnce, KeyedBy;
    PlaceKept(P, ix, id, p);
    KeyedDrop(P, id, p, ix.byWin32K, (k: Keys) => k.win32K, token);
    KeyedSame(P, id, p, ix.byDxgkTokenData, (k: Keys) => k.dxgkTokenData);
    KeyedSame(P, id, p, ix.byDxgkContext, (k: Keys) => k.dxgkContext);
  }

  /** The kernel gives the present a history token; it has none yet. */
  function NoteDxgkToken(s: State, id: Id, token: nat): State
    requires id in s.presents
  {
    With(s, id, WithKeys(s.presents[id], s.presents[id].keys.(dxgkToken := token)))
  }

  lemma NoteDxgkTokenSteady(s: State, id: Id, token: nat, dwm: nat, shaped: bool)
    requires Steady(s, dwm, shaped) && id in s.presents && s.presents[id].keys.dxgkToken == 0 && token != 0
    ensures Steady(NoteDxgkToken(s, id, token), dwm, shaped) && Continues(s, NoteDxgkToken(s, id, token))
  {
    var s' := NoteDxgkToken(s, id, token);
    assert Orderly(s.presents[id]);
    NoteIx(s.presents, s.ix, id, s'.presents[id], token);
    RecordSteady(s, id, s'.presents[id], s.ix, dwm, shaped);
    hide Steady, Continues;
    assert With(s, id, s'.presents[id]).(ix := s.ix) == s';
  }

  lemma NoteIx(P: Presents, ix: Indexes, id: Id, p: Present, token: nat)
    requires IxOk(P, ix) && id in P && P[id].keys.dxgkToken == 0
    requires p.tid == P[id].tid && p.keys == P[id].keys.(dxgkToken := token)
    ensures IxOk(P[id := p], ix)
  {
    hide TrackedOk, ThreadsOk, SubmitsOk, SubmitsOnce, KeyedBy;
    PlaceKept(P, ix, id, p);
    KeyedSame(P, id, p, ix.byWin32K, (k: Keys) => k.win32K);
    KeyedSame(P, id, p, ix.byDxgkTokenData, (k: Keys) => k.dxgkTokenData);
    KeyedSame(P, id, p, ix.byDxgkContext, (k: Keys) => k.dxgkContext);
  }

  function EnterDxgkToken(s: State, id: Id, token: nat): State {
    s.(ix := s.ix.(byDxgkToken := s.ix.byDxgkToken[token := id]))
  }

  /** The present carries the token that is entered for it, unless losing the previous holder completed it. */
  lemma EnterDxgkTokenSteady(s: State, id: Id, token: nat, dwm: nat, shaped: bool)
    requires Steady(s, dwm, shaped) && id in s.presents && token != 0
    requires s.presents[id].keys.dxgkToken == token || s.presents[id].completed
    ensures Steady(EnterDxgkToken(s, id, token), dwm, shaped) && Continues(s, EnterDxgkToken(s, id, token))
  {
    hide Core, Shape, ChainOrder, AllOrderly;
    TokenEntered(s, id, token);
    TokensAside(s, s.ix.byDxgkToken[token := id]);
  }

  lemma TokenEntered(s: State, id: Id, token: nat)
    requires Core(s, {}) && id in s.presents && token != 0
    requires s.presents[id].keys.dxgkToken == token || s.presents[id].completed
    ensures var index := s.ix.byDxgkToken[token := id]; TokensOk(s.presents, index, {}) && 0 !in index
  {
    hide Distinct, DependentsKnown, Retired, OrderedInv, LogExact, LostFirst, RingInv, TrackedOk, ThreadsOk, SubmitsOk, SubmitsOnce, KeyedBy;
  }

  /** The index of history tokens changes. */
  lemma TokensAside(s: State, index: map<nat, Id>)
    requires Core(s, {}) && TokensOk(s.presents, index, {}) && 0 !in index
    ensures Core(s.(ix := s.ix.(byDxgkToken := index)), {})
  {
    hide Distinct, DependentsKnown, Retired, TokensOk, Keyed, Covers, OnlyPending, LogExact, LostFirst, ReadyOk, OneWaiting,
      Fifo, Fair, TrackedOk, ThreadsOk, SubmitsOk, SubmitsOnce, KeyedBy;
  }

  /** The token is handed to the compositor: it is forgotten, but the present remembers it. */
  function ForgetDxgkToken(s: State, token: nat): State {
    s.(ix := s.ix.(byDxgkToken := s.ix.byDxgkToken - {token}))
  }

  lemma ForgetDxgkTokenSteady(s: State, token: nat, dwm: nat, shaped: bool)
    requires Steady(s, dwm, shaped)
    ensures Steady(ForgetDxgkToken(s, token), dwm, shaped) && Continues(s, ForgetDxgkToken(s, token))
  {
    hide Core, Shape, ChainOrder, AllOrderly;
    TokenForgotten(s, token);
    TokensAside(s, s.ix.byDxgkToken - {token});
  }

  lemma TokenForgotten(s: State, token: nat)
    requires Core(s, {})
    ensures var index := s.ix.byDxgkToken - {token}; TokensOk(s.presents, index, {}) && 0 !in index
  {
    hide Distinct, DependentsKnown, Retired, OrderedInv, LogExact, LostFirst, RingInv, TrackedOk, ThreadsOk, SubmitsOk, SubmitsOnce, KeyedBy;
  }

  /** A redirected present is known by token data, too. */
  function TakeTokenData(s: State, id: Id, data: nat): State
    requires id in s.presents
  {
    With(s, id, WithKeys(s.presents[id], s.presents[id].keys.(dxgkTokenData := data)))
      .(ix := s.ix.(byDxgkTokenData := s.ix.byDxgkTokenData[data := id]))
  }

  lemma TakeTokenDataSteady(s: State, id: Id, data: nat, dwm: nat, shaped: bool)
    requires Steady(s, dwm, shaped) && id in s.presents && data != 0
    requires s.presents[id].keys.dxgkToken != 0 && s.presents[id].keys.dxgkTokenData == 0
    ensures Steady(TakeTokenData(s, id, data), dwm, shaped) && Continues(s, TakeTokenData(s, id, data))
  {
    var s' := TakeTokenData(s, id, data);
    assert Orderly(s.presents[id]);
    TokenDataIx(s.presents, s.ix, id, s'.presents[id], data);
    RecordSteady(s, id, s'.presents[id], s'.ix, dwm, shaped);
    hide Steady, Continues;
    assert With(s, id, s'.presents[id]).(ix := s'.ix) == s';
  }

  lemma TokenDataIx(P: Presents, ix: Indexes, id: Id, p: Present, data: nat)
    requires IxOk(P, ix) && id in P && P[id].keys.dxgkTokenData == 0 && data != 0
    requires p.tid == P[id].tid && p.keys == P[id].keys.(dxgkTokenData := data)
    ensures IxOk(P[id := p], ix.(byDxgkTokenData := ix.byDxgkTokenData[data := id]))
  {
    hide TrackedOk, ThreadsOk, SubmitsOk, SubmitsOnce, KeyedBy;
    PlaceKept(P, ix, id, p);
    KeyedSame(P, id, p, ix.byWin32K, (k: Keys) => k.win32K);
    KeyedAdd(P, id, p, ix.byDxgkTokenData, (k: Keys) => k.dxgkTokenData, data);
    KeyedSame(P, id, p, ix.byDxgkContext, (k: Keys) => k.dxgkContext);
  }

  /** The compositor's flip chain names the data: it leads to the present no more. */
  function DropTokenData(s: State, id: Id, data: nat): State
    requires id in s.presents
  {
    With(s, id, WithKeys(s.presents[id], s.presents[id].keys.(dxgkTokenData := 0)))
      .(ix := s.ix.(byDxgkTokenData := s.ix.byDxgkTokenData - {data}))
  }

  lemma DropTokenDataSteady(s: State, data: nat, dwm: nat, shaped: bool)
    requires Steady(s, dwm, shaped) && data in s.ix.byDxgkTokenData
    ensures s.ix.byDxgkTokenData[data] in s.presents
    ensures var s' := DropTokenData(s, s.ix.byDxgkTokenData[data], data); Steady(s', dwm, shaped) && Continues(s, s')
  {
    assert KeyedBy(s.presents, s.ix.byDxgkTokenData, (k: Keys) => k.dxgkTokenData);
    var id := s.ix.byDxgkTokenData[data];
    var s' := DropTokenData(s, id, data);
    assert Orderly(s.presents[id]);
    DropDataIx(s.presents, s.ix, id, s'.presents[id], data);
    RecordSteady(s, id, s'.presents[id], s'.ix, dwm, shaped);
    hide Steady, Continues;
    assert With(s, id, s'.presents[id]).(ix := s'.ix) == s';
  }

  lemma DropDataIx(P: Presents, ix: Indexes, id: Id, p: Present, data: nat)
    requires IxOk(P, ix) && id in P && P[id].keys.dxgkTokenData == data
    requires p.tid == P[id].tid && p.keys == P[id].keys.(dxgkTokenData := 0)
    ensures IxOk(P[id := p], ix.(byDxgkTokenData := ix.byDxgkTokenData - {data}))
  {
    hide TrackedOk, ThreadsOk, SubmitsOk, SubmitsOnce, KeyedBy;
    PlaceKept(P, ix, id, p);
    KeyedSame(P, id, p, ix.byWin32K, (k: Keys) => k.win32K);
    KeyedDrop(P, id, p, ix.byDxgkTokenData, (k: Keys) => k.dxgkTokenData, data);
    KeyedSame(P, id, p, ix.byDxgkContext, (k: Keys) => k.dxgkContext);
  }

  // ---------------------------------------------------------------------------------------------
  // Submissions

  function EnterSubmit(bySubmit: map<nat, map<nat, Id>>, id: Id, sequence: nat, context: nat): map<nat, map<nat, Id>> {
    bySubmit[sequence := (if sequence in bySubmit then bySubmit[sequence] else map[])[context := id]]
  }

  /** The present's packet is submitted; on Windows 7 a blt to the front buffer is also known by its context. */
  function Submit(s: State, id: Id, sequence: nat, context: nat, win7: bool): State
    requires id in s.presents
  {
    var p := s.presents[id];
    var blt := win7 && p.mode == HardwareLegacyCopyToFrontBuffer;
    With(s, id, WithKeys(p, p.keys.(submitSequence := sequence, dxgkContext := if blt then context else p.keys.dxgkContext)))
      .(ix := s.ix.(bySubmit := EnterSubmit(s.ix.bySubmit, id, sequence, context),
                    byDxgkContext := if blt then s.ix.byDxgkContext[context := id] else s.ix.byDxgkContext))
  }

  lemma SubmitSteady(s: State, id: Id, sequence: nat, context: nat, win7: bool, dwm: nat, shaped: bool)
    requires Steady(s, dwm, shaped) && id in s.presents && s.presents[id].keys.submitSequence == 0
    requires sequence != 0 && context != 0
    ensures Steady(Submit(s, id, sequence, context, win7), dwm, shaped)
    ensures Continues(s, Submit(s, id, sequence, context, win7))
  {
    var s' := Submit(s, id, sequence, context, win7);
    assert Orderly(s.presents[id]);
    hide EnterSubmit;
    SubmitIx(s.presents, s.ix, id, s'.presents[id], sequence, context);
    RecordSteady(s, id, s'.presents[id], s'.ix, dwm, shaped);
    hide Steady, Continues;
    assert With(s, id, s'.presents[id]).(ix := s'.ix) == s';
  }

  lemma SubmitIx(P: Presents, ix: Indexes, id: Id, p: Present, sequence: nat, context: nat)
    requires IxOk(P, ix) && id in P && P[id].keys.submitSequence == P[id].keys.dxgkContext == 0
    requires sequence != 0 && context != 0 && p.tid == P[id].tid
    requires p.keys == P[id].keys.(submitSequence := sequence, dxgkContext := p.keys.dxgkContext)
    requires p.keys.dxgkContext == 0 || p.keys.dxgkContext == context
    ensures IxOk(P[id := p], ix.(bySubmit := EnterSubmit(ix.bySubmit, id, sequence, context),
                                 byDxgkContext := if p.keys.dxgkContext == context then ix.byDxgkContext[context := id]
                                                  else ix.byDxgkContext))
  {
    hide TrackedOk, ThreadsOk, SubmitsOk, SubmitsOnce, KeyedBy, EnterSubmit;
    SubmitPlace(P, ix, id, p, sequence);
    SubmitsAdd(P, ix.bySubmit, id, p, sequence, context);
    KeyedSame(P, id, p, ix.byWin32K, (k: Keys) => k.win32K);
    KeyedSame(P, id, p, ix.byDxgkTokenData, (k: Keys) => k.dxgkTokenData);
    if p.keys.dxgkContext == context {
      KeyedAdd(P, id, p, ix.byDxgkContext, (k: Keys) => k.dxgkContext, context);
    } else {
      KeyedSame(P, id, p, ix.byDxgkContext, (k: Keys) => k.dxgkContext);
    }
  }

  lemma SubmitPlace(P: Presents, ix: Indexes, id: Id, p: Present, sequence: nat)
    requires IxOk(P, ix) && id in P && p.tid == P[id].tid
    requires p.keys == P[id].keys.(submitSequence := sequence, dxgkContext := p.keys.dxgkContext)
    ensures TrackedOk(P[id := p], ix.tracked) && ThreadsOk(P[id := p], ix.byThread)
  {
  }

  lemma SubmitsAdd(P: Presents, bySubmit: map<nat, map<nat, Id>>, id: Id, p: Present, sequence: nat, context: nat)
    requires SubmitsOk(P, bySubmit) && SubmitsOnce(bySubmit) && id in P && P[id].keys.submitSequence == 0
    requires sequence != 0 && p.keys.submitSequence == sequence
    ensures SubmitsOk(P[id := p], EnterSubmit(bySubmit, id, sequence, context))
    ensures SubmitsOnce(EnterSubmit(bySubmit, id, sequence, context))
  {
    hide SubmitsOnce;
    assert forall q, c :: q in bySubmit && c in bySubmit[q] ==> bySubmit[q][c] != id;
    SubmitsOnceAdd(bySubmit, id, sequence, context);
    SubmitsOkAdd(P, bySubmit, id, p, sequence, context);
    hide SubmitsOk;
  }

  lemma SubmitsOkAdd(P: Presents, bySubmit: map<nat, map<nat, Id>>, id: Id, p: Present, sequence: nat, context: nat)
    requires SubmitsOk(P, bySubmit) && id in P && P[id].keys.submitSequence == 0
    requires sequence != 0 && p.keys.submitSequence == sequence
    ensures SubmitsOk(P[id := p], EnterSubmit(bySubmit, id, sequence, context))
  {
    var m := EnterSubmit(bySubmit, id, sequence, context);
    assert context in m[sequence];
    forall q, c | q in m && c in m[q]
      ensures m[q][c] in P && P[id := p][m[q][c]].keys.submitSequence == q
    {
      if q == sequence && c == context {
      } else {
        assert q in bySubmit && c in bySubmit[q] && m[q][c] == bySubmit[q][c];
      }
    }
  }

  lemma SubmitsOnceAdd(bySubmit: map<nat, map<nat, Id>>, id: Id, sequence: nat, context: nat)
    requires SubmitsOnce(bySubmit) && forall q, c :: q in bySubmit && c in bySubmit[q] ==> bySubmit[q][c] != id
    ensures SubmitsOnce(EnterSubmit(bySubmit, id, sequence, context))
  {
    var m := EnterSubmit(bySubmit, id, sequence, context);
    assert forall q :: q in m && q != sequence ==> q in bySubmit && m[q] == bySubmit[q];
    assert forall c :: c in m[sequence] && c != context ==>
        sequence in bySubmit && c in bySubmit[sequence] && m[sequence][c] == bySubmit[sequence][c];
  }

  /** The submission is withdrawn from the index, and the present may count as discarded. */
  function Withdraw(s: State, id: Id, outcome: PresentResult): State
    requires id in s.presents
  {
    With(s, id, s.presents[id].(finalState := outcome, keys := s.presents[id].keys.(submitSequence := 0)))
      .(ix := s.ix.(bySubmit := EraseSubmit(s.ix.bySubmit, id, s.presents[id].keys.submitSequence)))
  }

  lemma WithdrawSteady(s: State, id: Id, outcome: PresentResult, dwm: nat, shaped: bool)
    requires Steady(s, dwm, shaped) && id in s.presents && s.presents[id].keys.dxgkContext == 0
    ensures Steady(Withdraw(s, id, outcome), dwm, shaped) && Continues(s, Withdraw(s, id, outcome))
  {
    var s' := Withdraw(s, id, outcome);
    assert Orderly(s.presents[id]);
    hide EraseSubmit;
    WithdrawIx(s.presents, s.ix, id, s'.presents[id]);
    RecordSteady(s, id, s'.presents[id], s'.ix, dwm, shaped);
    hide Steady, Continues;
    assert With(s, id, s'.presents[id]).(ix := s'.ix) == s';
  }

  lemma WithdrawIx(P: Presents, ix: Indexes, id: Id, p: Present)
    requires IxOk(P, ix) && id in P && p.tid == P[id].tid && p.keys == P[id].keys.(submitSequence := 0)
    ensures IxOk(P[id := p], ix.(bySubmit := EraseSubmit(ix.bySubmit, id, P[id].keys.submitSequence)))
  {
    hide TrackedOk, ThreadsOk, SubmitsOk, SubmitsOnce, KeyedBy, EraseSubmit;
    WithdrawPlace(P, ix, id, p);
    PresentSteps.StopTrackingSubmits(P, ix.bySubmit, id, p);
    PresentSteps.EraseSubmitOnce(ix.bySubmit, id, P[id].keys.submitSequence);
    KeyedSame(P, id, p, ix.byWin32K, (k: Keys) => k.win32K);
    KeyedSame(P, id, p, ix.byDxgkTokenData, (k: Keys) => k.dxgkTokenData);
    KeyedSame(P, id, p, ix.byDxgkContext, (k: Keys) => k.dxgkContext);
  }

  lemma WithdrawPlace(P: Presents, ix: Indexes, id: Id, p: Present)
    requires IxOk(P, ix) && id in P && p.tid == P[id].tid && p.keys == P[id].keys.(submitSequence := 0)
    ensures TrackedOk(P[id := p], ix.tracked) && ThreadsOk(P[id := p], ix.byThread)
  {
  }

  /** A context's blt to the front buffer is over: its key is forgotten. */
  function CloseContext(s: State, id: Id, context: nat): State
    requires id in s.presents
  {
    if s.presents[id].keys.dxgkContext != 0 then
      With(s, id, WithKeys(s.presents[id], s.presents[id].keys.(dxgkContext := 0)))
        .(ix := s.ix.(byDxgkContext := s.ix.byDxgkContext - {context}))
    else s
  }

  lemma CloseContextSteady(s: State, id: Id, context: nat, dwm: nat, shaped: bool)
    requires Steady(s, dwm, shaped) && id in s.presents
    requires s.presents[id].keys.dxgkContext == 0 || s.presents[id].keys.dxgkContext == context
    ensures Steady(CloseContext(s, id, context), dwm, shaped) && Continues(s, CloseContext(s, id, context))
  {
    var s' := CloseContext(s, id, context);
    assert Orderly(s.presents[id]);
    if s.presents[id].keys.dxgkContext != 0 {
      CloseIx(s.presents, s.ix, id, s'.presents[id], context);
      RecordSteady(s, id, s'.presents[id], s'.ix, dwm, shaped);
      hide Steady, Continues;
      assert With(s, id, s'.presents[id]).(ix := s'.ix) == s';
    } else {
      ContinuesRefl(s);
    }
  }

  lemma CloseIx(P: Presents, ix: Indexes, id: Id, p: Present, context: nat)
    requires IxOk(P, ix) && id in P && P[id].keys.dxgkContext == context
    requires p.tid == P[id].tid && p.keys == P[id].keys.(dxgkContext := 0)
    ensures IxOk(P[id := p], ix.(byDxgkContext := ix.byDxgkContext - {context}))
  {
    hide TrackedOk, ThreadsOk, SubmitsOk, SubmitsOnce, KeyedBy;
    PlaceKept(P, ix, id, p);
    KeyedSame(P, id, p, ix.byWin32K, (k: Keys) => k.win32K);
    KeyedSame(P, id, p, ix.byDxgkTokenData, (k: Keys) => k.dxgkTokenData);
    KeyedDrop(P, id, p, ix.byDxgkContext, (k: Keys) => k.dxgkContext, context);
  }

  // ---------------------------------------------------------------------------------------------
  // Deductions

  /** What an event may deduce about a present without completing it. */
  predicate Observes(p: Present, q: Present) {
    && q == p.(runtime := q.runtime, timeInPresent := q.timeInPresent, gpu := q.gpu, mode := q.mode, evidence := q.evidence,
               finalState := q.finalState, displayed := q.displayed, keys := q.keys)
    && q.keys == p.keys.(hwnd := q.keys.hwnd)
    && (p.evidence.seenWin32KEvents ==> q.evidence.seenWin32KEvents)
  }

  lemma ObserveSteady(s: State, id: Id, p: Present, dwm: nat, shaped: bool)
    requires Steady(s, dwm, shaped) && id in s.presents && Observes(s.presents[id], p)
    ensures Steady(With(s, id, p), dwm, shaped) && Continues(s, With(s, id, p))
  {
    assert Orderly(s.presents[id]);
    WindowIx(s.presents, s.ix, id, p);
    RecordSteady(s, id, p, s.ix, dwm, shaped);
    hide Steady, Continues;
    assert With(s, id, p).(ix := s.ix) == With(s, id, p);
  }
}
