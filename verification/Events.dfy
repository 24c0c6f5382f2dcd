/** The tracker subscriber: a chain event becomes a status and, for a registration, an active key. */
module Events {
  import opened Types
  import opened Lifecycle
  import opened Invariant
  import opened Preservation
  import opened Growth
  import opened Theorems
  import opened Stability
  import opened World
  import opened Recovery

  /** A decoded event; `registered` is its payload's account when the subject is a custodial registration. */
  datatype Event = Event(txHash: Hash, success: bool, registered: Option<Address>)

  /** The tracker reports mined transactions and their receipts as they are. */
  predicate IsTrue(s: State, e: Event) {
    HashMined(s, e.txHash) && e.success == MinedAt(s, e.txHash).ok
  }

  predicate Stores(s: State, o: nat, h: Hash) {
    o in s.otx && s.otx[o].hash == h
  }

  /** The key an event activates: only a successful registration does. */
  function KeyOf(e: Event): Option<Address> {
    if e.success then e.registered else None
  }

  /** What an event makes of the state: at most one otx takes its status, and at most one key becomes active. */
  ghost predicate EventEffect(s: State, t: State, e: Event) {
    && t == s.(dispatch := t.dispatch, active := t.active)
    && t.dispatch.Keys == s.dispatch.Keys
    && (forall o :: o in s.otx ==>
          StatusesOf(t, o) ==
            if Stores(s, o, e.txHash) then [if e.success then SUCCESS else REVERTED] else StatusesOf(s, o))
    && t.active == if (exists o :: Stores(s, o, e.txHash)) && KeyOf(e).Some? && KeyOf(e).value in s.next
                   then s.active + {KeyOf(e).value} else s.active
  }

  method ProcessEvent(w: World, e: Event) returns (ok: bool, ghost row: Option<OtxRow>)
    requires w.Valid() && IsTrue(w.s, e)
    modifies w
    ensures w.Later(old(w.s), old(w.log))
    ensures row.Some? ==> row.value.hash == e.txHash && row.value in w.s.versions
    ensures w.own == old(w.own) +
                     if row.None? || !ok then []
                     else (if e.success && e.registered.Some? then [Activate(e.registered.value)] else [])
                          + [WriteReceipt(row.value)]
    ensures forall i, k :: |old(w.own)| <= i < |w.own| && w.own[i] == Activate(k) ==>
              e.success && e.registered == Some(k)
    ensures w.quiet ==> ok && EventEffect(old(w.s), w.s, e)
    ensures w.quiet && (exists o :: o in old(w.s).otx && old(w.s).otx[o].hash == e.txHash) ==>
              w.s.active ==
                old(w.s).active
                + if e.success && e.registered.Some? && e.registered.value in old(w.s).next then {e.registered.value}
                  else {}
    ensures w.quiet ==> forall o :: o in old(w.s).otx && old(w.s).otx[o].hash == e.txHash ==>
              StatusesOf(w.s, o) == if e.success then [SUCCESS] else [REVERTED]
  {
    hide Run, Init, Inv, Grows, Next, MinedBy, HashMined, Onward, EventEffect, EventSteps, Reachable;
    row := None;
    ghost var s0 := w.s;
    w.Known();
    var failed, otx := w.ReadByHash(e.txHash);
    if failed {
      return false, row;
    }
    if otx.None? {
      if w.quiet {
        NobodyStores(s0, e);
      }
      return true, row;
    }
    row := otx;
    ghost var s1, log1 := w.s, w.log;
    w.Since(old(w.s), old(w.log));
    CurrentVersionFact(w.s, otx.value.id);
    TrueStays(s0, w.s, e);
    var key := None;
    var status;
    if e.success {
      match e.registered {
        case Some(account) => key := Some(account);
        case None =>
      }
      status := SUCCESS;
    } else {
      status := REVERTED;
    }
    ok := w.SetEventStatus(otx.value, status, key);
    StepsOfEvent(otx.value, key);
    w.StillHeld(s1, log1, otx.value);
    if w.quiet {
      EventRuns(s1, otx.value, key);
      EventDoes(s1, otx.value, e);
      EffectOnFields(s1, w.s, e);
    }
  }

  lemma StepsOfEvent(row: OtxRow, key: Option<Address>)
    ensures EventSteps(row, key) == (if key.Some? then [Activate(key.value)] else []) + [WriteReceipt(row)]
  {
  }

  /** The effect on the event's own fields. */
  lemma EffectOnFields(s: State, t: State, e: Event)
    requires EventEffect(s, t, e)
    ensures (exists o :: o in s.otx && s.otx[o].hash == e.txHash) ==>
              t.active ==
                s.active + if e.success && e.registered.Some? && e.registered.value in s.next then {e.registered.value}
                  else {}
    ensures forall o :: o in s.otx && s.otx[o].hash == e.txHash ==>
              StatusesOf(t, o) == if e.success then [SUCCESS] else [REVERTED]
  {
    hide StatusesOf;
    if o :| o in s.otx && s.otx[o].hash == e.txHash {
      assert Stores(s, o, e.txHash);
    }
  }

  lemma TrueStays(s: State, t: State, e: Event)
    requires Grows(s, t) && IsTrue(s, e)
    ensures IsTrue(t, e)
  {
    hide Grows;
    HashStaysMined(s, t, e.txHash);
  }

  lemma NobodyStores(s: State, e: Event)
    requires forall o :: o in s.otx ==> s.otx[o].hash != e.txHash
    ensures EventEffect(s, s, e)
  {
  }

  lemma Activated(s: State, key: Address)
    ensures Next(s, Activate(key)) == if key in s.next then s.(active := s.active + {key}) else s
  {
  }

  lemma EventDoes(s: State, row: OtxRow, e: Event)
    requires Inv(s) && IsTrue(s, e) && row.id in s.otx && s.otx[row.id] == row && row.hash == e.txHash
    ensures EventEffect(s, Next(if KeyOf(e).Some? then Next(s, Activate(KeyOf(e).value)) else s, WriteReceipt(row)), e)
  {
    var s1 := if KeyOf(e).Some? then Next(s, Activate(KeyOf(e).value)) else s;
    hide Inv, HashMined, MinedBy, Next, Enabled, EventEffect, SetStatus;
    if KeyOf(e).Some? {
      Activated(s, KeyOf(e).value);
      NextKeeps(s, Activate(KeyOf(e).value));
    }
    CurrentVersionFact(s, row.id);
    hide VersionOk;
    SameMined(s, s1, row.hash);
    HeldCanWrite(s1, row);
    ReceiptNext(s1, row);
    forall o ensures Stores(s, o, e.txHash) <==> o == row.id {
      StoredOnce(s, o, row.id, e.txHash);
    }
    EffectIs(s, Next(s1, WriteReceipt(row)), row.id, e);
  }

  lemma EffectIs(s: State, t: State, id: nat, e: Event)
    requires id in s.otx && id in s.dispatch && |s.dispatch[id]| == 1 && forall o :: Stores(s, o, e.txHash) <==> o == id
    requires t == s.(dispatch := SetStatus(s.dispatch, id, if e.success then SUCCESS else REVERTED), active := t.active)
    requires t.active == if KeyOf(e).Some? && KeyOf(e).value in s.next then s.active + {KeyOf(e).value} else s.active
    ensures EventEffect(s, t, e)
  {
    hide Stores;
    var status := if e.success then SUCCESS else REVERTED;
    assert Stores(s, id, e.txHash);
    assert SetStatus(s.dispatch, id, status)[id] == [status];
    forall o | o in s.otx ensures StatusesOf(t, o) == if Stores(s, o, e.txHash) then [status] else StatusesOf(s, o) {
    }
  }

  lemma StoredOnce(s: State, o: nat, p: nat, h: Hash)
    requires Inv(s) && Stores(s, p, h)
    ensures Stores(s, o, h) ==> o == p
  {
    if Stores(s, o, h) {
      CurrentVersionFact(s, o);
      CurrentVersionFact(s, p);
      hide Inv;
      OneRowPerNonce(s, o, p);
    }
  }

  /** Redelivering an event when nothing was written in between changes nothing. */
  lemma RedeliveryIsIdempotent(s: State, t: State, u: State, e: Event)
    requires Inv(s) && Inv(t) && Inv(u) && EventEffect(s, t, e) && EventEffect(t, u, e)
    ensures u == t
  {
    hide Inv;
    forall o ensures Stores(s, o, e.txHash) <==> Stores(t, o, e.txHash) {
    }
    forall o | o in t.dispatch ensures o in u.dispatch && u.dispatch[o] == t.dispatch[o] {
      assert o in t.otx by { JobsAreSingle(t); }
      assert StatusesOf(u, o) == StatusesOf(t, o);
    }
    assert u.dispatch == t.dispatch;
    assert u.active == t.active;
  }
}
