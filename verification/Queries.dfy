/** The SELECT statements of the reconciling processes: what each result is, and that it exists. */
module Queries {
  import opened Types
  import opened Lifecycle
  import opened Invariant
  import opened Preservation
  import opened Theorems

  /** The committed row of `a` with nonce `n` whose dispatch says SUCCESS. */
  predicate IsAnchor(s: State, o: nat, a: Address, n: nat) {
    o in s.otx && At(s.otx[o], a, n) && StatusesOf(s, o) == [SUCCESS]
  }

  const TERMINAL: set<Status> := {SUCCESS, REVERTED, EXTERNAL_DISPATCH}

  /** WHERE public_key = a AND (nonce >= from OR status NOT IN (terminal)); the command-line tool has
      only the nonce condition. */
  predicate Listed(s: State, o: nat, a: Address, from: nat, alsoOpen: bool) {
    && o in s.otx && s.otx[o].account == a
    && (s.otx[o].nonce >= from || (alsoOpen && exists st :: st in StatusesOf(s, o) && st !in TERMINAL))
  }

  /** An ORDER BY nonce result for `Listed`. */
  ghost predicate IsListing(s: State, rows: seq<OtxRow>, a: Address, from: nat, alsoOpen: bool) {
    && (forall i :: 0 <= i < |rows| ==> Listed(s, rows[i].id, a, from, alsoOpen) && s.otx[rows[i].id] == rows[i])
    && (forall i, j :: 0 <= i < j < |rows| ==> rows[i].nonce < rows[j].nonce)
    && (forall o :: Listed(s, o, a, from, alsoOpen) ==> s.otx[o] in rows)
  }

  /** Transactions signed for a client, which the service does not unlock. */
  const CLIENT_TYPES: set<OtxType> := {GENERIC_SIGN, OTHER_MANUAL}

  /** An otx the unlockers look for: open, of the service's own types, and left alone for long enough. */
  predicate IsStuck(s: State, o: nat, aged: set<nat>) {
    o in s.otx && s.otx[o].kind !in CLIENT_TYPES && o in aged && exists st :: st in StatusesOf(s, o) && st !in TERMINAL
  }

  /** An otx the health check looks at: neither settled nor still PENDING. */
  predicate IsFailed(s: State, o: nat) {
    o in s.otx && s.otx[o].kind !in CLIENT_TYPES
      && exists st :: st in StatusesOf(s, o) && st !in {SUCCESS, REVERTED, PENDING}
  }

  function StuckIds(s: State, aged: set<nat>): set<nat> {
    set o | o in s.otx && IsStuck(s, o, aged)
  }

  function FailedIds(s: State): set<nat> {
    set o | o in s.otx && IsFailed(s, o)
  }

  function Before(ids: set<nat>, id: nat): set<nat> {
    set o | o in ids && o < id
  }

  /** ORDER BY id LIMIT 100: an otx is on the page when fewer than 100 others come before it. */
  predicate OnPage(ids: set<nat>, o: nat) {
    o in ids && |Before(ids, o)| < 100
  }

  ghost predicate IsPage(s: State, ids: set<nat>, rows: seq<OtxRow>) {
    && (forall i, j :: 0 <= i < j < |rows| ==> rows[i].id < rows[j].id)
    && (forall row :: row in rows ==> OnPage(ids, row.id) && row.id in s.otx && s.otx[row.id] == row)
    && (forall o :: OnPage(ids, o) ==> o in s.otx && s.otx[o] in rows)
  }

  function AffectedAccounts(rows: seq<OtxRow>): set<Address> {
    set row | row in rows :: row.account
  }

  lemma PageAccounts(s: State, aged: set<nat>, rows: seq<OtxRow>)
    requires IsPage(s, StuckIds(s, aged), rows)
    ensures forall o :: OnPage(StuckIds(s, aged), o) ==> o in s.otx && s.otx[o].account in AffectedAccounts(rows)
    ensures forall a :: a in AffectedAccounts(rows) ==> exists o ::
              OnPage(StuckIds(s, aged), o) && o in s.otx && s.otx[o].account == a
  {
    hide OnPage, StuckIds;
    forall a | a in AffectedAccounts(rows)
      ensures exists o :: OnPage(StuckIds(s, aged), o) && o in s.otx && s.otx[o].account == a {
      var row :| row in rows && row.account == a;
      assert OnPage(StuckIds(s, aged), row.id);
    }
  }

  lemma BeforeNext(ids: set<nat>, id: nat)
    ensures Before(ids, id + 1) == Before(ids, id) + (if id in ids then {id} else {})
    ensures id !in Before(ids, id)
  {
  }

  method SelectPage(s: State, ids: set<nat>) returns (rows: seq<OtxRow>)
    requires Inv(s) && ids <= s.otx.Keys
    ensures IsPage(s, ids, rows)
  {
    hide Inv, Before;
    rows := [];
    assert Before(ids, 0) == {} by { NoneBeforeZero(ids); }
    for id: nat := 0 to s.idSeq
      invariant |rows| == if |Before(ids, id)| < 100 then |Before(ids, id)| else 100
      invariant forall i :: 0 <= i < |rows| ==>
                  rows[i].id < id && OnPage(ids, rows[i].id) && rows[i].id in s.otx && s.otx[rows[i].id] == rows[i]
      invariant forall i, j :: 0 <= i < j < |rows| ==> rows[i].id < rows[j].id
      invariant forall o: nat :: o < id && OnPage(ids, o) ==> o in s.otx && s.otx[o] in rows
    {
      BeforeNext(ids, id);
      if id in ids && |rows| < 100 {
        IdOf(s, id);
        rows := rows + [s.otx[id]];
      }
    }
    IdsBelowSequence(s);
  }

  lemma NoneBeforeZero(ids: set<nat>)
    ensures Before(ids, 0) == {}
  {
  }

  lemma IdsBelowSequence(s: State)
    requires Inv(s)
    ensures forall o :: o in s.otx ==> o < s.idSeq
  {
    hide GapFree, RowsOk, SentOk, ChainOk, StatusOk, JobsOk, NewKeysUnused, LiveTxOk, Separate;
  }

  method Select(s: State, a: Address, from: nat, alsoOpen: bool) returns (rows: seq<OtxRow>)
    requires Inv(s)
    ensures IsListing(s, rows, a, from, alsoOpen)
  {
    hide Inv, Listed;
    var top := if a in s.next then s.next[a] else 0;
    rows := [];
    for n := 0 to top
      invariant forall i :: 0 <= i < |rows| ==>
                  Listed(s, rows[i].id, a, from, alsoOpen) && rows[i].id in s.otx && s.otx[rows[i].id] == rows[i]
                    && rows[i].nonce < n
      invariant forall i, j :: 0 <= i < j < |rows| ==> rows[i].nonce < rows[j].nonce
      invariant forall o :: o in s.otx && Listed(s, o, a, from, alsoOpen) && s.otx[o].nonce < n ==> s.otx[o] in rows
    {
      RowAt(s, a, n);
      var o :| o in s.otx && At(s.otx[o], a, n);
      IdOf(s, o);
      RowAtIsOnly(s, a, n, o);
      if Listed(s, o, a, from, alsoOpen) {
        rows := rows + [s.otx[o]];
      }
      ListedIsOwn(s, a, from, alsoOpen);
    }
    ListedIsOwn(s, a, from, alsoOpen);
    NoRowAbove(s, a);
  }

  lemma ListedIsOwn(s: State, a: Address, from: nat, alsoOpen: bool)
    ensures forall o :: Listed(s, o, a, from, alsoOpen) ==> o in s.otx && s.otx[o].account == a
  {
  }

  lemma RowAt(s: State, a: Address, n: nat)
    requires Inv(s) && a in s.next && n < s.next[a]
    ensures exists o :: o in s.otx && At(s.otx[o], a, n)
  {
    hide LiveOk, RowsOk, SentOk, ChainOk, StatusOk, JobsOk, NewKeysUnused;
    assert Filled(s.otx, a, n);
  }

  lemma IdOf(s: State, o: nat)
    requires Inv(s) && o in s.otx
    ensures s.otx[o].id == o
  {
    CurrentVersionFact(s, o);
  }

  lemma RowAtIsOnly(s: State, a: Address, n: nat, o: nat)
    requires Inv(s) && o in s.otx && At(s.otx[o], a, n)
    ensures forall p :: p in s.otx && At(s.otx[p], a, n) ==> p == o
  {
    hide Inv;
    forall p | p in s.otx && At(s.otx[p], a, n) ensures p == o { OneRowPerNonce(s, p, o); }
  }

  lemma NoRowAbove(s: State, a: Address)
    requires Inv(s)
    ensures forall o :: o in s.otx && s.otx[o].account == a ==> a in s.next && s.otx[o].nonce < s.next[a]
  {
    hide LiveOk, RowsOk, SentOk, ChainOk, StatusOk, JobsOk, NewKeysUnused, Filled;
  }
}
