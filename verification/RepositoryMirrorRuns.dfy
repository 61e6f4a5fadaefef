/** What any sequence of connections and reconciliations does to the mirror. */
module RepositoryMirrorRuns {
  import opened Wrappers
  import opened RepositoryMirror

  /** The ACTIVE ids are the listing; every other repository of the installation is REVOKED. */
  lemma {:induction false} ActiveIsListed(a: Repositories, b: Repositories, organization: int, installation: int,
      listing: seq<Descriptor>, externalId: string)
    requires Reconciled(a, b, organization, installation, listing)
    ensures Reaches(b, organization, installation, externalId) <==> Lists(listing, externalId)
    ensures forall id :: id in b && Of(b[id], organization, installation) && b[id].externalId == externalId ==>
              b[id].active == Lists(listing, externalId)
  {
    hide OthersKept, Unique;
    forall id | id in b && Of(b[id], organization, installation)
      ensures b[id].active <==> Lists(listing, b[id].externalId)
    {
      RowFollowsListing(a, b, organization, installation, listing, id);
    }
    if Lists(listing, externalId) {
      var i :| 0 <= i < |listing| && listing[i].externalId == externalId;
      assert Holds(b, Keyed(organization, installation, listing[i]));
      var id :| id in b && SameKey(b[id], Keyed(organization, installation, listing[i]));
      assert b[id].active;
    }
  }

  /** An ACTIVE repository has the details of its last entry in the listing; a REVOKED one keeps those it had. */
  lemma DetailsFollowListing(
    a: Repositories, b: Repositories, organization: int, installation: int, listing: seq<Descriptor>, id: int)
    requires Reconciled(a, b, organization, installation, listing)
    requires id in b && Of(b[id], organization, installation)
    ensures forall i :: 0 <= i < |listing| && listing[i].externalId == b[id].externalId
                        && (forall j :: i < j < |listing| ==> listing[j].externalId != b[id].externalId) ==>
              b[id].active && b[id].details == listing[i].details
    ensures !b[id].active ==> id in a && b[id] == a[id].(active := false)
  {
    hide Unique, Holds;
    RowFollowsListing(a, b, organization, installation, listing, id);
    forall i | 0 <= i < |listing| && listing[i].externalId == b[id].externalId
               && (forall j :: i < j < |listing| ==> listing[j].externalId != b[id].externalId)
      ensures LastOf(listing, b[id].externalId) == Some(listing[i].details)
    {
      LastEntry(listing, i);
    }
  }

  lemma {:induction false} LastEntry(listing: seq<Descriptor>, i: nat)
    requires i < |listing| && forall j :: i < j < |listing| ==> listing[j].externalId != listing[i].externalId
    ensures LastOf(listing, listing[i].externalId) == Some(listing[i].details)
  {
    if i < |listing| - 1 {
      LastEntry(listing[..|listing| - 1], i);
    }
  }

  lemma RowFollowsListing(a: Repositories, b: Repositories, organization: int, installation: int,
      listing: seq<Descriptor>, id: int)
    requires Reconciled(a, b, organization, installation, listing)
    requires id in b && Of(b[id], organization, installation)
    ensures b[id] == Settled(b[id], listing)
    ensures b[id].active <==> Lists(listing, b[id].externalId)
  {
    hide Unique, Holds;
    if id in a {
      assert b[id] == Settled(a[id], listing);
    }
    assert LastOf(listing, b[id].externalId).Some? <==> Lists(listing, b[id].externalId);
  }

  /** Reconciling again with an unchanged listing changes nothing. */
  lemma Idempotent(a: Repositories, b: Repositories, c: Repositories, organization: int, installation: int,
      listing: seq<Descriptor>)
    requires Reconciled(a, b, organization, installation, listing)
             && Reconciled(b, c, organization, installation, listing)
    ensures c == b
  {
    hide LastOf, Unique;
    forall id | id in b
      ensures id in c && c[id] == b[id]
    {
      if Of(b[id], organization, installation) {
        RowFollowsListing(a, b, organization, installation, listing, id);
      }
    }
    forall id | id in c
      ensures id in b
    {
      if id !in b {
        NothingNew(a, b, c, organization, installation, listing, id);
      }
    }
  }

  lemma HeldIfListed(a: Repositories, b: Repositories, listing: seq<Descriptor>, r: Repository)
    requires Reconciled(a, b, r.organization, r.installation, listing) && Lists(listing, r.externalId)
    ensures Holds(b, r)
  {
    hide Unique, Settled;
    var i :| 0 <= i < |listing| && listing[i].externalId == r.externalId;
    var key := Keyed(r.organization, r.installation, listing[i]);
    assert Holds(b, key);
    var k :| k in b && SameKey(b[k], key);
    assert SameKey(b[k], r);
  }

  lemma NothingNew(a: Repositories, b: Repositories, c: Repositories, organization: int, installation: int,
      listing: seq<Descriptor>, id: int)
    requires Reconciled(a, b, organization, installation, listing)
             && Reconciled(b, c, organization, installation, listing)
    requires id in c
    ensures id in b
  {
    hide Unique, Settled, Holds;
    if Of(c[id], organization, installation) {
      RowFollowsListing(b, c, organization, installation, listing, id);
      if c[id].active {
        HeldIfListed(a, b, listing, c[id]);
      }
    }
  }

  predicate Distinct(listing: seq<Descriptor>) {
    forall i, j :: 0 <= i < j < |listing| ==> listing[i].externalId != listing[j].externalId
  }

  ghost predicate NoneOf(rs: Repositories, organization: int, installation: int) {
    forall id :: id in rs ==> !Of(rs[id], organization, installation)
  }

  /** No row of the table has the key of a listed one. */
  ghost predicate NoneHeld(rs: Repositories, organization: int, installation: int, listing: seq<Descriptor>) {
    forall i :: 0 <= i < |listing| ==> !Holds(rs, Keyed(organization, installation, listing[i]))
  }

  ghost predicate Inserted(
    a: Repositories, b: Repositories, organization: int, installation: int, listing: seq<Descriptor>, newIds: seq<int>)
    requires |newIds| == |listing|
  {
    && (forall id :: id in b <==> id in a || id in newIds)
    && (forall id :: id in a ==> b[id] == a[id])
    && (forall i :: 0 <= i < |listing| ==>
          newIds[i] in b && b[newIds[i]] == Keyed(organization, installation, listing[i]))
  }

  ghost predicate MayInsert(a: Repositories, organization: int, installation: int, listing: seq<Descriptor>,
      newIds: seq<int>) {
    NewIds(a, newIds) && Distinct(listing) && NoneHeld(a, organization, installation, listing)
  }

  /** Exactly when the table's constraints let a listing in, and what it then holds. */
  lemma {:induction false} ConnectedIff(
    a: Repositories, organization: int, installation: int, listing: seq<Descriptor>, newIds: seq<int>)
    requires |newIds| == |listing|
    ensures Connected(a, organization, installation, listing, newIds).Some? <==>
              MayInsert(a, organization, installation, listing, newIds)
    ensures Connected(a, organization, installation, listing, newIds).Some? ==>
              Inserted(a, Connected(a, organization, installation, listing, newIds).value, organization, installation,
                  listing, newIds)
  {
    if listing != [] {
      var n := |listing| - 1;
      var before := Connected(a, organization, installation, listing[..n], newIds[..n]);
      ConnectedIff(a, organization, installation, listing[..n], newIds[..n]);
      hide Connected, MayInsert, Inserted, Holds;
      MayInsertPrefix(a, organization, installation, listing, newIds);
      ConnectedLast(a, organization, installation, listing, newIds);
      if before.Some? {
        InsertLast(a, before.value, organization, installation, listing, newIds);
      }
    }
  }

  lemma ConnectedLast(a: Repositories, organization: int, installation: int, listing: seq<Descriptor>, newIds: seq<int>)
    requires |newIds| == |listing| > 0
    ensures var n := |listing| - 1;
            Connected(a, organization, installation, listing, newIds) ==
              match Connected(a, organization, installation, listing[..n], newIds[..n])
              case None => None
              case Some(b) =>
                var repository := Keyed(organization, installation, listing[n]);
                if newIds[n] in b || Holds(b, repository) then None else Some(b[newIds[n] := repository])
  {
  }

  lemma MayInsertPrefix(a: Repositories, organization: int, installation: int, listing: seq<Descriptor>,
      newIds: seq<int>)
    requires |newIds| == |listing| > 0
    ensures var n := |listing| - 1;
            MayInsert(a, organization, installation, listing, newIds) ==>
              MayInsert(a, organization, installation, listing[..n], newIds[..n])
  {
    hide Holds;
  }

  lemma MayInsertLast(a: Repositories, organization: int, installation: int, listing: seq<Descriptor>, newIds: seq<int>)
    requires |newIds| == |listing| > 0
    requires var n := |listing| - 1; MayInsert(a, organization, installation, listing[..n], newIds[..n])
    ensures var n := |listing| - 1;
            MayInsert(a, organization, installation, listing, newIds) <==>
              && newIds[n] !in a && newIds[n] !in newIds[..n]
              && !Holds(a, Keyed(organization, installation, listing[n])) && !Lists(listing[..n], listing[n].externalId)
  {
    hide Holds;
    var n := |listing| - 1;
    assert forall i :: 0 <= i < n ==> listing[..n][i] == listing[i] && newIds[..n][i] == newIds[i];
    if newIds[n] in newIds[..n] {
      var i :| 0 <= i < n && newIds[..n][i] == newIds[n];
    }
    if Lists(listing[..n], listing[n].externalId) {
      var i :| 0 <= i < n && listing[..n][i].externalId == listing[n].externalId;
    }
  }

  lemma InsertLast(
    a: Repositories, before: Repositories, organization: int, installation: int, listing: seq<Descriptor>,
    newIds: seq<int>)
    requires |newIds| == |listing| > 0
    requires var n := |listing| - 1;
             && MayInsert(a, organization, installation, listing[..n], newIds[..n])
             && Inserted(a, before, organization, installation, listing[..n], newIds[..n])
    ensures var n := |listing| - 1;
            MayInsert(a, organization, installation, listing, newIds) <==>
              newIds[n] !in before && !Holds(before, Keyed(organization, installation, listing[n]))
    ensures var n := |listing| - 1;
            newIds[n] !in before ==>
              Inserted(a, before[newIds[n] := Keyed(organization, installation, listing[n])],
                       organization, installation, listing, newIds)
  {
    hide Holds, MayInsert;
    var n := |listing| - 1;
    assert newIds == newIds[..n] + [newIds[n]];
    var last: int := newIds[n];
    assert last in before <==> last in a || last in newIds[..n];
    HeldAfter(a, before, organization, installation, listing[..n], newIds[..n],
        Keyed(organization, installation, listing[n]));
    MayInsertLast(a, organization, installation, listing, newIds);
    assert forall i :: 0 <= i < n ==> listing[..n][i] == listing[i] && newIds[..n][i] == newIds[i];
  }

  lemma RowOf(
    a: Repositories, b: Repositories, organization: int, installation: int, listing: seq<Descriptor>,
    newIds: seq<int>, id: int)
    returns (i: nat)
    requires |newIds| == |listing| && Inserted(a, b, organization, installation, listing, newIds)
    requires id in b && id !in a
    ensures i < |listing| && newIds[i] == id && b[id] == Keyed(organization, installation, listing[i])
  {
    assert id in newIds;
    i :| 0 <= i < |newIds| && newIds[i] == id;
  }

  lemma HeldAfter(
    a: Repositories, b: Repositories, organization: int, installation: int, listing: seq<Descriptor>,
    newIds: seq<int>, r: Repository)
    requires |newIds| == |listing| && Inserted(a, b, organization, installation, listing, newIds)
    requires Of(r, organization, installation)
    ensures Holds(b, r) <==> Holds(a, r) || Lists(listing, r.externalId)
  {
    if Holds(a, r) {
      var id :| id in a && SameKey(a[id], r);
      assert id in b && SameKey(b[id], r);
    }
    if Lists(listing, r.externalId) {
      var i :| 0 <= i < |listing| && listing[i].externalId == r.externalId;
      var id: int := newIds[i];
      assert id in b && SameKey(b[id], r);
    }
    if Holds(b, r) {
      var id :| id in b && SameKey(b[id], r);
      if id !in a {
        var i := RowOf(a, b, organization, installation, listing, newIds, id);
        assert listing[i].externalId == r.externalId;
      } else {
        assert SameKey(a[id], r);
      }
    }
  }

  /** `connect` of a new installation succeeds exactly for a listing without duplicates; otherwise it raises and
      changes nothing. */
  lemma ConnectSucceedsIff(
    a: Repositories, organization: int, installation: int, listing: seq<Descriptor>, newIds: seq<int>)
    requires |newIds| == |listing| && NewIds(a, newIds) && NoneOf(a, organization, installation)
    ensures Connected(a, organization, installation, listing, newIds).Some? <==> Distinct(listing)
  {
    ConnectedIff(a, organization, installation, listing, newIds);
  }

  datatype Change =
    | Reconcile(organization: int, installation: int, listing: seq<Descriptor>)
    | Connect(organization: int, installation: int, listing: seq<Descriptor>, newIds: seq<int>)

  ghost predicate Changed(a: Repositories, b: Repositories, c: Change) {
    match c
    case Reconcile(o, i, listing) => Reconciled(a, b, o, i, listing)
    case Connect(o, i, listing, newIds) =>
      |newIds| == |listing| && b == Connected(a, o, i, listing, newIds).GetOr(a)
  }

  /** From an empty table, any connections and reconciliations. */
  ghost predicate History(states: seq<Repositories>, changes: seq<Change>) {
    && |states| == |changes| + 1
    && states[0] == map[]
    && forall i :: 0 <= i < |changes| ==> Changed(states[i], states[i + 1], changes[i])
  }

  lemma InsertedKeepsUnique(
    a: Repositories, b: Repositories, organization: int, installation: int, listing: seq<Descriptor>, newIds: seq<int>)
    requires |newIds| == |listing| && Unique(a)
    requires MayInsert(a, organization, installation, listing, newIds)
    requires Inserted(a, b, organization, installation, listing, newIds)
    ensures Unique(b)
  {
    forall x | x in b && x !in a
      ensures !Holds(a, b[x])
    {
      var i := RowOf(a, b, organization, installation, listing, newIds, x);
    }
    forall x, y | x in b && y in b && SameKey(b[x], b[y])
      ensures x == y
    {
      if x !in a && y !in a {
        var i := RowOf(a, b, organization, installation, listing, newIds, x);
        var j := RowOf(a, b, organization, installation, listing, newIds, y);
        assert listing[i].externalId == listing[j].externalId;
      }
    }
  }

  lemma ChangeKeepsIds(a: Repositories, b: Repositories, c: Change)
    requires Unique(a) && Changed(a, b, c)
    ensures Unique(b)
    ensures forall id :: id in a ==> id in b && SameKey(b[id], a[id])
  {
    match c
    case Reconcile(o, i, listing) =>
      hide Unique, Holds;
    case Connect(o, i, listing, newIds) =>
      hide Unique, Connected, MayInsert;
      ConnectedIff(a, o, i, listing, newIds);
      if b != a {
        InsertedKeepsUnique(a, b, o, i, listing, newIds);
      }
  }

  /** Every mirror there can be is unique, so every reconciliation finds one. */
  lemma {:induction false} AlwaysUnique(states: seq<Repositories>, changes: seq<Change>, n: nat)
    requires History(states, changes) && n < |states|
    ensures Unique(states[n])
  {
    hide Changed;
    if n > 0 {
      AlwaysUnique(states, changes, n - 1);
      ChangeKeepsIds(states[n - 1], states[n], changes[n - 1]);
    }
  }

  /** An external repository keeps its internal id however often it vanishes from the listing and returns. */
  lemma {:induction false} IdsAreStable(states: seq<Repositories>, changes: seq<Change>, from: nat, until: nat)
    requires History(states, changes) && from <= until < |states|
    ensures Unique(states[from]) && Unique(states[until])
    ensures forall id :: id in states[from] ==>
              && id in states[until] && SameKey(states[until][id], states[from][id])
              && forall k :: k in states[until] && SameKey(states[until][k], states[from][id]) ==> k == id
    decreases until
  {
    hide Changed;
    AlwaysUnique(states, changes, from);
    AlwaysUnique(states, changes, until);
    if from < until {
      IdsAreStable(states, changes, from, until - 1);
      ChangeKeepsIds(states[until - 1], states[until], changes[until - 1]);
    }
  }

  ghost predicate SameRows(a: Repositories, b: Repositories, organization: int, installation: int) {
    && (forall id :: id in a && Of(a[id], organization, installation) ==> id in b && b[id] == a[id])
    && (forall id :: id in b && Of(b[id], organization, installation) ==> id in a && b[id] == a[id])
  }

  lemma ChangeKeepsOthers(a: Repositories, b: Repositories, c: Change, organization: int, installation: int)
    requires Changed(a, b, c) && (c.organization != organization || c.installation != installation)
    ensures SameRows(a, b, organization, installation)
  {
    match c
    case Reconcile(o, i, listing) =>
      hide Unique, Holds, Settled;
    case Connect(o, i, listing, newIds) =>
      hide Connected, MayInsert;
      ConnectedIff(a, o, i, listing, newIds);
  }

  lemma {:induction false} RowsKept(
    states: seq<Repositories>, changes: seq<Change>, from: nat, until: nat, organization: int, installation: int)
    requires History(states, changes) && from <= until < |states|
    requires forall i :: from <= i < until ==>
             changes[i].organization != organization || changes[i].installation != installation
    ensures SameRows(states[from], states[until], organization, installation)
  {
    hide Changed;
    if from < until {
      RowsKept(states, changes, from, until - 1, organization, installation);
      ChangeKeepsOthers(states[until - 1], states[until], changes[until - 1], organization, installation);
    }
  }

  /** An installation's mirror shows its own latest listing, whatever happened to others since. */
  lemma LatestListingWins(states: seq<Repositories>, changes: seq<Change>, at: nat, externalId: string)
    requires History(states, changes) && at < |changes| && changes[at].Reconcile?
    requires forall i :: at < i < |changes| ==>
               changes[i].organization != changes[at].organization
                   || changes[i].installation != changes[at].installation
    ensures var c := changes[at];
            Reaches(states[|changes|], c.organization, c.installation, externalId) <==> Lists(c.listing, externalId)
  {
    hide Reconciled;
    var c, settled, last := changes[at], states[at + 1], states[|changes|];
    assert Changed(states[at], settled, c);
    RowsKept(states, changes, at + 1, |changes|, c.organization, c.installation);
    ActiveIsListed(states[at], settled, c.organization, c.installation, c.listing, externalId);
    assert Reaches(settled, c.organization, c.installation, externalId) <==>
        Reaches(last, c.organization, c.installation, externalId);
  }
}
