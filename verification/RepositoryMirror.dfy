/** The integrations service's mirror of the repositories that an installation can reach. */
module RepositoryMirror {
  import opened Wrappers
  import opened FiniteSets

  datatype Details = Details(owner: string, name: string, defaultBranch: string, cloneLocator: string, isPrivate: bool)

  datatype Descriptor = Descriptor(externalId: string, details: Details)

  datatype Repository = Repository(organization: int, installation: int, externalId: string, details: Details,
      active: bool)

  type Repositories = map<int, Repository>

  predicate Of(r: Repository, organization: int, installation: int) {
    r.organization == organization && r.installation == installation
  }

  predicate SameKey(r: Repository, s: Repository) {
    Of(r, s.organization, s.installation) && r.externalId == s.externalId
  }

  predicate Holds(rs: Repositories, key: Repository) {
    exists id :: id in rs && SameKey(rs[id], key)
  }

  ghost predicate Unique(rs: Repositories) {
    forall a, b :: a in rs && b in rs && SameKey(rs[a], rs[b]) ==> a == b
  }

  /** What the listing says about an external id; a later entry overrides an earlier one. */
  function LastOf(listing: seq<Descriptor>, externalId: string): (r: Option<Details>)
    ensures r.Some? <==> exists i :: 0 <= i < |listing| && listing[i].externalId == externalId
  {
    if listing == [] then None
    else
      var last := listing[|listing| - 1];
      if last.externalId == externalId then Some(last.details) else LastOf(listing[..|listing| - 1], externalId)
  }

  lemma LastOfNext(listing: seq<Descriptor>, i: nat, externalId: string)
    requires i < |listing|
    ensures LastOf(listing[..i + 1], externalId) ==
              if listing[i].externalId == externalId then Some(listing[i].details) else LastOf(listing[..i], externalId)
  {
    assert listing[..i + 1][..i] == listing[..i];
  }

  /** The repositories of all other installations are the same. */
  ghost predicate OthersKept(a: Repositories, b: Repositories, organization: int, installation: int) {
    && (forall id :: id in a && !Of(a[id], organization, installation) ==> id in b && b[id] == a[id])
    && (forall id :: id in b && !Of(b[id], organization, installation) ==> id in a && b[id] == a[id])
  }

  function Refreshed(r: Repository, listing: seq<Descriptor>): Repository {
    match LastOf(listing, r.externalId)
    case Some(details) => r.(details := details, active := true)
    case None => r
  }

  /** Known repositories keep their ids, and only listed ones are new. */
  ghost predicate Upserted(a: Repositories, b: Repositories, organization: int, installation: int,
      listing: seq<Descriptor>) {
    && Unique(b)
    && OthersKept(a, b, organization, installation)
    && (forall id :: id in a && Of(a[id], organization, installation) ==> id in b && b[id] == Refreshed(a[id], listing))
    && (forall id :: id in b && id !in a ==>
         b[id] == Refreshed(b[id], listing) && LastOf(listing, b[id].externalId).Some?)
    && (forall id :: id in b && id !in a ==> !Holds(a, b[id]))
    && (forall i :: 0 <= i < |listing| ==> Holds(b, Keyed(organization, installation, listing[i])))
  }

  function Keyed(organization: int, installation: int, d: Descriptor): Repository {
    Repository(organization, installation, d.externalId, d.details, true)
  }

  function Settled(r: Repository, listing: seq<Descriptor>): Repository {
    match LastOf(listing, r.externalId)
    case Some(details) => r.(details := details, active := true)
    case None => r.(active := false)
  }

  /** What one reconciliation does to the mirror, for any listing. */
  ghost predicate Reconciled(a: Repositories, b: Repositories, organization: int, installation: int,
      listing: seq<Descriptor>) {
    && Unique(b)
    && OthersKept(a, b, organization, installation)
    && (forall id :: id in a && Of(a[id], organization, installation) ==> id in b && b[id] == Settled(a[id], listing))
    && (forall id :: id in b && id !in a ==> b[id] == Settled(b[id], listing) && b[id].active && !Holds(a, b[id]))
    && (forall i :: 0 <= i < |listing| ==> Holds(b, Keyed(organization, installation, listing[i])))
  }

  predicate Lists(listing: seq<Descriptor>, externalId: string) {
    exists i :: 0 <= i < |listing| && listing[i].externalId == externalId
  }

  predicate Reaches(rs: Repositories, organization: int, installation: int, externalId: string) {
    exists id :: id in rs && Of(rs[id], organization, installation) && rs[id].externalId == externalId && rs[id].active
  }

  /** `connect` inserts row after row; a taken id or key violates a constraint of the table, and nothing is kept. */
  function Connected(a: Repositories, organization: int, installation: int, listing: seq<Descriptor>,
      newIds: seq<int>): Option<Repositories>
    requires |newIds| == |listing|
  {
    if listing == [] then Some(a)
    else
      var n := |listing| - 1;
      match Connected(a, organization, installation, listing[..n], newIds[..n])
      case None => None
      case Some(b) =>
        var repository := Keyed(organization, installation, listing[n]);
        if newIds[n] in b || Holds(b, repository) then None else Some(b[newIds[n] := repository])
  }

  class IntegrationRepository {
    var repositories: Repositories

    method AddRepository(id: int, repository: Repository) returns (ok: bool)
      modifies this
      ensures ok <==> id !in old(repositories) && !Holds(old(repositories), repository)
      ensures ok <==> id !in old(repositories) && forall k :: k in old(repositories) ==>
                        old(repositories)[k].organization != repository.organization
                        || old(repositories)[k].installation != repository.installation
                        || old(repositories)[k].externalId != repository.externalId
      ensures repositories == if ok then old(repositories)[id := repository] else old(repositories)
    {
      ok := id !in repositories && !Holds(repositories, repository);
      if ok {
        repositories := repositories[id := repository];
      }
    }

    /** Deletes a row with the same key, then stores the new one under its own id. */
    method UpsertRepository(id: int, repository: Repository)
      modifies this
      ensures id in repositories && repositories[id] == repository
      ensures forall k :: k in repositories && k != id ==>
              k in old(repositories) && repositories[k] == old(repositories)[k]
      ensures Unique(old(repositories)) ==> forall k :: k in repositories && k != id ==>
              !SameKey(repositories[k], repository)
      ensures forall k :: k in old(repositories) && !SameKey(old(repositories)[k], repository) ==> k in repositories
      ensures forall k :: k in old(repositories) && k !in repositories ==>
                && old(repositories)[k].organization == repository.organization
                && old(repositories)[k].installation == repository.installation
                && old(repositories)[k].externalId == repository.externalId
    {
      if Holds(repositories, repository) {
        var existing :| existing in repositories && SameKey(repositories[existing], repository);
        repositories := map k | k in repositories && k != existing :: repositories[k];
      }
      repositories := repositories[id := repository];
    }

    method RevokeRepositoriesExcept(organization: int, installation: int, activeIds: set<string>)
      modifies this
      ensures repositories.Keys == old(repositories).Keys
      ensures forall k :: k in repositories ==>
                repositories[k] ==
                  if old(repositories)[k].organization == organization
                     && old(repositories)[k].installation == installation
                     && old(repositories)[k].externalId !in activeIds
                  then old(repositories)[k].(active := false) else old(repositories)[k]
    {
      var items := repositories.Keys;
      while |items| > 0
        invariant repositories.Keys == old(repositories).Keys && items <= repositories.Keys
        invariant forall k :: k in repositories ==>
                    repositories[k] ==
                      if k !in items && Of(old(repositories)[k], organization, installation)
                         && old(repositories)[k].externalId !in activeIds
                      then old(repositories)[k].(active := false) else old(repositories)[k]
        decreases |items|
      {
        ghost var some := SomeMember(items);
        var id :| id in items;
        var repository := repositories[id];
        if Of(repository, organization, installation) && repository.externalId !in activeIds {
          repositories := repositories[id := repository.(active := false)];
        }
        items := items - {id};
      }
    }

    /** `reconcile`; `newIds` are the ids that `uuid4` would draw. */
    method Reconcile(organization: int, installation: int, listing: seq<Descriptor>, newIds: seq<int>)
      returns (connected: seq<Repository>)
      requires |newIds| == |listing| && NewIds(repositories, newIds)
      modifies this
      ensures OthersKept(old(repositories), repositories, organization, installation)
      ensures forall k :: k in old(repositories)
                          && (old(repositories)[k].organization != organization
                              || old(repositories)[k].installation != installation) ==>
                k in repositories && repositories[k] == old(repositories)[k]
      ensures forall e :: Reaches(repositories, organization, installation, e) <==> Lists(listing, e)
      ensures Unique(old(repositories)) ==>
              Reconciled(old(repositories), repositories, organization, installation, listing)
      ensures |connected| == |listing|
      ensures forall i :: 0 <= i < |listing| ==>
                connected[i] ==
                  Repository(organization, installation, listing[i].externalId, listing[i].details, true)
    {
      hide Unique, Upserted, Reconciled, NewIds, Holds, Reached, OthersKept, Reaches, Lists;
      connected := [];
      var activeIds: set<string> := {};
      var existing := repositories;
      NothingUpserted(repositories, organization, installation, listing);
      for i := 0 to |listing|
        invariant existing == old(repositories)
        invariant Reached(existing, repositories, organization, installation, listing[..i])
        invariant Unique(existing) ==>
                    Unique(repositories) && Upserted(existing, repositories, organization, installation, listing[..i])
        invariant forall k :: k in repositories ==> k in existing || k in newIds[..i]
        invariant |connected| == i && forall j :: 0 <= j < i ==>
                  connected[j] == Keyed(organization, installation, listing[j])
        invariant forall e :: e in activeIds <==> LastOf(listing[..i], e).Some?
      {
        var descriptor := listing[i];
        activeIds := activeIds + {descriptor.externalId};
        var repository := Keyed(organization, installation, descriptor);
        var id := newIds[i];
        if Holds(existing, repository) {
          id := Previous(existing, repository);
        }
        ghost var before := repositories;
        UpsertRepository(id, repository);
        connected := connected + [repository];
        ReachedNext(existing, before, repositories, organization, installation, listing, newIds, i, id);
        if Unique(existing) {
          UpsertedNext(existing, before, repositories, organization, installation, listing, newIds, i, id);
        }
        forall e
          ensures e in activeIds <==> LastOf(listing[..i + 1], e).Some?
        {
          LastOfNext(listing, i, e);
        }
      }
      assert listing[..|listing|] == listing;
      ghost var upserted := repositories;
      RevokeRepositoriesExcept(organization, installation, activeIds);
      ReachedAfterRevocation(existing, upserted, repositories, organization, installation, listing);
      OthersAreKept(existing, repositories, organization, installation);
      if Unique(existing) {
        RevokedAfterUpserts(existing, upserted, repositories, organization, installation, listing);
      }
    }

    /** `connect`, for its new installation. */
    method Connect(organization: int, installation: int, listing: seq<Descriptor>, newIds: seq<int>) returns (ok: bool)
      requires |newIds| == |listing|
      modifies this
      ensures ok <==> Connected(old(repositories), organization, installation, listing, newIds).Some?
      ensures repositories ==
                Connected(old(repositories), organization, installation, listing, newIds).GetOr(old(repositories))
    {
      hide Connected;
      var before := repositories;
      NothingConnected(before, organization, installation, listing, newIds);
      for i := 0 to |listing|
        invariant Some(repositories) == Connected(before, organization, installation, listing[..i], newIds[..i])
        invariant before == old(repositories)
      {
        ConnectedNext(before, organization, installation, listing, newIds, i);
        ok := AddRepository(newIds[i], Keyed(organization, installation, listing[i]));
        if !ok {
          ConnectedFails(before, organization, installation, listing, newIds, i + 1);
          repositories := before;
          return;
        }
      }
      assert listing[..|listing|] == listing && newIds[..|newIds|] == newIds;
      ok := true;
    }
  }

  lemma OthersAreKept(a: Repositories, b: Repositories, organization: int, installation: int)
    requires OthersKept(a, b, organization, installation)
    ensures forall k :: k in a && (a[k].organization != organization || a[k].installation != installation) ==>
              k in b && b[k] == a[k]
  {
  }

  lemma NothingConnected(a: Repositories, organization: int, installation: int, listing: seq<Descriptor>,
      newIds: seq<int>)
    requires |newIds| == |listing|
    ensures Connected(a, organization, installation, listing[..0], newIds[..0]) == Some(a)
  {
  }

  lemma ConnectedNext(a: Repositories, organization: int, installation: int, listing: seq<Descriptor>,
      newIds: seq<int>, i: nat)
    requires i < |listing| == |newIds|
    ensures Connected(a, organization, installation, listing[..i + 1], newIds[..i + 1]) ==
              match Connected(a, organization, installation, listing[..i], newIds[..i])
              case None => None
              case Some(b) =>
                var repository := Keyed(organization, installation, listing[i]);
                if newIds[i] in b || Holds(b, repository) then None else Some(b[newIds[i] := repository])
  {
    assert listing[..i + 1][..i] == listing[..i] && newIds[..i + 1][..i] == newIds[..i];
  }

  lemma {:induction false} ConnectedFails(
    a: Repositories, organization: int, installation: int, listing: seq<Descriptor>, newIds: seq<int>, i: nat)
    requires i <= |listing| == |newIds|
    requires Connected(a, organization, installation, listing[..i], newIds[..i]).None?
    ensures Connected(a, organization, installation, listing, newIds).None?
    decreases |listing| - i
  {
    if i == |listing| {
      assert listing[..i] == listing && newIds[..i] == newIds;
    } else {
      ConnectedNext(a, organization, installation, listing, newIds, i);
      ConnectedFails(a, organization, installation, listing, newIds, i + 1);
    }
  }

  predicate Active(rs: Repositories, key: Repository) {
    exists id :: id in rs && SameKey(rs[id], key) && rs[id].active
  }

  /** What the upserts do to any mirror, unique or not. */
  ghost predicate Reached(a: Repositories, b: Repositories, organization: int, installation: int,
      listing: seq<Descriptor>) {
    && OthersKept(a, b, organization, installation)
    && (forall id :: id in a && id in b ==> SameKey(b[id], a[id]))
    && (forall i :: 0 <= i < |listing| ==> Active(b, Keyed(organization, installation, listing[i])))
  }

  lemma ReachedNext(
    a: Repositories, before: Repositories, after: Repositories, organization: int, installation: int,
    listing: seq<Descriptor>, newIds: seq<int>, i: nat, id: int)
    requires i < |listing| == |newIds| && NewIds(a, newIds)
    requires Reached(a, before, organization, installation, listing[..i])
    requires forall k :: k in before ==> k in a || k in newIds[..i]
    requires PutIn(a, before, after, Keyed(organization, installation, listing[i]), id, newIds[i])
    ensures Reached(a, after, organization, installation, listing[..i + 1])
    ensures forall k :: k in after ==> k in a || k in newIds[..i + 1]
  {
    var r := Keyed(organization, installation, listing[i]);
    assert newIds[..i + 1] == newIds[..i] + [newIds[i]];
    assert newIds[i] !in before;
    assert forall j :: 0 <= j < i + 1 ==> listing[..i + 1][j] == listing[j];
    forall j | 0 <= j < i + 1
      ensures Active(after, Keyed(organization, installation, listing[j]))
    {
      var key := Keyed(organization, installation, listing[j]);
      if SameKey(key, r) {
        assert SameKey(after[id], key) && after[id].active;
      } else {
        assert key == Keyed(organization, installation, listing[..i][j]);
        var k :| k in before && SameKey(before[k], key) && before[k].active;
        assert k in after && SameKey(after[k], key) && after[k].active;
      }
    }
  }

  lemma ReachedAfterRevocation(
    a: Repositories, before: Repositories, after: Repositories, organization: int, installation: int,
    listing: seq<Descriptor>)
    requires Reached(a, before, organization, installation, listing)
    requires after.Keys == before.Keys
    requires forall k :: k in after ==>
               after[k] == if Of(before[k], organization, installation) && LastOf(listing, before[k].externalId).None?
                           then before[k].(active := false) else before[k]
    ensures OthersKept(a, after, organization, installation)
    ensures forall e :: Reaches(after, organization, installation, e) <==> Lists(listing, e)
  {
    forall e
      ensures Reaches(after, organization, installation, e) <==> Lists(listing, e)
    {
      if Lists(listing, e) {
        var i :| 0 <= i < |listing| && listing[i].externalId == e;
        var k :| k in before && SameKey(before[k], Keyed(organization, installation, listing[i])) && before[k].active;
        assert after[k].active;
      }
    }
  }

  predicate NewIds(rs: Repositories, newIds: seq<int>) {
    && (forall i :: 0 <= i < |newIds| ==> newIds[i] !in rs)
    && (forall i, j :: 0 <= i < j < |newIds| ==> newIds[i] != newIds[j])
  }

  method Previous(existing: Repositories, key: Repository) returns (id: int)
    requires Holds(existing, key)
    ensures id in existing && SameKey(existing[id], key)
  {
    id :| id in existing && SameKey(existing[id], key);
  }

  lemma NothingUpserted(rs: Repositories, organization: int, installation: int, listing: seq<Descriptor>)
    ensures Reached(rs, rs, organization, installation, listing[..0])
    ensures Unique(rs) ==> Upserted(rs, rs, organization, installation, listing[..0])
  {
  }

  /** One upsert, under a known id where there is one. */
  ghost predicate PutIn(a: Repositories, before: Repositories, after: Repositories, r: Repository, id: int,
      newId: int) {
    && id in after && after[id] == r
    && (if Holds(a, r) then id in a && SameKey(a[id], r) else id == newId)
    && (forall k :: k in after && k != id ==> k in before && after[k] == before[k])
    && (forall k :: k in before && !SameKey(before[k], r) ==> k in after)
  }

  ghost predicate Stored(a: Repositories, before: Repositories, after: Repositories, r: Repository, id: int,
      newId: int) {
    && PutIn(a, before, after, r, id, newId)
    && (forall k :: k in after && k != id ==> !SameKey(after[k], r))
  }

  lemma RefreshedNext(r: Repository, organization: int, installation: int, listing: seq<Descriptor>, i: nat)
    requires i < |listing|
    ensures Refreshed(r, listing[..i + 1]) ==
              if r.externalId == listing[i].externalId then r.(details := listing[i].details, active := true)
              else Refreshed(r, listing[..i])
  {
    LastOfNext(listing, i, r.externalId);
  }

  lemma KnownNext(
    a: Repositories, before: Repositories, after: Repositories, organization: int, installation: int,
    listing: seq<Descriptor>, i: nat, id: int, newId: int)
    requires i < |listing| && newId !in a && newId !in before && Unique(a)
    requires Upserted(a, before, organization, installation, listing[..i])
    requires Stored(a, before, after, Keyed(organization, installation, listing[i]), id, newId)
    ensures OthersKept(a, after, organization, installation)
    ensures forall k :: k in a && Of(a[k], organization, installation) ==>
            k in after && after[k] == Refreshed(a[k], listing[..i + 1])
  {
    hide LastOf, Refreshed;
    var r := Keyed(organization, installation, listing[i]);
    forall k | k in a && Of(a[k], organization, installation)
      ensures k in after && after[k] == Refreshed(a[k], listing[..i + 1])
    {
      RefreshedNext(a[k], organization, installation, listing, i);
      KeyStays(a[k], listing[..i]);
      if SameKey(a[k], r) {
        assert Holds(a, r);
        assert SameKey(a[id], a[k]);
        assert k == id;
      } else {
        assert before[k] == Refreshed(a[k], listing[..i]);
      }
    }
    assert forall k :: k in a && !Of(a[k], organization, installation) ==> !SameKey(a[k], r);
  }

  lemma KeyStays(r: Repository, listing: seq<Descriptor>)
    ensures SameKey(Refreshed(r, listing), r)
  {
  }

  lemma NewNext(
    a: Repositories, before: Repositories, after: Repositories, organization: int, installation: int,
    listing: seq<Descriptor>, i: nat, id: int, newId: int)
    requires i < |listing| && newId !in a && newId !in before
    requires Upserted(a, before, organization, installation, listing[..i])
    requires Stored(a, before, after, Keyed(organization, installation, listing[i]), id, newId)
    ensures forall k :: k in after && k !in a ==>
              && after[k] == Refreshed(after[k], listing[..i + 1])
              && LastOf(listing[..i + 1], after[k].externalId).Some?
              && !Holds(a, after[k])
  {
    hide LastOf, Refreshed, OthersKept;
    var r := Keyed(organization, installation, listing[i]);
    forall k | k in after && k !in a
      ensures after[k] == Refreshed(after[k], listing[..i + 1]) && LastOf(listing[..i + 1], after[k].externalId).Some?
      ensures !Holds(a, after[k])
    {
      RefreshedNext(after[k], organization, installation, listing, i);
      LastOfNext(listing, i, after[k].externalId);
      if k != id {
        assert after[k] == before[k];
        OthersAreKnown(a, before, organization, installation, k);
        assert after[k].externalId != listing[i].externalId;
      }
    }
  }

  lemma OthersAreKnown(a: Repositories, b: Repositories, organization: int, installation: int, k: int)
    requires OthersKept(a, b, organization, installation) && k in b && k !in a
    ensures Of(b[k], organization, installation)
  {
  }

  lemma ListedNext(
    a: Repositories, before: Repositories, after: Repositories, organization: int, installation: int,
    listing: seq<Descriptor>, i: nat, id: int, newId: int)
    requires i < |listing|
    requires Upserted(a, before, organization, installation, listing[..i])
    requires Stored(a, before, after, Keyed(organization, installation, listing[i]), id, newId) && newId !in before
    ensures forall j :: 0 <= j < i + 1 ==> Holds(after, Keyed(organization, installation, listing[j]))
  {
    hide LastOf, Refreshed, OthersKept, Unique;
    var r := Keyed(organization, installation, listing[i]);
    assert SameKey(after[id], r);
    forall j | 0 <= j < i + 1
      ensures Holds(after, Keyed(organization, installation, listing[j]))
    {
      var key := Keyed(organization, installation, listing[j]);
      if !SameKey(key, r) {
        assert listing[..i][j] == listing[j];
        assert Holds(before, key);
        var k :| k in before && SameKey(before[k], key);
        assert !SameKey(before[k], r);
        assert k in after;
        assert k != id ==> SameKey(after[k], key);
        KnownId(a, before, after, organization, installation, listing[..i], r, id, newId);
      } else {
        assert SameKey(after[id], key);
      }
    }
  }

  /** The id an upsert stores under is never another key's. */
  lemma KnownId(
    a: Repositories, before: Repositories, after: Repositories, organization: int, installation: int,
    listing: seq<Descriptor>, r: Repository, id: int, newId: int)
    requires Upserted(a, before, organization, installation, listing) && Of(r, organization, installation)
    requires Stored(a, before, after, r, id, newId) && newId !in before
    ensures id in before ==> SameKey(before[id], r)
  {
    if id in before && Holds(a, r) {
      KeyStays(a[id], listing);
    }
  }

  /** One more descriptor. */
  lemma UpsertedNext(
    a: Repositories, before: Repositories, after: Repositories, organization: int, installation: int,
    listing: seq<Descriptor>, newIds: seq<int>, i: nat, id: int)
    requires i < |listing| == |newIds| && NewIds(a, newIds)
    requires Unique(a) && Unique(before) && Upserted(a, before, organization, installation, listing[..i])
    requires forall k :: k in before ==> k in a || k in newIds[..i]
    requires Stored(a, before, after, Keyed(organization, installation, listing[i]), id, newIds[i])
    ensures Unique(after) && Upserted(a, after, organization, installation, listing[..i + 1])
    ensures forall k :: k in after ==> k in a || k in newIds[..i + 1]
  {
    assert newIds[..i + 1] == newIds[..i] + [newIds[i]];
    assert newIds[i] !in before;
    assert Unique(after) by {
      hide Upserted, Holds, OthersKept;
    }
    assert forall k :: k in after ==> k in a || k in newIds[..i + 1] by {
      hide Upserted, Holds, OthersKept, Unique;
    }
    KnownNext(a, before, after, organization, installation, listing, i, id, newIds[i]);
    NewNext(a, before, after, organization, installation, listing, i, id, newIds[i]);
    ListedNext(a, before, after, organization, installation, listing, i, id, newIds[i]);
    hide Unique, OthersKept, Refreshed, Holds, LastOf, Stored, NewIds;
    assert forall j :: 0 <= j < i + 1 ==> listing[..i + 1][j] == listing[j];
  }

  lemma RevokedAfterUpserts(
    a: Repositories, before: Repositories, after: Repositories, organization: int, installation: int,
    listing: seq<Descriptor>)
    requires Upserted(a, before, organization, installation, listing)
    requires after.Keys == before.Keys
    requires forall k :: k in after ==>
               after[k] == if Of(before[k], organization, installation) && LastOf(listing, before[k].externalId).None?
                           then before[k].(active := false) else before[k]
    ensures Reconciled(a, after, organization, installation, listing)
  {
    hide LastOf;
    assert forall key: Repository, id :: id in before && SameKey(before[id], key) ==> SameKey(after[id], key);
  }
}
