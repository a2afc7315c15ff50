/**
 * The in-memory installation store handed to the Slack receiver: one plain
 * object used as a dictionary from a scope key to the installation record.
 * `storeInstallation` writes an entry, `fetchInstallation` reads it or throws,
 * `deleteInstallation` removes it.
 */
module InstallationStore {
  import opened JsValues

  /** The installation record the OAuth flow hands to `storeInstallation`. */
  datatype Installation = Installation(
    isEnterpriseInstall: bool,
    enterpriseId: Option<string>,  // `installation.enterprise.id`; None when there is no `enterprise` object
    teamId: Option<string>,        // `installation.team.id`; None when there is no `team` object
    payload: string)               // tokens, bot and user ids: carried, never inspected

  /** The query the receiver passes to `fetchInstallation` and `deleteInstallation`. */
  datatype InstallationQuery = InstallationQuery(
    isEnterpriseInstall: bool,
    enterpriseId: Option<string>,
    teamId: Option<string>)

  datatype StoreError =
    | MissingScope  // TypeError: reading `.id` of an absent `enterprise` or `team` object
    | NotFound      // Error('Installation not found for this workspace/org')

  datatype Result<+T> = Ok(value: T) | Err(error: StoreError)

  type Table = map<string, Installation>

  /** The one scope rule shared by all three operations: the enterprise id for an
      enterprise-wide install, the team id otherwise. */
  function ScopeId<T>(isEnterpriseInstall: bool, enterpriseId: T, teamId: T): (r: T)
    ensures isEnterpriseInstall ==> r == enterpriseId
    ensures !isEnterpriseInstall ==> r == teamId
  {
    if isEnterpriseInstall then enterpriseId else teamId
  }

  /** The key `storeInstallation` writes under; a missing enterprise or team
      object makes the property read throw before anything is written. */
  function InstallationKey(inst: Installation): (r: Result<string>)
    ensures inst.isEnterpriseInstall && inst.enterpriseId.Some? ==> r == Ok(inst.enterpriseId.value)
    ensures !inst.isEnterpriseInstall && inst.teamId.Some? ==> r == Ok(inst.teamId.value)
    ensures r.Err? <==> (if inst.isEnterpriseInstall then inst.enterpriseId else inst.teamId).None?
    ensures r.Err? ==> r.error == MissingScope
  {
    match ScopeId(inst.isEnterpriseInstall, inst.enterpriseId, inst.teamId)
    case Some(id) => Ok(id)
    case None => Err(MissingScope)
  }

  /** The key `fetchInstallation` and `deleteInstallation` use; a missing id is
      coerced by the property access to the key "undefined". */
  function QueryKey(q: InstallationQuery): (k: string)
    ensures q.isEnterpriseInstall ==> k == ToText(q.enterpriseId)
    ensures !q.isEnterpriseInstall ==> k == ToText(q.teamId)
  {
    ToText(ScopeId(q.isEnterpriseInstall, q.enterpriseId, q.teamId))
  }

  /** The query the receiver builds for the workspace or organisation of `inst`. */
  function QueryFor(inst: Installation): InstallationQuery
  {
    InstallationQuery(inst.isEnterpriseInstall, inst.enterpriseId, inst.teamId)
  }

  // ---- the table operations as functions on the map ----

  /** `installations[key] = installation`: an unconditional upsert. */
  function Put(t: Table, inst: Installation): (r: Result<Table>)
    ensures r.Err? <==> InstallationKey(inst).Err?
    ensures r.Ok? ==> r.value.Keys == t.Keys + {InstallationKey(inst).value}
  {
    match InstallationKey(inst)
    case Ok(key) => Ok(t[key := inst])
    case Err(e) => Err(e)
  }

  /** `installations[key]`, throwing when the entry is absent. */
  function Get(t: Table, key: string): (r: Result<Installation>)
    ensures r.Ok? <==> key in t
    ensures r.Ok? ==> r.value == t[key]
    ensures r.Err? ==> r.error == NotFound
  {
    if key in t then Ok(t[key]) else Err(NotFound)
  }

  /** `delete installations[key]`: removes the entry if there is one. */
  function Remove(t: Table, key: string): (r: Table)
    ensures key !in r && r.Keys == t.Keys - {key}
  {
    t - {key}
  }

  // ---- properties of the table ----

  /** Store and query agree on the key: the query for an installation finds the
      entry `storeInstallation` wrote. */
  lemma ScopeKeyAgrees(inst: Installation)
    requires InstallationKey(inst).Ok?
    ensures QueryKey(QueryFor(inst)) == InstallationKey(inst).value
  {
  }

  /** Storing a record and fetching with a matching query gives exactly that record. */
  lemma PutThenGet(t: Table, inst: Installation, q: InstallationQuery)
    requires InstallationKey(inst).Ok? && QueryKey(q) == InstallationKey(inst).value
    ensures Put(t, inst).Ok? && Get(Put(t, inst).value, QueryKey(q)) == Ok(inst)
  {
  }

  /** A store changes only its own key. */
  lemma PutFrame(t: Table, inst: Installation, key: string)
    requires InstallationKey(inst).Ok? && key != InstallationKey(inst).value
    ensures Get(Put(t, inst).value, key) == Get(t, key)
  {
  }

  /** A second store under the same key overwrites the first, never merges. */
  lemma PutOverwrites(t: Table, a: Installation, b: Installation)
    requires InstallationKey(a).Ok? && InstallationKey(b) == InstallationKey(a)
    ensures Put(t, a).Ok? && Put(Put(t, a).value, b) == Put(t, b)
  {
    var key := InstallationKey(a).value;
    assert t[key := a][key := b] == t[key := b];
  }

  /** Fetching a key that is absent or was deleted throws NotFound. */
  lemma GetAfterRemove(t: Table, key: string)
    ensures Get(Remove(t, key), key) == Err(NotFound)
  {
  }

  /** Deleting changes only its own key, and a second delete is a no-op that does not fail. */
  lemma RemoveFrameAndIdempotent(t: Table, key: string, other: string)
    requires other != key
    ensures Get(Remove(t, key), other) == Get(t, other)
    ensures Remove(Remove(t, key), key) == Remove(t, key)
  {
  }

  /** The store itself: one dictionary updated in place. */
  class InMemoryStore {
    var installations: Table

    constructor ()
      ensures installations == map[]
    {
      installations := map[];
    }

    /** `storeInstallation`: on a missing scope object it throws and writes nothing. */
    method StoreInstallation(inst: Installation) returns (r: Result<()>)
      modifies this
      ensures r.Err? <==> InstallationKey(inst).Err?
      ensures r.Err? ==> r.error == MissingScope && installations == old(installations)
      ensures r.Ok? ==> Put(old(installations), inst) == Ok(installations)
    {
      var key := InstallationKey(inst);
      match key
      case Err(e) =>
        r := Err(e);
      case Ok(k) =>
        installations := installations[k := inst];
        r := Ok(());
    }

    /** `fetchInstallation`: the entry under the query's key, or NotFound. */
    method FetchInstallation(q: InstallationQuery) returns (r: Result<Installation>)
      ensures r.Ok? <==> QueryKey(q) in installations
      ensures r.Ok? ==> r.value == installations[QueryKey(q)]
      ensures r.Err? ==> r.error == NotFound
      ensures r == Get(installations, QueryKey(q))
    {
      var key := QueryKey(q);
      if key in installations {
        r := Ok(installations[key]);
      } else {
        r := Err(NotFound);
      }
    }

    /** `deleteInstallation`: removes the query's key if present; never fails. */
    method DeleteInstallation(q: InstallationQuery)
      modifies this
      ensures installations == Remove(old(installations), QueryKey(q))
    {
      installations := installations - {QueryKey(q)};
    }
  }

  /** A whole install life cycle on a fresh store: store, fetch, delete twice,
      fetch again. The first fetch returns the record, the second throws. */
  method InstallLifecycle(inst: Installation) returns (first: Result<Installation>, second: Result<Installation>)
    requires InstallationKey(inst).Ok?
    ensures first == Ok(inst)
    ensures second == Err(NotFound)
  {
    var store := new InMemoryStore();
    var stored := store.StoreInstallation(inst);
    first := store.FetchInstallation(QueryFor(inst));
    store.DeleteInstallation(QueryFor(inst));
    store.DeleteInstallation(QueryFor(inst));
    second := store.FetchInstallation(QueryFor(inst));
  }
}
