/** The integration's own decisions in its config flow
    (custom_components/kroger_api/config_flow.py): the registration of the
    client credentials in the shared host data, the single-instance rule, the
    reauthentication confirmation, and the update-or-create choice when the
    OAuth2 exchange finishes. The host's generic OAuth2 steps are represented
    by the result that hands over to them. */
module ConfigFlow {
  import opened PyJson

  const Domain := "kroger_api"
  const ConfClientId := "client_id"
  const ConfClientSecret := "client_secret"
  const EntryTitle := "KrogerAPI"
  const SingleInstanceAllowed := "single_instance_allowed"
  const ReauthSuccessful := "reauth_successful"
  const ReauthConfirm := "reauth_confirm"

  /** What a step hands back to the host's flow manager. `ShowForm` carries
      the names of its schema's fields; `OAuthUserStep` hands over to the host's
      generic OAuth2 user step with the given input. */
  datatype FlowResult =
    | Abort(reason: string)
    | ShowForm(stepId: string, schema: set<string>)
    | CreateEntry(title: string, data: map<string, Json>)
    | OAuthUserStep(userInput: Option<map<string, Json>>)

  /** A stored config entry of this domain. */
  datatype Entry = Entry(entryId: nat, uniqueId: Option<string>, title: string, data: map<string, Json>)

  // ---------------------------------------------------------------------------
  // Registration of the credentials

  /** The host's shared `hass.data`, keyed by domain. */
  class Hass {
    var data: map<string, Json>

    constructor(data: map<string, Json>)
      ensures this.data == data
    {
      this.data := data;
    }
  }

  /** The value registration leaves under the domain's key. */
  function Credentials(clientId: string, clientSecret: string): (r: Json)
    ensures r.JObj? && r.fields.Keys == {ConfClientId, ConfClientSecret}
    ensures r.fields[ConfClientId] == JStr(clientId) && r.fields[ConfClientSecret] == JStr(clientSecret)
  {
    JObj(map[ConfClientId := JStr(clientId), ConfClientSecret := JStr(clientSecret)])
  }

  /** `register_flow_implementation`: whatever was stored under the domain
      before is replaced by exactly the two credentials; other domains keep
      their data. */
  method RegisterFlowImplementation(hass: Hass, clientId: string, clientSecret: string)
    modifies hass
    ensures hass.data == old(hass.data)[Domain := Credentials(clientId, clientSecret)]
    ensures hass.data.Keys == old(hass.data).Keys + {Domain}
    ensures forall d :: d in old(hass.data) && d != Domain ==> d in hass.data && hass.data[d] == old(hass.data)[d]
  {
    if Domain !in hass.data {
      hass.data := hass.data[Domain := JObj(map[])];
    }
    hass.data := hass.data[Domain := Credentials(clientId, clientSecret)];
  }

  // ---------------------------------------------------------------------------
  // The steps; `current` is what the host reports as the domain's entries

  /** `async_step_user`: any existing entry aborts the flow; otherwise the
      host's generic OAuth2 user step takes over with the same input. */
  function StepUser(userInput: Option<map<string, Json>>, current: seq<Entry>): (r: FlowResult)
    ensures r == Abort(SingleInstanceAllowed) <==> |current| > 0
    ensures |current| == 0 ==> r == OAuthUserStep(userInput)
  {
    if |current| > 0 then Abort(SingleInstanceAllowed) else OAuthUserStep(userInput)
  }

  /** `async_step_reauth_confirm`: without input, the confirmation form with an
      empty schema; with input, the user step, called without input. */
  function StepReauthConfirm(userInput: Option<map<string, Json>>, current: seq<Entry>): (r: FlowResult)
    ensures userInput.None? ==> r == ShowForm(ReauthConfirm, {})
    ensures userInput.Some? ==> (r == Abort(SingleInstanceAllowed) <==> |current| > 0)
    ensures userInput.Some? && |current| == 0 ==> r == OAuthUserStep(None)
  {
    if userInput.None? then ShowForm(ReauthConfirm, {}) else StepUser(None, current)
  }

  /** `async_step_reauth`: whatever it is given, it shows the confirmation. */
  function StepReauth(userInput: Option<map<string, Json>>, current: seq<Entry>): (r: FlowResult)
    ensures r == ShowForm(ReauthConfirm, {})
    ensures r.ShowForm? && r.schema == {}
  {
    StepReauthConfirm(None, current)
  }

  /** A reauthentication is started for an entry that exists, so its
      confirmation always ends in the single-instance abort and never reaches
      the OAuth2 exchange, nor therefore the update branch of
      `OAuthCreateEntry`. */
  lemma {:induction false} ConfirmedReauthAborts(userInput: map<string, Json>, current: seq<Entry>)
    requires |current| > 0
    ensures StepReauth(None, current) == ShowForm(ReauthConfirm, {})
    ensures StepReauthConfirm(Some(userInput), current) == Abort(SingleInstanceAllowed)
    ensures !StepReauthConfirm(Some(userInput), current).OAuthUserStep?
  {
  }

  /** The confirmation as its purpose requires: with input it hands over to
      the host's generic OAuth2 user step directly, bypassing the
      single-instance check, so the exchange can reach the update branch. */
  function StepReauthConfirmIntended(userInput: Option<map<string, Json>>, current: seq<Entry>): (r: FlowResult)
    ensures userInput.None? ==> r == StepReauthConfirm(userInput, current)
    ensures userInput.Some? ==> !r.Abort? && r == OAuthUserStep(None)
    ensures |current| == 0 ==> r == StepReauthConfirm(userInput, current)
  {
    if userInput.None? then ShowForm(ReauthConfirm, {}) else OAuthUserStep(None)
  }

  // ---------------------------------------------------------------------------
  // The entry store and the end of the flow

  /** Unique ids, where present, tell entries apart. */
  ghost predicate UniqueIdsDistinct(entries: seq<Entry>) {
    forall i, j :: 0 <= i < j < |entries| && entries[i].uniqueId.Some? ==> entries[i].uniqueId != entries[j].uniqueId
  }

  /** The first entry with the given unique id. */
  function FindByUniqueId(entries: seq<Entry>, uniqueId: string): (r: Option<nat>)
    ensures r.Some? ==> r.value < |entries| && entries[r.value].uniqueId == Some(uniqueId)
    ensures r.Some? ==> forall j :: 0 <= j < r.value ==> entries[j].uniqueId != Some(uniqueId)
    ensures r.None? ==> forall j :: 0 <= j < |entries| ==> entries[j].uniqueId != Some(uniqueId)
  {
    if entries == [] then None
    else if entries[0].uniqueId == Some(uniqueId) then Some(0)
    else
      match FindByUniqueId(entries[1..], uniqueId)
      case None => None
      case Some(k) => Some(k + 1)
  }

  /** Brings the first two entries into view for AtMostOneKeyedEntry, whose
      branch with two or more entries is impossible. */
  lemma FirstTwoUniqueIdsDiffer(entries: seq<Entry>)
    requires UniqueIdsDistinct(entries) && |entries| >= 2
    ensures entries[0].uniqueId.Some? ==> entries[0].uniqueId != entries[1].uniqueId
  {
  }

  /** When every entry carries the domain as its unique id, there is at most
      one entry. */
  lemma {:induction false} AtMostOneKeyedEntry(entries: seq<Entry>)
    requires UniqueIdsDistinct(entries)
    requires forall i :: 0 <= i < |entries| ==> entries[i].uniqueId == Some(Domain)
    ensures |entries| <= 1
  {
    if |entries| >= 2 {
      FirstTwoUniqueIdsDiffer(entries);
      assert false;
    }
  }

  /** The host's config-entry store for the domain: its entries, the ids of
      the entries reloaded so far, and the next fresh entry id. */
  class EntryStore {
    var entries: seq<Entry>
    var reloaded: seq<nat>
    var nextId: nat

    ghost predicate Valid()
      reads this
    {
      (forall i :: 0 <= i < |entries| ==> entries[i].entryId < nextId)
      && (forall i, j :: 0 <= i < j < |entries| ==> entries[i].entryId != entries[j].entryId)
      && UniqueIdsDistinct(entries)
    }

    constructor()
      ensures Valid() && entries == [] && reloaded == [] && nextId == 0
    {
      entries := [];
      reloaded := [];
      nextId := 0;
    }
  }

  /** A flow in progress: its context's unique id and the store it ends in. */
  class FlowHandler {
    var uniqueId: Option<string>
    const store: EntryStore

    constructor(store: EntryStore)
      ensures this.store == store && uniqueId.None?
    {
      this.store := store;
      uniqueId := None;
    }

    /** `async_oauth_create_entry`: the flow takes the domain as its unique id;
        an entry that already has it gets the new data and is reloaded, and the
        flow aborts with `reauth_successful`; otherwise one entry titled
        "KrogerAPI" with that data and unique id is created. */
    method OAuthCreateEntry(data: map<string, Json>) returns (r: FlowResult)
      requires store.Valid()
      modifies this, store
      ensures store.Valid() && uniqueId == Some(Domain)
      ensures FindByUniqueId(old(store.entries), Domain).Some? ==>
        var k := FindByUniqueId(old(store.entries), Domain).value;
        r == Abort(ReauthSuccessful)
        && store.entries == old(store.entries)[k := old(store.entries)[k].(data := data)]
        && store.reloaded == old(store.reloaded) + [old(store.entries)[k].entryId]
        && store.nextId == old(store.nextId)
      ensures FindByUniqueId(old(store.entries), Domain).None? ==>
        r == CreateEntry(EntryTitle, data)
        && store.entries == old(store.entries) + [Entry(old(store.nextId), Some(Domain), EntryTitle, data)]
        && store.reloaded == old(store.reloaded)
        && store.nextId == old(store.nextId) + 1
      ensures (forall i :: 0 <= i < |old(store.entries)| ==> old(store.entries)[i].uniqueId == Some(Domain)) ==>
        |store.entries| == 1 && store.entries[0].data == data
    {
      uniqueId := Some(Domain);
      var existing := FindByUniqueId(store.entries, Domain);
      if existing.Some? {
        var k := existing.value;
        var entry := store.entries[k];
        store.entries := store.entries[k := entry.(data := data)];
        store.reloaded := store.reloaded + [entry.entryId];
        r := Abort(ReauthSuccessful);
      } else {
        var entry := Entry(store.nextId, Some(Domain), EntryTitle, data);
        store.entries := store.entries + [entry];
        store.nextId := store.nextId + 1;
        r := CreateEntry(EntryTitle, data);
      }
      if forall i :: 0 <= i < |old(store.entries)| ==> old(store.entries)[i].uniqueId == Some(Domain) {
        AtMostOneKeyedEntry(old(store.entries));
      }
    }
  }
}
