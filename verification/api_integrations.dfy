/** The API integrations panel: the list of connected systems, the updates
    that enable, disable and sync one of them by id, the icon and colour of an
    integration type, and the creation form. */
module ApiIntegrations {
  import opened Wrappers
  import opened Backend

  /** A row of the `api_integrations` table; `lastSync` is None until the
      first sync. */
  datatype Integration = Integration(
    id: string, integrationType: string, integrationName: string, apiEndpoint: string,
    isActive: bool, lastSync: Option<string>, createdAt: string)

  // ---------------------------------------------------------------------------
  // Updates by id

  /** `prev.map(i => i.id === id ? change(i) : i)`: every record with the id is
      changed, every other one is kept. */
  function UpdateWhere(integrations: seq<Integration>, id: string, change: Integration -> Integration): seq<Integration>
  {
    seq(|integrations|, i requires 0 <= i < |integrations| =>
      if integrations[i].id == id then change(integrations[i]) else integrations[i])
  }

  /** The list after `toggleIntegration(id, isActive)` succeeded. */
  function SetActive(integrations: seq<Integration>, id: string, isActive: bool): seq<Integration>
  {
    UpdateWhere(integrations, id, (x: Integration) => x.(isActive := isActive))
  }

  /** The list after `syncIntegration(id)` succeeded at time `now`. */
  function SetLastSync(integrations: seq<Integration>, id: string, now: string): seq<Integration>
  {
    UpdateWhere(integrations, id, (x: Integration) => x.(lastSync := Some(now)))
  }

  /** Toggling keeps the list's length and order; a record with the id gets
      the new flag and keeps every other field; every other record is kept. */
  lemma SetActiveChangesOnlyMatches(integrations: seq<Integration>, id: string, isActive: bool)
    ensures var r := SetActive(integrations, id, isActive);
      && |r| == |integrations|
      && (forall i :: 0 <= i < |r| && integrations[i].id == id ==>
            r[i] == integrations[i].(isActive := isActive))
      && (forall i :: 0 <= i < |r| && integrations[i].id != id ==> r[i] == integrations[i])
  {
  }

  /** Syncing keeps the list's length and order; a record with the id gets the
      sync time and keeps every other field; every other record is kept. */
  lemma SetLastSyncChangesOnlyMatches(integrations: seq<Integration>, id: string, now: string)
    ensures var r := SetLastSync(integrations, id, now);
      && |r| == |integrations|
      && (forall i :: 0 <= i < |r| && integrations[i].id == id ==>
            r[i] == integrations[i].(lastSync := Some(now)))
      && (forall i :: 0 <= i < |r| && integrations[i].id != id ==> r[i] == integrations[i])
  {
  }

  /** Toggling never touches a sync time, and syncing never touches a flag;
      neither changes any id. */
  lemma UpdatesKeepOtherFields(integrations: seq<Integration>, id: string, isActive: bool, now: string)
    ensures var toggled := SetActive(integrations, id, isActive);
      forall i :: 0 <= i < |integrations| ==>
        toggled[i].lastSync == integrations[i].lastSync && toggled[i].id == integrations[i].id
    ensures var synced := SetLastSync(integrations, id, now);
      forall i :: 0 <= i < |integrations| ==>
        synced[i].isActive == integrations[i].isActive && synced[i].id == integrations[i].id
  {
  }

  /** The last toggle of an id wins, so toggling twice to the same value is
      the same as toggling once. */
  lemma SetActiveLastWins(integrations: seq<Integration>, id: string, first: bool, second: bool)
    ensures SetActive(SetActive(integrations, id, first), id, second) == SetActive(integrations, id, second)
  {
    var once := SetActive(integrations, id, first);
    SetActiveChangesOnlyMatches(integrations, id, first);
    SetActiveChangesOnlyMatches(once, id, second);
    SetActiveChangesOnlyMatches(integrations, id, second);
  }

  /** Toggling to the value every record with the id already has changes nothing. */
  lemma SetActiveUnchanged(integrations: seq<Integration>, id: string, isActive: bool)
    requires forall x :: x in integrations && x.id == id ==> x.isActive == isActive
    ensures SetActive(integrations, id, isActive) == integrations
  {
    var r := SetActive(integrations, id, isActive);
    forall i | 0 <= i < |integrations| ensures r[i] == integrations[i] {
      if integrations[i].id == id {
        assert integrations[i] in integrations;
      }
    }
  }

  /** Syncing one integration and toggling another, or the same one, give the
      same list in either order. */
  lemma UpdatesCommute(integrations: seq<Integration>, syncId: string, now: string, toggleId: string, isActive: bool)
    ensures SetActive(SetLastSync(integrations, syncId, now), toggleId, isActive)
         == SetLastSync(SetActive(integrations, toggleId, isActive), syncId, now)
  {
    var a := SetActive(SetLastSync(integrations, syncId, now), toggleId, isActive);
    var b := SetLastSync(SetActive(integrations, toggleId, isActive), syncId, now);
    SetLastSyncChangesOnlyMatches(integrations, syncId, now);
    SetActiveChangesOnlyMatches(SetLastSync(integrations, syncId, now), toggleId, isActive);
    SetActiveChangesOnlyMatches(integrations, toggleId, isActive);
    SetLastSyncChangesOnlyMatches(SetActive(integrations, toggleId, isActive), syncId, now);
    assert |a| == |b|;
    forall i | 0 <= i < |a| ensures a[i] == b[i] {
    }
  }

  /** `disabled={!integration.is_active}`: only an active integration can be synced. */
  predicate SyncEnabled(integration: Integration)
  {
    integration.isActive
  }

  /** After a disabling toggle no record with the id can be synced, and after
      an enabling one every such record can. */
  lemma ToggleGovernsSync(integrations: seq<Integration>, id: string, isActive: bool)
    ensures forall x :: x in SetActive(integrations, id, isActive) && x.id == id ==> SyncEnabled(x) == isActive
  {
    var r := SetActive(integrations, id, isActive);
    SetActiveChangesOnlyMatches(integrations, id, isActive);
    forall x | x in r && x.id == id ensures SyncEnabled(x) == isActive {
      var i :| 0 <= i < |r| && r[i] == x;
    }
  }

  // ---------------------------------------------------------------------------
  // Icon and colour of a type

  datatype Icon = Truck | Package | Navigation | Plug

  /** `getIntegrationIcon` */
  function IntegrationIcon(integrationType: string): Icon
  {
    match integrationType
    case "tms" => Truck
    case "erp" => Package
    case "gps" => Navigation
    case _ => Plug
  }

  /** `getIntegrationColor` */
  function IntegrationColor(integrationType: string): string
  {
    match integrationType
    case "tms" => "bg-blue-100 text-blue-800"
    case "erp" => "bg-green-100 text-green-800"
    case "gps" => "bg-purple-100 text-purple-800"
    case _ => "bg-gray-100 text-gray-800"
  }

  /** The integration types the form offers. */
  const IntegrationTypes: seq<string> := ["tms", "erp", "gps", "wms", "other"]

  /** Three types have an icon and a colour of their own; every other type,
      the offered "wms" and "other" among them, gets the plug and gray, and
      the two lookups always agree on which types those are. */
  lemma IconAndColorDefaults(integrationType: string)
    ensures (IntegrationIcon(integrationType) == Plug) == (integrationType !in IntegrationTypes[..3])
    ensures (IntegrationIcon(integrationType) == Plug) == (IntegrationColor(integrationType) == "bg-gray-100 text-gray-800")
    ensures IntegrationIcon("wms") == Plug && IntegrationIcon("other") == Plug
  {
    assert IntegrationTypes[..3] == ["tms", "erp", "gps"];
  }

  /** The three specific types have three different icons and colours. */
  lemma IconsAndColorsDistinct()
    ensures forall i, j :: 0 <= i < j < 3 ==>
              IntegrationIcon(IntegrationTypes[i]) != IntegrationIcon(IntegrationTypes[j])
              && IntegrationColor(IntegrationTypes[i]) != IntegrationColor(IntegrationTypes[j])
  {
  }

  // ---------------------------------------------------------------------------
  // The panel's state

  datatype IntegrationForm = IntegrationForm(
    integrationType: string, integrationName: string, apiEndpoint: string, apiKey: string)

  const EmptyForm := IntegrationForm("", "", "", "")

  /** The row `handleSubmit` inserts; the key is stored as its base64 encoding. */
  datatype IntegrationInsert = IntegrationInsert(
    userId: string, integrationType: string, integrationName: string, apiEndpoint: string,
    apiKeyEncrypted: string, isActive: bool)

  class IntegrationsPanel {
    var integrations: seq<Integration>
    var showCreateForm: bool
    var loading: bool
    var formData: IntegrationForm

    constructor ()
      ensures integrations == [] && !showCreateForm && !loading && formData == EmptyForm
    {
      integrations := [];
      showCreateForm := false;
      loading := false;
      formData := EmptyForm;
    }

    /** `fetchIntegrations`: the rows replace the list; a failed read keeps it. */
    method FetchIntegrations(result: Read<Integration>)
      modifies this`integrations
      ensures integrations == if result.Rows? then result.rows else old(integrations)
    {
      if result.Rows? {
        integrations := result.rows;
      }
    }

    /** `handleSubmit`. `btoa` is the runtime's base64 encoder, None where it
        throws (a key character above U+00FF); `inserted` is the row sent to
        the backend, if the call was reached. A success clears all four fields
        and closes the form; the refresh that follows is `FetchIntegrations`. */
    method HandleSubmit(session: Session, btoa: string -> Option<string>, write: Write)
      returns (inserted: Option<IntegrationInsert>)
      modifies this`loading, this`formData, this`showCreateForm
      ensures !loading
      ensures inserted.Some? <==> session.SignedIn? && btoa(old(formData).apiKey).Some?
      ensures inserted.Some? ==> inserted.value == IntegrationInsert(
                session.userId, old(formData).integrationType, old(formData).integrationName,
                old(formData).apiEndpoint, btoa(old(formData).apiKey).value, true)
      ensures inserted.Some? && write.Written? ==> formData == EmptyForm && !showCreateForm
      ensures !(inserted.Some? && write.Written?) ==>
                formData == old(formData) && showCreateForm == old(showCreateForm)
    {
      loading := true;
      inserted := None;
      if session.SignedIn? {
        var key := btoa(formData.apiKey);
        if key.Some? {
          inserted := Some(IntegrationInsert(
            session.userId, formData.integrationType, formData.integrationName,
            formData.apiEndpoint, key.value, true));
          if write.Written? {
            formData := EmptyForm;
            showCreateForm := false;
          }
        }
      }
      loading := false;
    }

    /** `toggleIntegration(id, isActive)`: once the backend accepted the
        update, the records with the id take the new flag; on an error the
        list is kept. */
    method ToggleIntegration(id: string, isActive: bool, write: Write)
      modifies this`integrations
      ensures integrations == if write.Written? then SetActive(old(integrations), id, isActive) else old(integrations)
    {
      if write.Written? {
        integrations := SetActive(integrations, id, isActive);
      }
    }

    /** `syncIntegration(id)`: once the backend accepted the update, the
        records with the id take the sync time `now`; on an error the list is
        kept. */
    method SyncIntegration(id: string, now: string, write: Write)
      modifies this`integrations
      ensures integrations == if write.Written? then SetLastSync(old(integrations), id, now) else old(integrations)
    {
      if write.Written? {
        integrations := SetLastSync(integrations, id, now);
      }
    }
  }
}
