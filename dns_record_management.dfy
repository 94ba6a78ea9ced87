/** The zone page's record panel (components/dns-record-management.tsx): the
    mirrored record list, its fetch, the list handlers the dialogs and rows call
    back into, the zone deletion, and which of its blocks are shown. */
module DnsRecordManagement {
  import opened Types
  import opened Fetch
  import Text
  import Lists
  import AccountContext
  import AddDnsRecordModal
  import EditDnsRecordModal
  import DnsRecordRow

  function RecordId(r: DnsRecord): string
  {
    r.id
  }

  class DnsRecordPanel {
    const zoneId: string
    var dnsRecords: seq<DnsRecord>
    var loading: bool
    var error: Option<string>
    var isAddModalOpen: bool
    var isDeletingDomain: bool
    var zone: Option<Zone>
    /** Whether `router.push('/')` has been called. */
    var navigatedHome: bool

    constructor (zoneId: string)
      ensures this.zoneId == zoneId
      ensures dnsRecords == [] && loading && error == None
      ensures !isAddModalOpen && !isDeletingDomain && zone == None && !navigatedHome
    {
      this.zoneId := zoneId;
      dnsRecords := [];
      loading := true;
      error := None;
      isAddModalOpen := false;
      isDeletingDomain := false;
      zone := None;
      navigatedHome := false;
    }

    /** fetchZoneDetails: a successful envelope (whatever the status) sets the
        zone; anything else, a thrown error included, changes nothing. */
    method FetchZoneDetails(selected: Option<AccountContext.CloudflareAccount>, o: Outcome<Zone>)
      returns (req: Option<Request<()>>)
      modifies this`zone
      ensures selected.None? ==> req.None? && zone == old(zone)
      ensures selected.Some? ==>
                req == Some(Request(GET, ZonePath(zoneId), selected.value.email, selected.value.apiKey, None))
      ensures selected.Some? && Settle(o).Success? ==> zone == Some(Settle(o).value)
      ensures selected.Some? && Settle(o).Failure? ==> zone == old(zone)
    {
      if selected.None? {
        return None;
      }
      req := Some(Request(GET, ZonePath(zoneId), selected.value.email, selected.value.apiKey, None));
      if o.Resolved? && o.response.body.success {
        zone := Some(o.response.body.result);
      }
    }

    /** fetchDnsRecords up to the request: without a selected account nothing
        happens (and the panel keeps whatever loading flag it had); otherwise
        loading starts and the error is cleared. */
    method BeginFetchDnsRecords(selected: Option<AccountContext.CloudflareAccount>) returns (req: Option<Request<()>>)
      modifies this`loading, this`error
      ensures selected.None? ==> req.None? && loading == old(loading) && error == old(error)
      ensures selected.Some? ==>
                loading && error == None &&
                req == Some(Request(GET, RecordsPath(zoneId), selected.value.email, selected.value.apiKey, None))
    {
      if selected.None? {
        return None;
      }
      loading := true;
      error := None;
      req := Some(Request(GET, RecordsPath(zoneId), selected.value.email, selected.value.apiKey, None));
    }

    /** fetchDnsRecords after the request: a non-ok status fails with
        "Error: <status>", a failed envelope with its joined errors, a thrown
        error with its message; a successful envelope replaces the records.
        Loading ends on every path. */
    method FinishFetchDnsRecords(o: Outcome<seq<DnsRecord>>)
      modifies this`loading, this`error, this`dnsRecords
      ensures !loading
      ensures match SettleChecked(o, StatusError)
              case Success(records) => dnsRecords == records && error == old(error)
              case Failure(message) => dnsRecords == old(dnsRecords) && error == Some(message)
    {
      match SettleChecked(o, StatusError) {
        case Success(records) =>
          dnsRecords := records;
        case Failure(message) =>
          error := Some(message);
      }
      loading := false;
    }

    /** handleDnsRecordAdded: the record goes at the end. */
    method HandleDnsRecordAdded(record: DnsRecord)
      modifies this`dnsRecords
      ensures dnsRecords == old(dnsRecords) + [record]
    {
      dnsRecords := dnsRecords + [record];
    }

    /** handleDnsRecordUpdated: every record with the same id is replaced. */
    method HandleDnsRecordUpdated(record: DnsRecord)
      modifies this`dnsRecords
      ensures dnsRecords == Lists.ReplaceById(old(dnsRecords), RecordId, record)
      ensures |dnsRecords| == |old(dnsRecords)|
      ensures forall i :: 0 <= i < |dnsRecords| ==>
                dnsRecords[i] == if old(dnsRecords)[i].id == record.id then record else old(dnsRecords)[i]
    {
      dnsRecords := Lists.ReplaceById(dnsRecords, RecordId, record);
    }

    /** handleDnsRecordDeleted: every record with the id is dropped, the others
        keep their order. */
    method HandleDnsRecordDeleted(id: string)
      modifies this`dnsRecords
      ensures dnsRecords == Lists.RemoveById(old(dnsRecords), RecordId, id)
      ensures forall i :: 0 <= i < |dnsRecords| ==> dnsRecords[i].id != id
    {
      dnsRecords := Lists.RemoveById(dnsRecords, RecordId, id);
    }

    /** handleDeleteDomain up to the request. */
    method BeginDeleteDomain(selected: Option<AccountContext.CloudflareAccount>) returns (req: Option<Request<()>>)
      modifies this`isDeletingDomain, this`error
      ensures selected.None? ==> req.None? && isDeletingDomain == old(isDeletingDomain) && error == old(error)
      ensures selected.Some? ==>
                isDeletingDomain && error == None &&
                req == Some(Request(DELETE, ZonePath(zoneId), selected.value.email, selected.value.apiKey, None))
    {
      if selected.None? {
        return None;
      }
      isDeletingDomain := true;
      error := None;
      req := Some(Request(DELETE, ZonePath(zoneId), selected.value.email, selected.value.apiKey, None));
    }

    /** handleDeleteDomain after the request: any response, whatever its status,
        navigates home; only a thrown error is shown. The flag always ends false. */
    method FinishDeleteDomain(o: Outcome<()>)
      modifies this`isDeletingDomain, this`error, this`navigatedHome
      ensures !isDeletingDomain
      ensures o.Resolved? ==> navigatedHome && error == old(error)
      ensures o.Threw? ==> error == Some(o.message) && navigatedHome == old(navigatedHome)
    {
      match o {
        case Resolved(_) =>
          navigatedHome := true;
        case Threw(message) =>
          error := Some(message);
      }
      isDeletingDomain := false;
    }

    /** The add dialog's submit, wired to this panel: a created record is
        appended and the dialog closes; otherwise the list and the dialog's
        open state stay. */
    method SubmitAddRecord(dialog: AddDnsRecordModal.AddDnsRecordDialog,
                           selected: Option<AccountContext.CloudflareAccount>, o: Outcome<DnsRecord>)
      returns (req: Option<Request<AddDnsRecordModal.WriteBody>>)
      requires zone.Some?
      modifies this`dnsRecords, this`isAddModalOpen, dialog`error
      ensures selected.Some? && Settle(o).Success? ==>
                dnsRecords == old(dnsRecords) + [Settle(o).value] && !isAddModalOpen
      ensures !(selected.Some? && Settle(o).Success?) ==>
                dnsRecords == old(dnsRecords) && isAddModalOpen == old(isAddModalOpen)
      ensures selected.Some? ==> dialog.error == (if Settle(o).Success? then None else Some(Settle(o).error))
      ensures selected.None? ==> dialog.error == old(dialog.error)
    {
      var added;
      req, added := dialog.HandleSubmit(selected, zone.value, o);
      if added.Some? {
        HandleDnsRecordAdded(added.value);
        isAddModalOpen := false;
      }
    }

    /** A row's delete completing, wired to this panel: any response drops the
        row's record from the list. */
    method FinishRowDelete(row: DnsRecordRow.DnsRecordRowState, o: Outcome<()>)
      modifies this`dnsRecords, row`isDeleting
      ensures !row.isDeleting
      ensures o.Resolved? ==> dnsRecords == Lists.RemoveById(old(dnsRecords), RecordId, row.record.id)
      ensures o.Threw? ==> dnsRecords == old(dnsRecords)
    {
      var deleted := row.FinishDelete(o);
      if deleted.Some? {
        HandleDnsRecordDeleted(deleted.value);
      }
    }

    /** A row's edit dialog saving, wired to this panel: an updated record
        replaces its namesakes and the row's dialog closes. */
    method SubmitEditRecord(row: DnsRecordRow.DnsRecordRowState, dialog: EditDnsRecordModal.EditDnsRecordDialog,
                            selected: Option<AccountContext.CloudflareAccount>, o: Outcome<DnsRecord>)
      returns (req: Option<Request<AddDnsRecordModal.WriteBody>>)
      requires zone.Some?
      modifies this`dnsRecords, row`isEditModalOpen, dialog`error
      ensures selected.Some? && Settle(o).Success? ==>
                dnsRecords == Lists.ReplaceById(old(dnsRecords), RecordId, Settle(o).value) && !row.isEditModalOpen
      ensures !(selected.Some? && Settle(o).Success?) ==>
                dnsRecords == old(dnsRecords) && row.isEditModalOpen == old(row.isEditModalOpen)
      ensures selected.Some? ==> dialog.error == (if Settle(o).Success? then None else Some(Settle(o).error))
      ensures selected.None? ==> dialog.error == old(dialog.error)
    {
      var updated;
      req, updated := dialog.HandleSubmit(selected, zone.value, row.record, o);
      if updated.Some? {
        HandleDnsRecordUpdated(updated.value);
        row.isEditModalOpen := false;
      }
    }

    /** Until the zone is known, only "Loading zone details..." is shown: the
        early return hides every other block. */
    predicate ShowsZoneLoading()
      reads this
      ensures ShowsZoneLoading() ==>
                !ShowsSkeleton() && !ShowsError() && !ShowsRows() && !ShowsEmptyMessage()
    {
      zone.None?
    }

    /** The three placeholder rows, while the records load; neither the rows
        nor the empty-list message are shown beside them. */
    predicate ShowsSkeleton()
      reads this
      ensures ShowsSkeleton() ==> zone.Some? && !ShowsRows() && !ShowsEmptyMessage()
    {
      zone.Some? && loading
    }

    /** "Error: <error>" for a truthy error, also while loading; it replaces the
        rows and the empty-list message. */
    predicate ShowsError()
      reads this
      ensures ShowsError() ==> zone.Some? && error.Some? && error.value != "" && !ShowsRows() && !ShowsEmptyMessage()
    {
      zone.Some? && Text.Truthy(error)
    }

    /** The rows are shown when not loading, no (truthy) error and a non-empty list. */
    predicate ShowsRows()
      reads this
      ensures ShowsRows() ==> |dnsRecords| > 0 && !ShowsEmptyMessage()
    {
      zone.Some? && !loading && !Text.Truthy(error) && |dnsRecords| > 0
    }

    /** "No DNS records found." is shown when not loading, no (truthy) error and
        an empty list. */
    predicate ShowsEmptyMessage()
      reads this
      ensures ShowsEmptyMessage() ==> zone.Some? && !loading && dnsRecords == []
    {
      zone.Some? && !loading && !Text.Truthy(error) && |dnsRecords| == 0
    }
  }

  /** The record area's display rule: before the zone arrives only its loading
      text; while loading, the skeleton (with the error beside it when one is
      set); once loaded, exactly one of the error, the rows and the empty-list
      message. */
  lemma PanelDisplayRule(p: DnsRecordPanel)
    ensures p.zone.None? <==> p.ShowsZoneLoading()
    ensures p.zone.Some? && p.loading ==> p.ShowsSkeleton() && (p.ShowsError() <==> Text.Truthy(p.error))
    ensures p.zone.Some? && !p.loading ==> (p.ShowsError() || p.ShowsRows() || p.ShowsEmptyMessage())
    ensures p.zone.Some? && !p.loading ==>
              !(p.ShowsError() && p.ShowsRows()) && !(p.ShowsError() && p.ShowsEmptyMessage()) &&
              !(p.ShowsRows() && p.ShowsEmptyMessage())
  {
  }

  /** Deleting a zone's last record and fetching again ends with an empty list
      and the "No DNS records found." message, not an error. */
  method DeleteLastRecordThenRefetch(account: AccountContext.CloudflareAccount, z: Zone, record: DnsRecord)
    returns (panel: DnsRecordPanel)
    ensures panel.dnsRecords == []
    ensures panel.ShowsEmptyMessage() && !panel.ShowsError() && !panel.ShowsRows()
  {
    panel := new DnsRecordPanel(z.id);
    var _ := panel.FetchZoneDetails(Some(account), Resolved(Response(200, "OK", Envelope(true, z, []))));
    var _ := panel.BeginFetchDnsRecords(Some(account));
    panel.FinishFetchDnsRecords(Resolved(Response(200, "OK", Envelope(true, [record], []))));

    var row := new DnsRecordRow.DnsRecordRowState(record);
    var _ := row.BeginDelete(Some(account), z);
    panel.FinishRowDelete(row, Resolved(Response(200, "OK", Envelope(true, (), []))));
    assert panel.dnsRecords == [];

    var _ := panel.BeginFetchDnsRecords(Some(account));
    panel.FinishFetchDnsRecords(Resolved(Response(200, "OK", Envelope(true, [], []))));
  }
}
