/** One row of the record list (components/dns-record-row.tsx): its delete
    handler, split at the request into the part before it and the continuation. */
module DnsRecordRow {
  import opened Types
  import opened Fetch
  import AccountContext

  class DnsRecordRowState {
    const record: DnsRecord
    var isEditModalOpen: bool
    var isDeleting: bool

    constructor (record: DnsRecord)
      ensures this.record == record && !isEditModalOpen && !isDeleting
    {
      this.record := record;
      isEditModalOpen := false;
      isDeleting := false;
    }

    /** handleDelete up to the request: without a selected account nothing
        happens; otherwise the row is marked as deleting and the DELETE is issued. */
    method BeginDelete(selected: Option<AccountContext.CloudflareAccount>, zone: Zone) returns (req: Option<Request<()>>)
      modifies this`isDeleting
      ensures selected.None? ==> req.None? && isDeleting == old(isDeleting)
      ensures selected.Some? ==>
                isDeleting &&
                req == Some(Request(DELETE, RecordPath(zone.id, record.id), selected.value.email, selected.value.apiKey, None))
    {
      if selected.None? {
        return None;
      }
      isDeleting := true;
      req := Some(Request(DELETE, RecordPath(zone.id, record.id), selected.value.email, selected.value.apiKey, None));
    }

    /** handleDelete after the request: any response, whatever its status or
        envelope, reports the record as deleted (`deleted` is the id passed to
        onDnsRecordDeleted); a thrown error reports nothing. The flag always ends
        false. */
    method FinishDelete(o: Outcome<()>) returns (deleted: Option<string>)
      modifies this`isDeleting
      ensures !isDeleting
      ensures o.Resolved? ==> deleted == Some(record.id)
      ensures o.Threw? ==> deleted.None?
    {
      match o {
        case Resolved(_) =>
          deleted := Some(record.id);
        case Threw(_) =>
          deleted := None;
      }
      isDeleting := false;
    }
  }
}
