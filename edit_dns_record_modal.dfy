/** The edit-record dialog (components/modals/edit-dns-record-modal.tsx). */
module EditDnsRecordModal {
  import opened Types
  import opened Fetch
  import AccountContext
  import opened AddDnsRecordModal

  /** The types the dialog's selector offers, in the order shown. */
  const EditTypeOptions: seq<DnsRecordType> := [A, AAAA, CNAME, TXT, NS, MX, SRV]

  /** The PUT body: exactly the five base fields, for every type. */
  function EditRecordBody(t: DnsRecordType, name: string, content: string, proxied: bool): (b: WriteBody)
    ensures b.recordType == t && b.name == name && b.content == content && b.proxied == proxied
    ensures b.ttl == 1 && b.priority.None? && b.data.None?
  {
    WriteBody(t, name, content, proxied, 1, None, None)
  }

  class EditDnsRecordDialog {
    var recordType: DnsRecordType
    var name: string
    var content: string
    var proxied: bool
    var error: Option<string>

    /** The cells start from the record being edited. */
    constructor (record: DnsRecord)
      ensures recordType == record.recordType && name == record.name
      ensures content == record.content && proxied == record.proxied
      ensures error == None
    {
      recordType := record.recordType;
      name := record.name;
      content := record.content;
      proxied := record.proxied;
      error := None;
    }

    /** The effect on `[open, record]`: whenever the dialog is open, the cells are
        reset from the record and the error is cleared; while closed, nothing. */
    method SyncWithRecord(open: bool, record: DnsRecord)
      modifies this
      ensures open ==> recordType == record.recordType && name == record.name &&
                       content == record.content && proxied == record.proxied && error == None
      ensures !open ==> recordType == old(recordType) && name == old(name) &&
                        content == old(content) && proxied == old(proxied) && error == old(error)
    {
      if open {
        recordType := record.recordType;
        name := record.name;
        content := record.content;
        proxied := record.proxied;
        error := None;
      }
    }

    /** The type selector: only the seven offered types can be chosen. */
    method ChooseType(t: DnsRecordType)
      requires t in EditTypeOptions
      modifies this`recordType
      ensures recordType == t
    {
      recordType := t;
    }

    /** handleSubmit: without a selected account nothing happens. Otherwise the
        error is cleared, the five base fields are PUT, and the outcome is read
        whatever its status: the updated record is returned in `updated` (the
        caller replaces it and closes the dialog), a failure is shown. */
    method HandleSubmit(selected: Option<AccountContext.CloudflareAccount>, zone: Zone, record: DnsRecord,
                        o: Outcome<DnsRecord>)
      returns (req: Option<Request<WriteBody>>, updated: Option<DnsRecord>)
      modifies this`error
      ensures selected.None? ==> req.None? && updated.None? && error == old(error)
      ensures selected.Some? ==>
                req == Some(Request(PUT, RecordPath(zone.id, record.id), selected.value.email, selected.value.apiKey,
                                    Some(EditRecordBody(recordType, name, content, proxied))))
      ensures selected.Some? ==>
                match Settle(o)
                case Success(r) => updated == Some(r) && error == None
                case Failure(message) => updated.None? && error == Some(message)
    {
      if selected.None? {
        return None, None;
      }
      error := None;
      var body := WriteBody(recordType, name, content, proxied, 1, None, None);
      req := Some(Request(PUT, RecordPath(zone.id, record.id), selected.value.email, selected.value.apiKey, Some(body)));
      match Settle(o) {
        case Success(r) =>
          updated := Some(r);
        case Failure(message) =>
          updated := None;
          error := Some(message);
      }
    }
  }

  /** Saving an MX or SRV record unchanged through this dialog sends neither
      its priority nor its SRV data object, whatever the record carries, while
      the add dialog sends the one its type needs. */
  method EditDropsTypeSpecificFields(account: AccountContext.CloudflareAccount, zone: Zone, record: DnsRecord,
                                     o: Outcome<DnsRecord>)
    returns (req: Option<Request<WriteBody>>)
    requires record.recordType == MX || record.recordType == SRV
    ensures req.Some? && req.value.verb == PUT && req.value.body.Some?
    ensures var b := req.value.body.value;
            b.recordType == record.recordType && b.name == record.name && b.content == record.content &&
            b.priority.None? && b.data.None?
    ensures var a := AddRecordBody(record.recordType, record.name, record.content, record.proxied,
                                   Int(10), SrvData("", "_tcp", "", Int(1), Int(1), Int(1), ""));
            a.priority.Some? || a.data.Some?
  {
    var dialog := new EditDnsRecordDialog(record);
    var updated;
    req, updated := dialog.HandleSubmit(Some(account), zone, record, o);
  }
}
