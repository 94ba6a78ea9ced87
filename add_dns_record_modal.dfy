/** The add-record dialog (components/modals/add-dns-record-modal.tsx): its form
    cells, the write payload it builds from them, and how it handles the outcome. */
module AddDnsRecordModal {
  import opened Types
  import opened Fetch
  import Text
  import AccountContext

  /** The record types the dialog offers, in the order shown. */
  const RecordTypeOptions: seq<DnsRecordType> :=
    [A, AAAA, CNAME, TXT, MX, NS, SRV, CAA, CERT, DNSKEY, DS, NAPTR, SMIMEA, SSHFP, SVCB, TLSA, URI, PTR, HTTPS]

  /** Every record type is offered, each exactly once. */
  lemma RecordTypeOptionsComplete(t: DnsRecordType)
    ensures t in RecordTypeOptions
    ensures forall i, j :: 0 <= i < j < |RecordTypeOptions| ==> RecordTypeOptions[i] != RecordTypeOptions[j]
  {
  }

  /** The proxy switch is enabled only for these types; `proxied` is sent for all. */
  predicate ProxyEditable(t: DnsRecordType)
  {
    t == A || t == AAAA || t == CNAME
  }

  /** The JSON body of a record write: the base fields, the MX `priority` and the
      SRV `data` object (both absent unless set). */
  datatype WriteBody = WriteBody(
    recordType: DnsRecordType, name: string, content: string, proxied: bool, ttl: int,
    priority: Option<Num>, data: Option<SrvData>)

  /** How a number renders inside a template literal. */
  function NumToString(n: Num): (s: string)
    ensures |s| > 0 && ' ' !in s
  {
    match n
    case Int(i) => Text.IntToString(i)
    case NaN => "NaN"
  }

  /** Reads a rendered number back: "NaN", or an optional minus sign and digits. */
  function ReadNum(s: string): Option<Num>
  {
    if s == "NaN" then Some(NaN)
    else if |s| > 1 && s[0] == '-' && Text.AllDigits(s[1..]) then Some(Int(-(Text.DigitsValue(s[1..]) as int)))
    else if |s| > 0 && Text.AllDigits(s) then Some(Int(Text.DigitsValue(s)))
    else None
  }

  lemma ReadNumToString(n: Num)
    ensures ReadNum(NumToString(n)) == Some(n)
  {
    match n
    case NaN =>
    case Int(i) =>
      var s := NumToString(n);
      if i < 0 {
        assert s[0] == '-' && s[1..] == Text.NatToString(-i);
        Text.DigitsValueOfNatToString(-i);
      } else {
        assert Text.IsDigit(s[0]);
        Text.DigitsValueOfNatToString(i);
      }
  }

  /** The seven SRV fields in content order. */
  function SrvFields(d: SrvData): seq<string>
  {
    [d.service, d.proto, d.name, NumToString(d.priority), NumToString(d.weight), NumToString(d.port), d.target]
  }

  /** The SRV content string: the seven fields separated by single spaces. */
  function SrvContent(d: SrvData): string
  {
    Text.Join(SrvFields(d), " ")
  }

  /** Reads an SRV content string back by splitting it on single spaces. */
  function ReadSrvContent(content: string): Option<SrvData>
  {
    var parts := Text.Split(content, ' ');
    if |parts| != 7 then None
    else
      match (ReadNum(parts[3]), ReadNum(parts[4]), ReadNum(parts[5]))
      case (Some(priority), Some(weight), Some(port)) =>
        Some(SrvData(parts[0], parts[1], parts[2], priority, weight, port, parts[6]))
      case _ => None
  }

  /** None of the four text fields holds a space. */
  predicate SpaceFree(d: SrvData)
  {
    ' ' !in d.service && ' ' !in d.proto && ' ' !in d.name && ' ' !in d.target
  }

  /** Round trip: the content of an SRV record whose text fields hold no space
      splits back into exactly its seven fields (empty fields included). */
  lemma SrvContentRoundTrip(d: SrvData)
    requires SpaceFree(d)
    ensures ReadSrvContent(SrvContent(d)) == Some(d)
  {
    var fields := SrvFields(d);
    Text.SplitJoin(fields, ' ');
    assert Text.Split(SrvContent(d), ' ') == fields;
    ReadNumToString(d.priority);
    ReadNumToString(d.weight);
    ReadNumToString(d.port);
  }

  /** A space inside the target breaks the round trip: the content then splits
      into eight pieces and reads back as nothing. */
  lemma SpaceInTargetBreaksRoundTrip(d: SrvData, x: string, y: string)
    requires SpaceFree(d.(target := x)) && ' ' !in y
    requires d.target == x + " " + y
    ensures ReadSrvContent(SrvContent(d)) == None
  {
    var fields := SrvFields(d);
    var front := fields[..6];
    assert fields == front + [d.target];
    var spaced := front + [x] + [y];
    Text.JoinSnoc(front, d.target, " ");
    Text.JoinSnoc(front, x, " ");
    Text.JoinSnoc(front + [x], y, " ");
    assert Text.Join(spaced, " ") == SrvContent(d);
    forall i | 0 <= i < |spaced| ensures ' ' !in spaced[i] {
    }
    Text.SplitJoin(spaced, ' ');
  }

  /** The fields `handleSrvChange` can name. */
  datatype SrvField = Service | Proto | Name | Priority | Weight | Port | Target

  /** A value typed into an SRV input: text, or the `parseInt` of a number input. */
  datatype FieldValue = TextValue(s: string) | NumberValue(n: Num)

  /** The three number inputs hand over numbers, the others text. */
  predicate Fits(f: SrvField, v: FieldValue)
  {
    (f == Priority || f == Weight || f == Port) <==> v.NumberValue?
  }

  function FieldOf(d: SrvData, f: SrvField): (v: FieldValue)
    ensures Fits(f, v)
  {
    match f
    case Service => TextValue(d.service)
    case Proto => TextValue(d.proto)
    case Name => TextValue(d.name)
    case Priority => NumberValue(d.priority)
    case Weight => NumberValue(d.weight)
    case Port => NumberValue(d.port)
    case Target => TextValue(d.target)
  }

  /** `{ ...prev, [field]: value }`: the named field takes the value, the other
      six keep theirs. */
  function WithSrvField(d: SrvData, f: SrvField, v: FieldValue): (r: SrvData)
    requires Fits(f, v)
    ensures FieldOf(r, f) == v
    ensures forall g :: g != f ==> FieldOf(r, g) == FieldOf(d, g)
  {
    match f
    case Service => d.(service := v.s)
    case Proto => d.(proto := v.s)
    case Name => d.(name := v.s)
    case Priority => d.(priority := v.n)
    case Weight => d.(weight := v.n)
    case Port => d.(port := v.n)
    case Target => d.(target := v.s)
  }

  /** Two SRV records agreeing on every field are equal. */
  lemma {:induction false} SrvFieldsDetermine(a: SrvData, b: SrvData)
    requires forall g :: FieldOf(a, g) == FieldOf(b, g)
    ensures a == b
  {
    assert FieldOf(a, Service) == FieldOf(b, Service);
    assert FieldOf(a, Proto) == FieldOf(b, Proto);
    assert FieldOf(a, Name) == FieldOf(b, Name);
    assert FieldOf(a, Priority) == FieldOf(b, Priority);
    assert FieldOf(a, Weight) == FieldOf(b, Weight);
    assert FieldOf(a, Port) == FieldOf(b, Port);
    assert FieldOf(a, Target) == FieldOf(b, Target);
  }

  /** Writing a field's own value back changes nothing; writes to two different
      fields commute. */
  lemma WithSrvFieldLaws(d: SrvData, f: SrvField, v: FieldValue, g: SrvField, w: FieldValue)
    requires Fits(f, v) && Fits(g, w) && f != g
    ensures WithSrvField(d, f, FieldOf(d, f)) == d
    ensures WithSrvField(WithSrvField(d, f, v), g, w) == WithSrvField(WithSrvField(d, g, w), f, v)
  {
    SrvFieldsDetermine(WithSrvField(d, f, FieldOf(d, f)), d);
    var l := WithSrvField(WithSrvField(d, f, v), g, w);
    var r := WithSrvField(WithSrvField(d, g, w), f, v);
    forall h ensures FieldOf(l, h) == FieldOf(r, h) {
    }
    SrvFieldsDetermine(l, r);
  }

  /** The payload `handleSubmit` posts. */
  function AddRecordBody(t: DnsRecordType, name: string, content: string, proxied: bool,
                         priority: Num, srv: SrvData): (b: WriteBody)
    ensures b.recordType == t && b.name == name && b.proxied == proxied && b.ttl == 1
    ensures b.priority.Some? <==> t == MX
    ensures b.data.Some? <==> t == SRV
  {
    WriteBody(t, name, if t == SRV then SrvContent(srv) else content, proxied, 1,
              if t == MX then Some(priority) else None,
              if t == SRV then Some(srv) else None)
  }

  /** What the payload carries per type: for SRV, the `data` object and the
      seven fields joined by spaces, a content string that splits back into
      that very `data` object when no field holds a space; for every other type
      the typed content; the MX priority only for MX. */
  lemma AddRecordBodyFields(t: DnsRecordType, name: string, content: string, proxied: bool,
                            priority: Num, srv: SrvData)
    ensures var b := AddRecordBody(t, name, content, proxied, priority, srv);
            && (t == SRV ==> b.data == Some(srv) && b.content == SrvContent(srv))
            && (t == SRV && SpaceFree(srv) ==> ReadSrvContent(b.content) == b.data)
            && (t != SRV ==> b.content == content && b.data.None?)
            && (t == MX ==> b.priority == Some(priority))
  {
    if t == SRV && SpaceFree(srv) {
      SrvContentRoundTrip(srv);
    }
  }

  /** The dialog's own state cells. */
  class AddDnsRecordDialog {
    var recordType: DnsRecordType
    var name: string
    var content: string
    var proxied: bool
    var priority: Num
    var srvData: SrvData
    var error: Option<string>

    constructor ()
      ensures recordType == A && name == "" && content == "" && proxied
      ensures priority == Int(10)
      ensures srvData == SrvData("", "_tcp", "", Int(1), Int(1), Int(1), "")
      ensures error == None
    {
      recordType := A;
      name := "";
      content := "";
      proxied := true;
      priority := Int(10);
      srvData := SrvData("", "_tcp", "", Int(1), Int(1), Int(1), "");
      error := None;
    }

    /** The effect on `zone.name`: the name field takes the zone's name. */
    method SyncZoneName(zone: Zone)
      modifies this`name
      ensures name == zone.name
    {
      name := zone.name;
    }

    /** handleSrvChange: one SRV field is replaced. */
    method HandleSrvChange(f: SrvField, v: FieldValue)
      requires Fits(f, v)
      modifies this`srvData
      ensures srvData == WithSrvField(old(srvData), f, v)
      ensures FieldOf(srvData, f) == v
      ensures forall g :: g != f ==> FieldOf(srvData, g) == FieldOf(old(srvData), g)
    {
      srvData := WithSrvField(srvData, f, v);
    }

    /** handleSubmit: without a selected account nothing happens. Otherwise the
        error is cleared, the payload is built step by step and posted, and the
        outcome `o` is read whatever its status: a created record is returned in
        `added` (the caller adds it and closes the dialog), a failure is shown. */
    method HandleSubmit(selected: Option<AccountContext.CloudflareAccount>, zone: Zone, o: Outcome<DnsRecord>)
      returns (req: Option<Request<WriteBody>>, added: Option<DnsRecord>)
      modifies this`error
      ensures selected.None? ==> req.None? && added.None? && error == old(error)
      ensures selected.Some? ==>
                req == Some(Request(POST, RecordsPath(zone.id), selected.value.email, selected.value.apiKey,
                                    Some(AddRecordBody(recordType, name, content, proxied, priority, srvData))))
      ensures selected.Some? ==>
                match Settle(o)
                case Success(record) => added == Some(record) && error == None
                case Failure(message) => added.None? && error == Some(message)
    {
      if selected.None? {
        return None, None;
      }
      error := None;

      var recordContent := content;
      if recordType == SRV {
        recordContent := SrvContent(srvData);
      }
      var body := WriteBody(recordType, name, recordContent, proxied, 1, None, None);
      if recordType == MX {
        body := body.(priority := Some(priority));
      }
      if recordType == SRV {
        body := body.(data := Some(srvData));
      }
      req := Some(Request(POST, RecordsPath(zone.id), selected.value.email, selected.value.apiKey, Some(body)));

      match Settle(o) {
        case Success(record) =>
          added := Some(record);
        case Failure(message) =>
          added := None;
          error := Some(message);
      }
    }
  }

  /** The proxy switch is disabled outside A, AAAA and CNAME, yet the payload
      carries the `proxied` cell for every type: a fresh dialog (proxied on)
      switched to such a type still posts `proxied: true`, which the user
      cannot turn off. */
  method ProxiedSentForEveryType(account: AccountContext.CloudflareAccount, zone: Zone, t: DnsRecordType,
                                 o: Outcome<DnsRecord>)
    returns (req: Option<Request<WriteBody>>)
    requires !ProxyEditable(t)
    ensures req.Some? && req.value.verb == POST && req.value.body.Some?
    ensures req.value.body.value.recordType == t && req.value.body.value.proxied
  {
    var dialog := new AddDnsRecordDialog();
    dialog.recordType := t;
    var added;
    req, added := dialog.HandleSubmit(Some(account), zone, o);
  }
}
