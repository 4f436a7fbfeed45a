/**
 * One row of the hosts file and the `host.create` request built from it:
 * the row validator and the record-to-request mapping of the provisioner.
 */
module HostRequest {
  import opened Wrappers
  import opened IntLiteral

  /** A row as the `;`-separated CSV reader yields it. */
  type Row = seq<string>

  /** The columns, in file order: hostname;ip;dns;groupid;templateid;inttype;port. */
  const FieldCount: nat := 7

  datatype HostRecord = HostRecord(
    hostname: string,
    ip: string,
    dns: string,
    groupId: string,
    templateId: string,
    interfaceType: string,
    port: string)
  {
    /** The row this record was read from. */
    function Fields(): (row: Row)
      ensures |row| == FieldCount
    {
      [hostname, ip, dns, groupId, templateId, interfaceType, port]
    }

    /** The four columns a host cannot be created without are non-empty. */
    predicate HasRequiredFields() {
      hostname != "" && ip != "" && groupId != "" && templateId != ""
    }
  }

  /** Why a row is skipped without contacting the server. */
  datatype SkipReason = WrongFieldCount | MissingRequiredField

  /**
   * The two row checks, in order: exactly seven fields, then non-empty
   * hostname, ip, groupid and templateid.  The dns, inttype and port
   * columns may be empty.
   */
  function Validate(row: Row): (r: Result<HostRecord, SkipReason>)
    ensures r == Failure(WrongFieldCount) <==> |row| != FieldCount
    ensures r == Failure(MissingRequiredField) <==>
              |row| == FieldCount && (row[0] == "" || row[1] == "" || row[3] == "" || row[4] == "")
    ensures r.Success? ==> r.value.Fields() == row && r.value.HasRequiredFields()
  {
    if |row| != FieldCount then
      Failure(WrongFieldCount)
    else
      var rec := HostRecord(row[0], row[1], row[2], row[3], row[4], row[5], row[6]);
      if !rec.HasRequiredFields() then Failure(MissingRequiredField) else Success(rec)
  }

  /** Reading a record's own row back gives the record, exactly when its required fields are present. */
  lemma ValidateFields(rec: HostRecord)
    ensures Validate(rec.Fields()) == (if rec.HasRequiredFields() then Success(rec) else Failure(MissingRequiredField))
  {
  }

  /** `type` is a keyword here, so the interface type field is called `kind`. */
  datatype Interface = Interface(kind: int, main: int, useIp: int, ip: string, dns: string, port: string)

  datatype GroupRef = GroupRef(groupId: string)

  datatype TemplateRef = TemplateRef(templateId: string)

  datatype CreateHostRequest = CreateHostRequest(
    host: string,
    status: int,
    interfaces: seq<Interface>,
    groups: seq<GroupRef>,
    templates: seq<TemplateRef>)

  /** Status 0: the host is created monitored (enabled). */
  const StatusMonitored: int := 0
  /** `main = 1`: the interface is the host's default one of its type. */
  const MainInterface: int := 1
  /** `useip = 1`: the server connects by IP address rather than DNS name. */
  const ConnectByIp: int := 1

  /** A row-local exception raised while building or sending a request. */
  datatype RowFault =
    | BadInterfaceType(text: string)   // int(inttype) raised ValueError
    | CallRaised(message: string)      // the client call raised
    | MalformedErrorReply              // the reply's error part could not be read

  /** The shape every request of this provisioner has: one interface, one group, one template. */
  predicate IsProvisioningRequest(req: CreateHostRequest) {
    && req.status == StatusMonitored
    && |req.interfaces| == 1
    && req.interfaces[0].main == MainInterface
    && req.interfaces[0].useIp == ConnectByIp
    && |req.groups| == 1
    && |req.templates| == 1
  }

  /**
   * The `host.create` arguments for a record.  The interface type is the
   * integer value of `inttype`; when that text is not an integer the
   * request is never built and the row fails with BadInterfaceType.
   */
  function BuildRequest(rec: HostRecord): (r: Result<CreateHostRequest, RowFault>)
    ensures r.Failure? <==> ParseInt(rec.interfaceType).None?
    ensures r.Failure? ==> r.error == BadInterfaceType(rec.interfaceType)
    ensures r.Success? ==>
      var req := r.value;
      && IsProvisioningRequest(req)
      && req.host == rec.hostname
      && Some(req.interfaces[0].kind) == ParseInt(rec.interfaceType)
      && req.interfaces[0].ip == rec.ip
      && req.interfaces[0].dns == rec.dns
      && req.interfaces[0].port == rec.port
      && req.groups == [GroupRef(rec.groupId)]
      && req.templates == [TemplateRef(rec.templateId)]
  {
    match ParseInt(rec.interfaceType)
    case None => Failure(BadInterfaceType(rec.interfaceType))
    case Some(kind) =>
      Success(CreateHostRequest(
        rec.hostname,
        StatusMonitored,
        [Interface(kind, MainInterface, ConnectByIp, rec.ip, rec.dns, rec.port)],
        [GroupRef(rec.groupId)],
        [TemplateRef(rec.templateId)]))
  }

  /** The record a provisioning request was built from, with `inttype` in its shortest spelling. */
  function RecordOf(req: CreateHostRequest): HostRecord
    requires IsProvisioningRequest(req)
  {
    var itf := req.interfaces[0];
    HostRecord(req.host, itf.ip, itf.dns, req.groups[0].groupId, req.templates[0].templateId,
               FormatInt(itf.kind), itf.port)
  }

  /** Every request of the provisioning shape is built from its own record. */
  lemma BuildRecordOf(req: CreateHostRequest)
    requires IsProvisioningRequest(req)
    ensures BuildRequest(RecordOf(req)) == Success(req)
  {
    var itf := req.interfaces[0];
    ParseFormatInt(itf.kind);
    assert req.interfaces == [Interface(itf.kind, MainInterface, ConnectByIp, itf.ip, itf.dns, itf.port)];
    assert req.groups == [GroupRef(req.groups[0].groupId)];
    assert req.templates == [TemplateRef(req.templates[0].templateId)];
  }

  /**
   * The mapping loses nothing but the spelling of `inttype`: reading the
   * record back from a built request restores every column, and the
   * interface type column only up to `int()`.
   */
  lemma RecordOfBuild(rec: HostRecord)
    requires BuildRequest(rec).Success?
    ensures RecordOf(BuildRequest(rec).value) == rec.(interfaceType := RecordOf(BuildRequest(rec).value).interfaceType)
    ensures ParseInt(RecordOf(BuildRequest(rec).value).interfaceType) == ParseInt(rec.interfaceType)
  {
    ParseFormatInt(BuildRequest(rec).value.interfaces[0].kind);
  }

  /** Two records give the same request exactly when they agree on every column up to `int(inttype)`. */
  lemma BuildRequestInjective(a: HostRecord, b: HostRecord)
    requires BuildRequest(a).Success? && BuildRequest(b).Success?
    ensures BuildRequest(a) == BuildRequest(b) <==>
              a.(interfaceType := "") == b.(interfaceType := "") && ParseInt(a.interfaceType) == ParseInt(b.interfaceType)
  {
  }

  /** The mapping on a sample row of the hosts file. */
  lemma SampleRowRequest()
    ensures
      var row := ["h1", "10.0.0.5", "h1.example.com", "5", "10001", "1", "10050"];
      && Validate(row).Success?
      && BuildRequest(Validate(row).value) == Success(CreateHostRequest(
           "h1", 0, [Interface(1, 1, 1, "10.0.0.5", "h1.example.com", "10050")],
           [GroupRef("5")], [TemplateRef("10001")]))
  {
    var row := ["h1", "10.0.0.5", "h1.example.com", "5", "10001", "1", "10050"];
    assert Validate(row).value.interfaceType == "1";
    assert DigitsValue("1") == 1 by { assert "1"[..0] == ""; }
  }
}
