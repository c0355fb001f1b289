/**
 * cloudDNS/dns_record.go: the record calls built on an `AuthSession`, which go through
 * the session's own client. Records, their JSON form and the records URL are those of
 * the domain calls; `AddRecords` posts any number of records at once and `AddRecord`
 * posts one.
 */
module CloudDnsRecord {
  import opened Wrappers
  import opened Http
  import opened Authentication
  import opened AsyncJobStatus
  import opened CloudDnsDomain

  /** The request listing a domain's records: a GET with the session's token id. */
  function ListRecordsRequest(session: AuthSession, domain: Domain): (req: Request)
    requires |session.ServiceCatalog().cloudDns| > 0
    ensures req.verb == Get && req.body == None
    ensures req.url == RecordsUrl(session.ServiceCatalog().cloudDns[0].publicUrl, domain.id)
    ensures req.header.Keys == {"Accept", "X-Auth-Token"}
    ensures req.header["Accept"] == "application/json" && req.header["X-Auth-Token"] == session.Id()
  {
    Request(Get, RecordsUrl(session.ServiceCatalog().cloudDns[0].publicUrl, domain.id), GetHeader(session.Id()), None)
  }

  /**
   * ListRecords: the session's client sends the GET. Only 200 and 203 succeed, giving
   * the decoded records; any other code is an error holding just the body.
   */
  function ListRecords(session: AuthSession, domain: Domain, network: Network, decode: string -> Unmarshal<RecordListResponse>)
    : (r: Result<seq<Record>, Error>)
    requires |session.ServiceCatalog().cloudDns| > 0
    ensures var out := network(session.Client(), ListRecordsRequest(session, domain));
      && (out.NoResponse? ==> r == Err(TransportError(out.cause)))
      && (out.Response? && out.statusCode != 200 && out.statusCode != 203 ==> r == Err(TextError(out.body)))
      && (out.Response? && (out.statusCode == 200 || out.statusCode == 203) ==>
            var u := decode(out.body);
            r == if u.err.Some? then Err(JsonError(u.err.value)) else Ok(u.written.records))
  {
    Exchange(network(session.Client(), ListRecordsRequest(session, domain)), {401, 403, 400, 500, 503}, {200, 203},
      (code, body) => TextError(body), decode, (resp: RecordListResponse) => resp.records)
  }

  /**
   * The request adding records: a POST of `{"records": [...]}` to the domain's records
   * URL, declaring a JSON body and asking for a JSON answer, with the session's token id.
   */
  function AddRecordsRequest(session: AuthSession, domain: Domain, records: seq<Record>): (req: Request)
    requires |session.ServiceCatalog().cloudDns| > 0
    ensures req.verb == Post
    ensures req.url == RecordsUrl(session.ServiceCatalog().cloudDns[0].publicUrl, domain.id)
    ensures req.header.Keys == {"Accept", "Content-Type", "X-Auth-Token"}
    ensures req.header["Accept"] == "application/json" && req.header["Content-Type"] == "application/json"
    ensures req.header["X-Auth-Token"] == session.Id()
    ensures req.body.Some? && RecordListFromJson(req.body.value) == Some(RecordList(records))
  {
    RecordListRoundTrip(RecordList(records));
    Request(Post, RecordsUrl(session.ServiceCatalog().cloudDns[0].publicUrl, domain.id),
            GetHeader(session.Id())["Content-Type" := "application/json"], Some(RecordListJson(RecordList(records))))
  }

  /**
   * AddRecords: the session's client sends the POST. Only 200 and 202 succeed, giving
   * the job status decoded into a fresh `JobStatus`; any other code is an error holding
   * just the body.
   */
  function AddRecords(session: AuthSession, domain: Domain, records: seq<Record>, network: Network,
                      decode: string -> Unmarshal<JobStatusFields>)
    : (r: Result<JobStatus, Error>)
    requires |session.ServiceCatalog().cloudDns| > 0
    ensures var out := network(session.Client(), AddRecordsRequest(session, domain, records));
      && (out.NoResponse? ==> r == Err(TransportError(out.cause)))
      && (out.Response? && out.statusCode != 200 && out.statusCode != 202 ==> r == Err(TextError(out.body)))
      && (out.Response? && (out.statusCode == 200 || out.statusCode == 202) ==>
            var u := decode(out.body);
            r == if u.err.Some? then Err(JsonError(u.err.value)) else Ok(Overlay(u.written, ZeroJobStatus)))
  {
    Exchange(network(session.Client(), AddRecordsRequest(session, domain, records)), {400, 401, 404, 413, 500, 503}, {200, 202},
      (code, body) => TextError(body), decode, (f: JobStatusFields) => Overlay(f, ZeroJobStatus))
  }

  /**
   * AddRecord: posting one record is posting the one-element list; the body sent
   * decodes back to exactly that record.
   */
  function AddRecord(session: AuthSession, domain: Domain, newRecord: Record, network: Network,
                     decode: string -> Unmarshal<JobStatusFields>)
    : (r: Result<JobStatus, Error>)
    requires |session.ServiceCatalog().cloudDns| > 0
    ensures r == AddRecords(session, domain, [newRecord], network, decode)
    ensures var req := AddRecordsRequest(session, domain, [newRecord]);
      var out := network(session.Client(), req);
      && RecordListFromJson(req.body.value) == Some(RecordList([newRecord]))
      && (out.NoResponse? ==> r == Err(TransportError(out.cause)))
      && (out.Response? && out.statusCode != 200 && out.statusCode != 202 ==> r == Err(TextError(out.body)))
      && (out.Response? && (out.statusCode == 200 || out.statusCode == 202) ==>
            var u := decode(out.body);
            r == if u.err.Some? then Err(JsonError(u.err.value)) else Ok(Overlay(u.written, ZeroJobStatus)))
  {
    AddRecords(session, domain, [newRecord], network, decode)
  }

  /**
   * A session made by `Authenticate` uses the shared client, so the session variant of
   * listing records sends what the `auth.Auth` variant sends and answers the same.
   */
  lemma ListRecordsVariantsAgree(a: Auth, domain: Domain, network: Network, decode: string -> Unmarshal<RecordListResponse>)
    requires |a.serviceCatalog.cloudDns| > 0
    ensures var session := AuthSession(SharedClient, a.authToken, a.serviceCatalog);
      ListRecords(session, domain, network, decode) == CloudDnsDomain.ListRecords(a, domain, network, decode)
  {
  }

  /**
   * Likewise for adding one record: through a session made by `Authenticate`, both
   * variants post the same body to the same URL and answer the same.
   */
  lemma AddRecordVariantsAgree(a: Auth, domain: Domain, newRecord: Record, network: Network,
                               decode: string -> Unmarshal<JobStatusFields>)
    requires |a.serviceCatalog.cloudDns| > 0
    ensures var session := AuthSession(SharedClient, a.authToken, a.serviceCatalog);
      AddRecord(session, domain, newRecord, network, decode) == CloudDnsDomain.AddRecord(a, domain, newRecord, network, decode)
  {
  }
}
