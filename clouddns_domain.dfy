/**
 * cloudDNS/domain.go: the older variant of the CloudDNS calls, built on an `auth.Auth`
 * (token and catalog) and the shared client: listing domains, listing a domain's
 * records, and adding one record.
 */
module CloudDnsDomain {
  import opened Wrappers
  import opened Http
  import opened Fmt
  import opened Authentication
  import opened AsyncJobStatus

  const Version := "1.0"

  datatype Domain = Domain(name: string, id: int, updated: string, created: string, ttl: int,
                           accountId: int, emailAddress: string, comment: string)

  datatype DomainListLink = DomainListLink(content: string, href: string, rel: string)

  datatype DomainListResponse = DomainListResponse(domains: seq<Domain>, links: seq<DomainListLink>, totalEntries: int)

  /** A DNS record; `id`, `updated`, `created`, `comment` and `priority` are left out of the JSON when zero. */
  datatype Record = Record(name: string, id: string, recordType: string, data: string, updated: string,
                           created: string, ttl: int, comment: string, priority: int)

  datatype RecordList = RecordList(records: seq<Record>)

  datatype RecordListResponse = RecordListResponse(records: seq<Record>, totalEntries: int)

  /** `fmt.Sprintf("%s/domains/%d/records", publicUrl, domainId)`. */
  function RecordsUrl(publicUrl: string, domainId: int): string {
    publicUrl + "/domains/" + FormatInt(domainId) + "/records"
  }

  /** The records URL names its domain: two domains never share one under the same endpoint. */
  lemma RecordsUrlIdentifiesDomain(publicUrl: string, a: int, b: int)
    requires RecordsUrl(publicUrl, a) == RecordsUrl(publicUrl, b)
    ensures a == b
  {
    var u, v := RecordsUrl(publicUrl, a), RecordsUrl(publicUrl, b);
    var p := |publicUrl| + |"/domains/"|;
    assert |FormatInt(a)| == |FormatInt(b)|;
    assert u[p..|u| - |"/records"|] == FormatInt(a);
    assert v[p..|v| - |"/records"|] == FormatInt(b);
    FormatIntInjective(a, b);
  }

  /** The request headers a GET of CloudDNS carries. */
  function GetHeader(token: string): map<string, string> {
    map["Accept" := "application/json", "X-Auth-Token" := token]
  }

  /** The JSON value of one member of a record, by its JSON name. */
  function MemberValue(r: Record, key: string): Json {
    match key
    case "name" => JString(r.name)
    case "id" => JString(r.id)
    case "type" => JString(r.recordType)
    case "data" => JString(r.data)
    case "updated" => JString(r.updated)
    case "created" => JString(r.created)
    case "ttl" => JNumber(r.ttl)
    case "comment" => JString(r.comment)
    case "priority" => JNumber(r.priority)
    case _ => JNull
  }

  /** The members `json.Marshal` writes: the untagged ones always, the `omitempty` ones only when not zero. */
  function PresentMembers(r: Record): set<string> {
    {"name", "type", "data", "ttl"}
    + (if r.id == "" then {} else {"id"})
    + (if r.updated == "" then {} else {"updated"})
    + (if r.created == "" then {} else {"created"})
    + (if r.comment == "" then {} else {"comment"})
    + (if r.priority == 0 then {} else {"priority"})
  }

  /** `json.Marshal` of a record. */
  function RecordJson(r: Record): Json {
    JObject(map key | key in PresentMembers(r) :: MemberValue(r, key))
  }

  /** Decoding a JSON object into a fresh record: members absent are left zero. */
  function RecordFromJson(j: Json): Option<Record> {
    match j
    case JObject(m) =>
      var name, id, kind, data := StringMember(m, "name"), StringMember(m, "id"), StringMember(m, "type"), StringMember(m, "data");
      var updated, created, comment := StringMember(m, "updated"), StringMember(m, "created"), StringMember(m, "comment");
      var ttl, priority := IntMember(m, "ttl"), IntMember(m, "priority");
      if name.Some? && id.Some? && kind.Some? && data.Some? && updated.Some? && created.Some? && comment.Some?
         && ttl.Some? && priority.Some?
      then Some(Record(name.value, id.value, kind.value, data.value, updated.value, created.value, ttl.value, comment.value, priority.value))
      else None
    case _ => None
  }

  /** The members `json.Marshal` always writes read back as the record's own values. */
  lemma RecordJsonKeptMembers(r: Record)
    ensures var m := RecordJson(r).members;
      && StringMember(m, "name") == Some(r.name) && StringMember(m, "type") == Some(r.recordType)
      && StringMember(m, "data") == Some(r.data) && IntMember(m, "ttl") == Some(r.ttl)
  {
    var m := RecordJson(r).members;
    assert StringMember(m, "name") == Some(r.name);
    assert StringMember(m, "type") == Some(r.recordType);
  }

  /** The `omitempty` string members read back as the record's values, present or not. */
  lemma RecordJsonOmittedStamps(r: Record)
    ensures var m := RecordJson(r).members;
      && StringMember(m, "id") == Some(r.id) && StringMember(m, "updated") == Some(r.updated)
      && StringMember(m, "created") == Some(r.created)
  {
    var m := RecordJson(r).members;
    assert StringMember(m, "id") == Some(r.id);
    assert StringMember(m, "updated") == Some(r.updated);
  }

  /** The remaining `omitempty` members read back as the record's values, present or not. */
  lemma RecordJsonOmittedExtras(r: Record)
    ensures var m := RecordJson(r).members;
      StringMember(m, "comment") == Some(r.comment) && IntMember(m, "priority") == Some(r.priority)
  {
    var m := RecordJson(r).members;
    assert StringMember(m, "comment") == Some(r.comment);
  }

  /** Leaving out the zero-valued members loses nothing: a record decodes back to itself. */
  lemma RecordRoundTrip(r: Record)
    ensures RecordFromJson(RecordJson(r)) == Some(r)
  {
    RecordJsonKeptMembers(r);
    RecordJsonOmittedStamps(r);
    RecordJsonOmittedExtras(r);
  }

  /** The JSON array of a slice of records, in order. */
  function RecordsJson(records: seq<Record>): (items: seq<Json>)
    ensures |items| == |records|
  {
    if records == [] then [] else [RecordJson(records[0])] + RecordsJson(records[1..])
  }

  /** Decoding a JSON array into records; any element that is not a record fails the whole array. */
  function RecordsFromJson(items: seq<Json>): Option<seq<Record>> {
    if items == [] then Some([])
    else match (RecordFromJson(items[0]), RecordsFromJson(items[1..]))
      case (Some(r), Some(rest)) => Some([r] + rest)
      case _ => None
  }

  /** `json.Marshal(RecordList{records})`: the body posted to add records. */
  function RecordListJson(l: RecordList): Json {
    JObject(map["records" := JArray(RecordsJson(l.records))])
  }

  /** Decoding the body of a record list: an object whose `records` member is an array of records. */
  function RecordListFromJson(j: Json): Option<RecordList> {
    if j.JObject? && "records" in j.members && j.members["records"].JArray? then
      match RecordsFromJson(j.members["records"].items)
      case Some(records) => Some(RecordList(records))
      case None => None
    else None
  }

  /** Every slice of records decodes back from its array, element by element and in order. */
  lemma {:induction false} RecordsRoundTrip(records: seq<Record>)
    ensures RecordsFromJson(RecordsJson(records)) == Some(records)
  {
    if records != [] {
      RecordRoundTrip(records[0]);
      RecordsRoundTrip(records[1..]);
      assert RecordsJson(records)[1..] == RecordsJson(records[1..]);
      assert [records[0]] + records[1..] == records;
    }
  }

  /** The body posted to add records carries exactly those records: it decodes back to the same list. */
  lemma RecordListRoundTrip(l: RecordList)
    ensures RecordListFromJson(RecordListJson(l)) == Some(l)
  {
    RecordsRoundTrip(l.records);
  }

  /**
   * DomainList: a GET of `<CloudDNS[0].PublicURL>/domains` through the shared client
   * with the token id. Only 200 and 203 succeed, giving the decoded domains; any other
   * code is an error holding just the body.
   */
  function DomainList(a: Auth, network: Network, decode: string -> Unmarshal<DomainListResponse>)
    : (r: Result<seq<Domain>, Error>)
    requires |a.serviceCatalog.cloudDns| > 0
    ensures var out := network(SharedClient, Request(Get, a.serviceCatalog.cloudDns[0].publicUrl + "/domains", GetHeader(a.authToken.id), None));
      && (out.NoResponse? ==> r == Err(TransportError(out.cause)))
      && (out.Response? && out.statusCode != 200 && out.statusCode != 203 ==> r == Err(TextError(out.body)))
      && (out.Response? && (out.statusCode == 200 || out.statusCode == 203) ==>
            var u := decode(out.body);
            r == if u.err.Some? then Err(JsonError(u.err.value)) else Ok(u.written.domains))
  {
    var req := Request(Get, a.serviceCatalog.cloudDns[0].publicUrl + "/domains", GetHeader(a.authToken.id), None);
    Exchange(network(SharedClient, req), {401, 403, 400, 500, 503}, {200, 203},
      (code, body) => TextError(body), decode, (resp: DomainListResponse) => resp.domains)
  }

  /**
   * ListRecords: a GET of the domain's records URL through the shared client with the
   * token id. Only 200 and 203 succeed, giving the decoded records; any other code is an
   * error holding just the body.
   */
  function ListRecords(a: Auth, domain: Domain, network: Network, decode: string -> Unmarshal<RecordListResponse>)
    : (r: Result<seq<Record>, Error>)
    requires |a.serviceCatalog.cloudDns| > 0
    ensures var out := network(SharedClient, Request(Get, RecordsUrl(a.serviceCatalog.cloudDns[0].publicUrl, domain.id), GetHeader(a.authToken.id), None));
      && (out.NoResponse? ==> r == Err(TransportError(out.cause)))
      && (out.Response? && out.statusCode != 200 && out.statusCode != 203 ==> r == Err(TextError(out.body)))
      && (out.Response? && (out.statusCode == 200 || out.statusCode == 203) ==>
            var u := decode(out.body);
            r == if u.err.Some? then Err(JsonError(u.err.value)) else Ok(u.written.records))
  {
    var req := Request(Get, RecordsUrl(a.serviceCatalog.cloudDns[0].publicUrl, domain.id), GetHeader(a.authToken.id), None);
    Exchange(network(SharedClient, req), {401, 403, 400, 500, 503}, {200, 203},
      (code, body) => TextError(body), decode, (resp: RecordListResponse) => resp.records)
  }

  /**
   * AddRecord: a POST of `{"records": [newRecord]}` to the domain's records URL through
   * the shared client. Only 200 and 202 succeed, giving the job status decoded into a
   * fresh `JobStatus`; any other code is an error holding just the body.
   */
  function AddRecord(a: Auth, domain: Domain, newRecord: Record, network: Network, decode: string -> Unmarshal<JobStatusFields>)
    : (r: Result<JobStatus, Error>)
    requires |a.serviceCatalog.cloudDns| > 0
    ensures var out := network(SharedClient, Request(Post, RecordsUrl(a.serviceCatalog.cloudDns[0].publicUrl, domain.id),
                                                     GetHeader(a.authToken.id)["Content-Type" := "application/json"],
                                                     Some(RecordListJson(RecordList([newRecord])))));
      && (out.NoResponse? ==> r == Err(TransportError(out.cause)))
      && (out.Response? && out.statusCode != 200 && out.statusCode != 202 ==> r == Err(TextError(out.body)))
      && (out.Response? && (out.statusCode == 200 || out.statusCode == 202) ==>
            var u := decode(out.body);
            r == if u.err.Some? then Err(JsonError(u.err.value)) else Ok(Overlay(u.written, ZeroJobStatus)))
  {
    var req := Request(Post, RecordsUrl(a.serviceCatalog.cloudDns[0].publicUrl, domain.id),
                       GetHeader(a.authToken.id)["Content-Type" := "application/json"], Some(RecordListJson(RecordList([newRecord]))));
    Exchange(network(SharedClient, req), {400, 401, 404, 413, 500, 503}, {200, 202},
      (code, body) => TextError(body), decode, (f: JobStatusFields) => Overlay(f, ZeroJobStatus))
  }
}
