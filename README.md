# gorackspace: job-status polling, authentication and CloudDNS calls

A Dafny model of the core of `gorackspace`, a Go client for the Rackspace cloud API.
It covers:

- `JobStatusQuery`, which polls an asynchronous job's callback URL and writes the
  decoded status through a `*JobStatus`.
- `JobStatusMonitor`, the goroutine that keeps polling on every tick of a ticker and
  streams snapshots to a consumer. It sends the final snapshot once the status is
  `ERROR` or `COMPLETED`, then stops the ticker and closes the stream.
- `Authenticate` and the `AuthSession` accessors.
- Two variants of the CloudDNS calls. `cloudDNS/domain.go` is built on an `auth.Auth`
  and covers `DomainList`, `ListRecords` and `AddRecord`. `cloudDNS/dns_record.go` is
  built on an `AuthSession` and covers `ListRecords`, `AddRecords` and `AddRecord`.

Modules and files:

- `wrappers.dfy`: the `Option` and `Result` types.
- `fmt.dfy` (`Fmt`): Go's `%d` rendering of an integer. It is proved to parse back,
  so it is injective.
- `http.dfy` (`Http`): HTTP and JSON as inputs.
  - The network is a function parameter from (client, request) to an outcome: no
    response, or a status code and a body.
  - Bodies that `json.Marshal` produces are JSON value trees.
  - `json.Unmarshal` is a decode parameter. It yields the members it wrote and an
    optional error, because on a type mismatch Go still writes the other members, those
    before the mismatch and those after it.
  - The Go `switch` with `default: fallthrough` into the failure case is `StatusSwitch`.
- `auth.dfy` (`Authentication`): `auth/auth.go`.
- `async_job_status.dfy` (`AsyncJobStatus`): `async_job_status.go`.
  - `Query` is the pure effect of one poll.
  - The method `JobStatusQuery` writes through a `JobStatusRef` (the pointer).
  - `Run` is the polling loop as a state machine. Its input is a sequence of rounds;
    each round holds the network the poll meets and who wins the `select` race. Its
    output is the event trace `Fetch(url)`, `Publish(s)`, `Tick`, `Stop`, `Close`.
  - The class `Monitor` runs the loop imperatively. It keeps its snapshot, trace and
    closed flag equal to `Run` over every round it has been offered.
- `monitor_trace.dfy` (`MonitorTrace`): properties of the traces `Run` produces.
- `clouddns_domain.dfy` (`CloudDnsDomain`): `cloudDNS/domain.go`, plus the record
  JSON codec (omitempty members) and the records URL.
- `clouddns_record.dfy` (`CloudDnsRecord`): `cloudDNS/dns_record.go`.

## Model

| member | source | states |
|---|---|---|
| Fmt.FormatNat | cloudDNS/domain.go:100 | `%d` of a natural is a non-empty digit string with no leading zero |
| Fmt.ParseFormatInt | cloudDNS/domain.go:100 | `%d` of any integer parses back to that integer |
| Fmt.FormatIntInjective | cloudDNS/domain.go:100 | two integers with the same `%d` rendering are equal |
| Http.StatusSwitch | async_job_status.go:35-41 | the switch proceeds exactly for the success codes that are not listed as failures; every other code, listed or not, is rejected |
| Authentication.AccessorsDetermineSession | auth/auth.go:67-81 | `Client`, `Id`, `Expires` and `ServiceCatalog` are projections that together determine the session |
| Authentication.AuthenticateRequest | auth/auth.go:85-92 | the login is a POST to the fixed v1.1 identity URL carrying exactly the header `Content-Type: application/json`, whose JSON body reads back as exactly the given credentials |
| Authentication.Authenticate | auth/auth.go:84-125 | a transport error is returned as is; only 200 and 203 succeed; any other code gives `AuthFaultError(code, body)`; a decode error is returned; on success the session's token id, expiry and catalog are the decoded ones and its client is the shared client |
| AsyncJobStatus.JobStatusRequest | async_job_status.go:22-25 | the poll is a bodiless GET of the snapshot's own callback URL carrying exactly `Accept: application/json` and `X-Auth-Token` = `session.Id()` |
| AsyncJobStatus.QueryOutcomes | async_job_status.go:21-49 | the poll goes through the shared client; a transport error or a code other than 200/202 leaves the snapshot unchanged and yields the error (the body after "Error Polling Job Status: "); on 200/202 the decoded members are written over the snapshot, and a decode error is returned after them |
| AsyncJobStatus.FailedQueryKeepsSnapshot | async_job_status.go:27-46 | a failed poll leaves the snapshot unchanged, provided a decode error writes nothing |
| AsyncJobStatus.SuccessfulQueryReplacesSnapshot | async_job_status.go:43-48 | a successful poll whose body sets all three members replaces the snapshot with them |
| AsyncJobStatus.QueryIgnoresSessionClient | async_job_status.go:22-27 | the poll depends on the session only through `Id()`: two sessions with the same id poll identically |
| AsyncJobStatus.JobStatusQuery | async_job_status.go:21-49 | the pointed-to snapshot becomes `Query`'s snapshot; the same pointer is returned on success, the error otherwise |
| AsyncJobStatus.RunConcat | async_job_status.go:65-88 | running the loop over two stretches of rounds is running over the first and, unless it closed, over the second from where the first left off |
| AsyncJobStatus.Monitor.constructor | async_job_status.go:51-54 | a new monitor holds its own copy of the snapshot, has done nothing and is open |
| AsyncJobStatus.Monitor.Poll | async_job_status.go:54-89 | after the loop has been offered more rounds, its trace, snapshot and closed flag are those of `Run` over all rounds so far; once closed, nothing changes |
| MonitorTrace.PassCounts | async_job_status.go:79-86 | a non-terminal pass holds exactly one poll and one tick, and the poll comes first |
| MonitorTrace.TicksBeforeEachFetch | async_job_status.go:65-88 | before every poll there have been exactly as many ticks as earlier polls |
| MonitorTrace.OneTickBetweenPolls | async_job_status.go:79-86 | between two consecutive polls the ticker fires exactly once |
| MonitorTrace.ClosedRunEndsWithTerminalSend | async_job_status.go:74-77 | a closed run ends with the send of a terminal snapshot, the ticker stop and the close |
| MonitorTrace.CloseIsLastEvent | async_job_status.go:58-62 | Close occurs exactly once, as the last event, and Stop exactly once, just before it, if and only if the run closed |
| MonitorTrace.TerminalSendIsFinal | async_job_status.go:74-77 | a send of an ERROR or COMPLETED snapshot only ever happens as the third-to-last event of a closed run |
| MonitorTrace.NoPollAfterTerminal | async_job_status.go:74-77 | no poll follows the send of a terminal snapshot |
| MonitorTrace.OpenRunPollsEveryRound | async_job_status.go:65-70 | a run that has not closed polled once per round and, if it had at least one round, holds a non-terminal snapshot; a closed run polled at least once and at most once per round |
| MonitorTrace.SendsFollowPolls | async_job_status.go:82-86 | every send directly follows a poll |
| MonitorTrace.FailedPollIsOnlyLogged | async_job_status.go:67-70 | a failed poll (no response, a code other than 200/202, or a decode error that writes nothing) does not end the loop; the loop carries on with the unchanged snapshot, sending and closing only if that snapshot was already terminal |
| MonitorTrace.TerminalStatusWrittenEndsRun | async_job_status.go:43-77 | a 200/202 whose decode writes ERROR or COMPLETED ends the monitor after one poll with the send, the stop and the close, and the poll reports an error exactly when the decode failed, so a failed poll can end the loop |
| CloudDnsDomain.RecordsUrlIdentifiesDomain | cloudDNS/domain.go:100 | under one endpoint, the records URL determines the domain id |
| CloudDnsDomain.RecordJsonKeptMembers | cloudDNS/domain.go:76-86 | the members without omitempty (name, type, data, ttl) read back as the record's values |
| CloudDnsDomain.RecordJsonOmittedStamps | cloudDNS/domain.go:78-82 | id, updated and created read back as the record's values, whether omitted as empty or not |
| CloudDnsDomain.RecordJsonOmittedExtras | cloudDNS/domain.go:84-85 | comment and priority read back as the record's values, whether omitted as zero or not |
| CloudDnsDomain.RecordRoundTrip | cloudDNS/domain.go:76-86 | omitting the zero-valued members loses nothing: a record's JSON decodes back to the record |
| CloudDnsDomain.RecordsJson | cloudDNS/domain.go:88-90 | the array of a slice of records has one element per record |
| CloudDnsDomain.RecordsRoundTrip | cloudDNS/domain.go:88-90 | a slice of records decodes back from its array, in order |
| CloudDnsDomain.RecordListRoundTrip | cloudDNS/domain.go:133-134 | the body `{"records": [...]}` decodes back to exactly the records given |
| CloudDnsDomain.DomainList | cloudDNS/domain.go:42-72 | GET `<CloudDNS[0].PublicURL>/domains` with Accept and the token id, through the shared client; a transport error is returned; only 200/203 succeed; other codes give an error of just the body; a decode error is returned; otherwise the decoded `domains` |
| CloudDnsDomain.ListRecords | cloudDNS/domain.go:99-130 | GET of the domain's records URL with the token id, through the shared client; only 200/203 succeed with the decoded `records`; other codes give the body as error; transport and decode errors are returned |
| CloudDnsDomain.AddRecord | cloudDNS/domain.go:132-168 | POST of `{"records": [newRecord]}` to the records URL with Content-Type, Accept and the token id, through the shared client; only 200/202 succeed with the decoded job status written over a zero `JobStatus`; other codes give the body as error; transport and decode errors are returned |
| CloudDnsRecord.ListRecordsRequest | cloudDNS/dns_record.go:40-44 | a bodiless GET of `<CloudDNS[0].PublicURL>/domains/<id>/records` carrying exactly the headers `Accept: application/json` and `X-Auth-Token` = `session.Id()` |
| CloudDnsRecord.ListRecords | cloudDNS/dns_record.go:38-70 | the request goes through `session.Client()`; only 200/203 succeed with the decoded `records`; other codes give the body as error; transport and decode errors are returned |
| CloudDnsRecord.AddRecordsRequest | cloudDNS/dns_record.go:73-85 | a POST to the same records URL carrying exactly the headers `Content-Type: application/json`, `Accept: application/json` and `X-Auth-Token` = `session.Id()`, whose body decodes back to the records given, in order |
| CloudDnsRecord.AddRecords | cloudDNS/dns_record.go:72-109 | the request goes through `session.Client()`; only 200/202 succeed with the decoded job status over a zero `JobStatus`; other codes give the body as error; transport and decode errors are returned |
| CloudDnsRecord.AddRecord | cloudDNS/dns_record.go:111-113 | is `AddRecords` with the one-element list, whose body decodes back to exactly that record |
| CloudDnsRecord.ListRecordsVariantsAgree | cloudDNS/dns_record.go:38-70 | for a session holding the shared client, the session variant and the `auth.Auth` variant of `ListRecords` answer the same |
| CloudDnsRecord.AddRecordVariantsAgree | cloudDNS/dns_record.go:111-113 | for a session holding the shared client, the two variants of `AddRecord` post the same request and answer the same |

## Left out

- Concurrency and timing. The goroutine, the unbuffered channel and the `select` race are modelled as a sequence of rounds. Each round names who won the race, and ticks are discrete events. Ticker durations are not modelled.
- The blocking terminal send. `Run` takes the send of the terminal snapshot as received in the same round, then stops the ticker and closes the stream. In Go that send blocks until a consumer reads, so a closed run presumes a reader; a monitor nobody reads from never stops its ticker or closes its stream, and the model does not capture that.
- Infinite runs. `Monitor.Poll` and `Run` cover any finite prefix of rounds. The loop itself never ends except on a terminal status.
- Cancellation, retry limits and backoff do not exist in the source and are not modelled.
- `net/http` and `ioutil.ReadAll`. The network is a function parameter, and the TLS-configured global client is only its name (`SharedClient`).
- The text form of JSON. Outgoing bodies are JSON value trees and incoming bodies are decoded by a parameter.
- `json.Marshal` errors. They cannot occur for these plain structs, so the error branches after `json.Marshal` are not modelled.
- Nil slices. `AddRecords` with a nil slice marshals `"records": null`, not `[]`. The model has no nil slice.
- The unexported `rawJson` fields. They are filled but never read.
- Logging (`log.Println`). A failed poll is modelled as ignored.
- The exact text of errors. The model keeps the error's kind and its data: the body, the prefix of the poll error, and the code and body of `AuthFaultError`. `AuthFaultError.Error()` uses the invalid verb `%i`, so its text is not modelled. `AuthToken.String` and `AuthSession.String` are only used for display and are not modelled.
- Ignored `http.NewRequest` errors. They are not modelled, because the URL is always taken as a given string.
- The out-of-range panic when the catalog has no CloudDNS endpoint. It is a precondition (`|cloudDns| > 0`) of the CloudDNS calls.
- Header-name case. Go canonicalises `Content-type` to `Content-Type`, and the model writes the canonical name.
- `rackspace.ServiceCatalog` and the `rackspace.AuthSession` interface are not part of this model. The catalog is reduced to its CloudDNS endpoints (`Catalog`), and the session is the `auth.AuthSession` struct.
- `Record`, `RecordList` and `RecordListResponse`. Both Go files declare them with identical fields, so the model declares them once, in `CloudDnsDomain`. The functions of the two files are modelled separately.
- AsyncJobStatus.FailedQueryKeepsSnapshot: "unchanged on a failed poll" is proved only when a decode error writes nothing, because Go's `Unmarshal` can write some members before it fails on a type mismatch.
- MonitorTrace.FailedPollIsOnlyLogged: a 200/202 whose decode fails is covered only when the decode writes nothing, for the same reason. A decode that fails on a type mismatch after writing some members leaves a partly updated snapshot. If the status written is ERROR or COMPLETED, that failed poll ends the monitor: the snapshot is sent and the stream is closed (`MonitorTrace.TerminalStatusWrittenEndsRun`). Otherwise the loop goes on from the partly updated snapshot. `Run` models both cases.
