# Bulk host provisioning for Zabbix — a Dafny model

`auto-add-hosts.py` reads a `;`-separated hosts file whose columns are
`hostname;ip;dns;groupid;templateid;inttype;port` and, for each row, asks the
Zabbix API (`host.create`) to create the host with one interface, one host
group and one template. This project models the per-row logic of its main
loop and proves what it does:

- **Row validation** (`HostRequest.Validate`): a row must have exactly seven
  fields, and `hostname`, `ip`, `groupid` and `templateid` must be non-empty;
  otherwise it is skipped. `dns`, `inttype` and `port` may be empty.
- **Request mapping** (`HostRequest.BuildRequest`): the `host.create`
  arguments — host name, status 0, one interface (`type` = `int(inttype)`,
  `main` = 1, `useip` = 1, `ip`, `dns`, `port` copied as text), one group,
  one template. `int()` is modelled by `IntLiteral.ParseInt`; a text it
  rejects is a row-local exception and no request is sent.
- **Reply classification** (`ApiReply.Classify`): Python's `'error' in reply`
  on the decoded JSON value (`JsonValue.Contains`), then the subscripts
  `reply['error']['message']` and `reply['error']['data']`
  (`JsonValue.Subscript`), any of which can raise.
- **The driving loop** (`Provisioner.ProvisionHosts`): rows in order, one
  outcome per row (skipped with a reason, created, API error, or a caught
  exception), and the progress counter `i`. The loop is proved against a
  left-fold specification (`Provisioner.Run`), and lemmas about that fold
  state what the script promises: the requests sent are exactly those of the
  valid rows with an integer `inttype`, in row order, whatever the server
  answers; no row's outcome keeps later rows from running; `i` counts exactly
  the rows that passed validation.

The Zabbix server is a parameter: a function from the requests already sent
and the new request to what the client call gives back (a decoded JSON value,
or an exception it raised). Files: `wrappers.dfy` (Option, Result),
`int_literal.dfy`, `json_value.dfy`, `host_request.dfy`, `api_reply.dfy`,
`provisioner.dfy`.

The client named in the script's header, pyzabbix, hands back only the
`result` member of a `host.create` reply and raises when the server answers
with an error; with that client the error branch of lines 115-116 is not
taken and a rejected host ends as a caught exception (lines 120-121). The
server parameter covers both behaviours: a call that raises, and a returned
value that may or may not carry an `error` member. `ApiReply.Encode` writes a
rejection as such an `error` member only to state what the script does when
it does receive one.

Where the script's behaviour as usually described and its code disagree,
the model follows the code:

- The progress counter does not advance for skipped rows: both skips end in
  `continue`, which jumps past `i += 1` (lines 85, 92, 123). It does advance
  for rows that raise, since lines 123-124 follow the `try`/`except`.
- `port` is sent as the text of the column, never converted to an integer
  (line 104); only `inttype` goes through `int()` (line 99).
- An error reply is read by subscripting (line 116). A reply whose `error`
  part lacks `message` or `data`, or is not an object, raises, and the row
  ends as a caught exception rather than as a reported API error.

## Model

| member | source | states |
|---|---|---|
| `IntLiteral.ParseInt` | auto-add-hosts.py:99 | the model of `int(inttype)` succeeds exactly on an optional sign followed by one or more ASCII digits (see "## Left out" for the texts where `int()` differs); a `-` sign gives a non-positive value, otherwise non-negative |
| `IntLiteral.ParseFormatInt` | auto-add-hosts.py:99 | every integer is recovered by parsing its decimal spelling, so every interface type of at most 4300 digits (the longest text `int()` converts) can be written in the `inttype` column |
| `IntLiteral.LeadingZerosIgnored` | auto-add-hosts.py:99 | like `int()`, the parse ignores leading zeros and an explicit `+`, and a `-` negates the value of the digits, leading zeros included (`-007` is -7, `-0` is 0) |
| `JsonValue.Contains` | auto-add-hosts.py:115 | Python `key in value`: key membership on an object, element equality on a list, substring on a text, TypeError on null, booleans and numbers |
| `JsonValue.HasInfixIff` | auto-add-hosts.py:115 | the substring test used for `in` on a text holds exactly when the key occurs at some position |
| `JsonValue.Subscript` | auto-add-hosts.py:116 | Python `value[key]` yields the member exactly when the value is an object holding the key, and raises otherwise |
| `HostRequest.Validate` | auto-add-hosts.py:83-92 | a row is skipped for its field count exactly when it does not have 7 fields, and for a missing field exactly when it has 7 and one of hostname, ip, groupid, templateid is empty; an accepted row yields the record whose fields are the row |
| `HostRequest.ValidateFields` | auto-add-hosts.py:83-92 | reading a record's own row back yields the record exactly when its four required fields are non-empty (empty dns, inttype or port never cause a skip) |
| `HostRequest.BuildRequest` | auto-add-hosts.py:95-112 | the request fails exactly when `int(inttype)` fails; otherwise host = hostname, status 0, exactly one interface with main 1, useip 1, type the parsed inttype and ip, dns, port copied, exactly one group and one template with the row's ids |
| `HostRequest.BuildRecordOf` | auto-add-hosts.py:95-112 | every request of that shape is the request built from the record read back from it |
| `HostRequest.RecordOfBuild` | auto-add-hosts.py:95-112 | the record read back from a built request equals the original record in every column, and in inttype up to `int()` |
| `HostRequest.BuildRequestInjective` | auto-add-hosts.py:95-112 | two records give the same request exactly when they agree on every column and on the parsed inttype |
| `HostRequest.SampleRowRequest` | auto-add-hosts.py:95-112 | the row `h1;10.0.0.5;h1.example.com;5;10001;1;10050` maps to host h1, status 0, interface type 1 main 1 useip 1 with that ip, dns and port, group 5, template 10001 |
| `ApiReply.Classify` | auto-add-hosts.py:115-118 | a reply is a success exactly when `'error' in reply` is false (for an object: no `error` key); it is a reported error exactly when it is an object whose `error` member is an object with `message` and `data`, which are what is reported |
| `ApiReply.ClassifyEncode` | auto-add-hosts.py:115-118 | a server answer written as a JSON reply (host ids, or an `error` member with code, message and data) is classified as the answer it is |
| `ApiReply.NonObjectErrorIsUnreadable` | auto-add-hosts.py:115-121 | a text or list reply that mentions "error" passes the `in` test but raises on the subscript, so the row ends as an exception |
| `Provisioner.CallOutcome` | auto-add-hosts.py:95-121 | a sent request never ends as a skip; it is created exactly when the reply is classified a success; it is an API error exactly when the reply is classified a reported error, and then carries that error's message and data; a raising call ends as a caught exception with the call's message, an unreadable reply as a caught exception for the malformed error part |
| `Provisioner.ProcessRow` | auto-add-hosts.py:83-121 | a row is skipped, with the validator's reason, exactly when validation fails; it sends a request exactly when it passes and `int(inttype)` succeeds, that request is the mapped one, and the row then ends as the server's reply to that request dictates (created, API error or exception); a passing row that sends nothing fails with the bad inttype |
| `Provisioner.Run` | auto-add-hosts.py:78-124 | the loop yields one outcome per row, and the counter ends at the number of rows that pass validation |
| `Provisioner.ProvisionHosts` | auto-add-hosts.py:78-124 | the imperative loop, with `continue` on skips and `i += 1` after the try, produces exactly the outcomes, sent requests and counter of the fold; `i` equals the number of rows passing validation |
| `Provisioner.RunSent` | auto-add-hosts.py:80-121 | the requests sent are exactly those of the rows that pass validation and have an integer inttype, in row order, independently of the server's answers |
| `Provisioner.CounterCountsNotSkipped` | auto-add-hosts.py:85-124 | the counter equals the number of rows whose outcome is not a skip: created, API error and exception rows all advance it |
| `Provisioner.RunPrefix` | auto-add-hosts.py:80-124 | running the first k rows yields the first k outcomes of the whole run |
| `Provisioner.OutcomeOfRow` | auto-add-hosts.py:80-121 | the outcome of row k is what that row does given only the requests sent before it; no earlier skip, API error or exception keeps it from being processed |
| `Provisioner.SkippedExactlyWhenInvalid` | auto-add-hosts.py:83-92 | within a run, row k is skipped for its field count exactly when it lacks 7 fields, and for a missing field exactly when one of the four required fields is empty |
| `Provisioner.ThreeRowScenario` | auto-add-hosts.py:78-124 | a file of a valid row, a six-field row and a row without ip sends exactly one request (for the first host), skips the other two with their reasons, and leaves the counter at 1, whatever the server answers |

## Left out

- The configuration directory check and the import of the server URL and credentials, with their `exit(1)` paths (lines 22-35): module loading, outside the per-row logic.
- Building and logging in the API client, and its transport (lines 51-52, 95): a foreign library over the network, modelled only as the server function the loop is given.
- Opening the file twice, the first counting pass (`linhas`) and CSV tokenising with its quoting rules (lines 59-71, 75-76), and the fatal handler around the file (lines 128-130): file I/O and library parsing; the model takes the rows as already tokenised. The count pass uses `,` as delimiter and the processing pass `;`, so nothing relates `linhas` to the number of rows processed.
- The progress bar's rendering, `bar.update` and `bar.finish` (lines 77, 124, 126): presentation only; the integer counter `i` is kept. `bar.update(i)` sits outside the per-row `try`, so an exception from it would end the whole run through lines 128-130; the model assumes it never raises, and its statement that no row keeps later rows from running rests on that assumption. It does raise when `i` passes the bar's maximum `linhas`, which can happen because the counting pass splits on `,` and the processing pass on `;`: a quoted field that spans lines under one delimiter and not the other (a dns field `a,"b` on one line and `a"` on the next gives two `;` rows of seven fields but one `,` record) makes more validated rows than counted records, and the run then stops before the remaining rows.
- The wording of the console messages and the final "Processing completed." line (lines 84, 91, 116, 118, 121, 132): output formatting. Which message a row prints is its outcome.
- IntLiteral.ParseInt: accepts only an optional sign and ASCII digits; Python's `int()` also accepts surrounding whitespace, underscores between digits and non-ASCII decimal digits, which the model treats as failures. In the other direction, current CPython's `int()` raises ValueError on a decimal text of more than 4300 digits, which the model accepts: for such an `inttype` the script sends no request and the row ends as a caught exception, while the model sends the request.
- JsonValue.Contains: decoded JSON numbers are integers only; floating-point values in a reply are not modelled.
- Exceptions outside `except Exception` (keyboard interrupt, system exit) and failures of console output itself are not modelled.
