# jirahhh, modelled in Dafny

jirahhh is a small command-line client for a Jira tracker. This project models
its core and proves properties of the model:

- **Configuration resolution** (`jirahhh/client.py`). The API token and the
  tracker URL come from an environment variable, else from the environment's
  section of the config, else an error. The proxy comes from the config
  section only. Custom-field ids and security levels come from top-level maps.
  The IPv4-only decision is a three-valued switch on `JIRAHHH_IPV4_ONLY`,
  with a config flag as the fallback. The IPv4 patch of name resolution
  happens at most once per process.
- **Issue payloads and projections** (`jirahhh/issues.py`). This covers:
  - the create payload and the update patch, built one key at a time;
  - the view, search and field-listing dictionaries built from what the
    tracker returns;
  - the raw API call: the method name, endpoint normalisation and response
    handling.
- **Choosing a description** (`jirahhh/convert.py`). The description comes
  from stdin, a file or inline text. A `.md` file is converted; `.txt` and
  extensionless files pass through.
- **Command-line overrides** (`jirahhh/cli.py`). A non-empty `--url`,
  `--proxy` or `--env` wins over the config.

Module layout:

| file | module | contents |
|---|---|---|
| `wrappers.dfy` | `Wrappers` | `Option`, `Result` |
| `errors.dfy` | `Errors` | the exceptions the code raises, as one `Error` datatype |
| `values.dfy` | `Values` | JSON/YAML values, Python truthiness, ASCII `lower`/`upper` |
| `client.dfy` | `Client` | `client.py`; the process-wide IPv4 flag is the class `Process` |
| `remote.dfy` | `Remote` | the tracker as the `jira` library presents it: class `Tracker` with canned answers and a log of every request |
| `issues.dfy` | `Issues` | `issues.py` |
| `convert.dfy` | `Convert` | `convert.py` |
| `cli.dfy` | `Cli` | the override rules of `cli.py` |

Each operation of `issues.py` that changes state is a method over a
`Remote.Tracker`. It builds its dictionary by successive inserts, as the
source does. Its contract does three things:

- it ties the result to a specification function;
- it states the exact requests appended to `jira.log`;
- for the read-only operations, it states that the number of writes in the
  log (`Remote.WriteCount`) is unchanged.

Lemmas then state what the specification functions contain.

A Python `None` config, `{}` as `custom_field_ids` and `{}` as
`additional_fields` are all the empty map, because the code tests each of
them for truthiness only. On an issue, an attribute is `Absent` (`hasattr`
is false), `Null`, or `Present`. Reading `.name` of a null status raises,
and the model represents that raise as an error.

## Model

| member | source | states |
|---|---|---|
| Values.Lower | jirahhh/client.py:52 | `.lower()`: same length, each ASCII letter lowered, no upper-case letter left |
| Values.Truthy | jirahhh/client.py:59 | Python's truth test: None, False, 0, "" and empty lists and dicts are false, everything else true |
| Values.Upper | jirahhh/issues.py:332 | `.upper()`: same length, each ASCII letter raised, no lower-case letter left |
| Values.UpperOfLower | jirahhh/issues.py:332 | upper-casing forgets an earlier lower-casing |
| Values.UpperFixed | jirahhh/issues.py:342-349 | a name without lower-case letters is its own upper case |
| Client.ShouldUseIpv4Only | jirahhh/client.py:41-62 | "1"/"true"/"yes" (any case) give true whatever the config says; "0"/"false"/"no" give false even when the config sets `ipv4_only`; anything else gives true exactly when the config is non-empty and `ipv4_only` is truthy |
| Client.Ipv4SwitchIgnoresCase | jirahhh/client.py:52-56 | "TRUE" beats a false config flag and "No" beats a true one |
| Client.Ipv4Filter | jirahhh/client.py:21-24 | a result is kept exactly when it is in the input and its family is AF_INET; the output is no longer than the input |
| Client.Ipv4FilterAppend | jirahhh/client.py:24 | the filter distributes over concatenation, so the kept results stay in their original order |
| Client.Ipv4FilterCount | jirahhh/client.py:24 | each IPv4 result is kept as many times as it occurs; every other result is dropped |
| Client.Ipv4FilterKeepsIpv4 | jirahhh/client.py:24 | an all-IPv4 answer passes unchanged |
| Client.Ipv4FilterIdempotent | jirahhh/client.py:24 | filtering twice is filtering once |
| Client.Proxies | jirahhh/client.py:81-86 | proxies exist exactly when the explicit proxy, HTTPS_PROXY or HTTP_PROXY is non-empty; that is also the order of precedence; "http" and "https" always get the same value |
| Client.Process.constructor | jirahhh/client.py:17-18 | a fresh process uses system resolution and has the flag cleared |
| Client.Process.EnableIpv4Only | jirahhh/client.py:27-38 | afterwards the flag is set and resolution is patched; when the flag was already set, nothing changes |
| Client.Process.GetAddrInfo | jirahhh/client.py:21-24 | once the flag is set, name resolution answers the system's answer filtered to IPv4; before that, the system's answer itself |
| Client.Process.GetJiraClient | jirahhh/client.py:65-99 | sets the options `{"server": url, "verify": True}` and token authentication; the proxies are `Proxies`; the flag is set afterwards exactly when it was set before or `ShouldUseIpv4Only` holds; otherwise the process is unchanged |
| Client.GetApiToken | jirahhh/client.py:139-162 | a non-empty JIRA_API_TOKEN wins; else a truthy `config[env].token`; a non-mapping section raises; otherwise the error names the variable, env and "token"; a returned token is truthy |
| Client.Section | jirahhh/client.py:153-155 | `config.get(env, {})` ready for `.get`: {} when the env is absent, its mapping when it is one, and the AttributeError of `.get` otherwise |
| Client.FromEnvOrConfig | jirahhh/client.py:153-160 | the precedence get_api_token and get_jira_url share: a non-empty variable, else a truthy `config[env][key]` of a non-empty config, else the error naming the variable, env and key |
| Client.GetJiraUrl | jirahhh/client.py:165-188 | the same precedence and errors with JIRA_URL and `config[env].url` |
| Client.GetProxyUrl | jirahhh/client.py:191-204 | `config[env].proxy` when present, else None; no environment variable is read; fails exactly when the section is not a mapping |
| Client.GetCustomFields | jirahhh/client.py:207-219 | the top-level `custom_fields` entry, else an empty mapping |
| Client.CustomFieldsIgnoreEnvironments | jirahhh/client.py:217-219 | changing an environment's section never changes the custom-field mapping |
| Client.GetSecurityLevel | jirahhh/client.py:222-235 | `security_levels.get(name)` from the top level, None without that map; a non-mapping value raises |
| Client.SecurityLevelIgnoresEnvironments | jirahhh/client.py:233-235 | changing an environment's section never changes the security-level lookup |
| Remote.WriteCount | jirahhh/issues.py:76 | the number of writes in a request log is zero exactly when no request is a create, an update or a non-GET raw call |
| Remote.WriteCountAppend | jirahhh/issues.py:119-120 | counting writes distributes over appending requests |
| Remote.Tracker.Issue | jirahhh/issues.py:105 | `jira.issue(key)`: logs one fetch; the issue, or NotFound for an unknown key |
| Remote.Tracker.CreateIssue | jirahhh/issues.py:76 | `jira.create_issue(fields=...)`: logs one create holding the payload; answers the new identity or the tracker's error |
| Remote.Tracker.Update | jirahhh/issues.py:119-120 | `issue.update(fields=...)`: logs one update of that issue with the patch; answers the tracker's error, if any |
| Remote.Tracker.SearchIssues | jirahhh/issues.py:231-235 | `jira.search_issues(...)`: logs one query with its JQL, limit and field list; answers the hits or the tracker's error |
| Remote.Tracker.Fields | jirahhh/issues.py:274 | `jira.fields()`: logs one request; answers the field definitions or the tracker's error |
| Remote.Tracker.Createmeta | jirahhh/issues.py:281-285 | `jira.createmeta(...)`: logs one request with the project key and issue type; answers the metadata, nothing, or an error |
| Remote.Tracker.Send | jirahhh/issues.py:342-349 | `jira._session.<method>(url[, json=data])`: logs one raw request with its verb, URL and body; answers the response |
| Issues.RefObject | jirahhh/issues.py:78 | `{"id", "key", "self"}` of the issue, and nothing else |
| Issues.MappedEntry | jirahhh/issues.py:62-69 | a logical field adds exactly one key, its mapped id, and only when it is written and mapped |
| Issues.CreateBase | jirahhh/issues.py:50-55 | the four mandatory fields: project by key, summary, issue type by name, description |
| Issues.CreateSecured | jirahhh/issues.py:58-59 | "security" as `{"id": level}` added exactly when the level id is truthy |
| Issues.CreateMapped | jirahhh/issues.py:62-69 | then the four logical fields, in source order, each under its mapped id when truthy and mapped |
| Issues.CreatePayload | jirahhh/issues.py:50-73 | every additional field is present with its own value; every other key is as the mandatory, security and logical fields left it |
| Issues.CreatePayloadKeys | jirahhh/issues.py:50-73 | a key is present exactly when it is mandatory, or "security" with a truthy level id, or a written logical field's id, or an additional key |
| Issues.CreatePayloadMandatory | jirahhh/issues.py:50-55 | project key, summary, issue type and description carry the arguments unless an additional or logical field takes the key |
| Issues.CreatePayloadSecurity | jirahhh/issues.py:58-59 | "security" is `{"id": level}` when the level id is truthy, and absent otherwise (unless replaced) |
| Issues.PayloadKeepsBase | jirahhh/issues.py:50-73 | a mandatory key that no logical or additional field takes keeps its mandatory value |
| Issues.MappedUntouched | jirahhh/issues.py:62-69 | a key no logical field writes keeps its earlier value |
| Issues.CreatePayloadLogical | jirahhh/issues.py:62-69 | a written logical field carries its value unless a later logical field or an additional field takes the same id |
| Issues.CreateSummaryOverride | jirahhh/issues.py:72-73 | an additional "summary" replaces the summary argument |
| Issues.AddLogicalFields | jirahhh/issues.py:62-69 | the four in-place writes of logical fields give `CreateMapped` |
| Issues.CreateIssue | jirahhh/issues.py:12-78 | submits exactly one create request holding `CreatePayload`; fails exactly when the tracker rejects it, with the tracker's error; otherwise returns the new issue's identity |
| Issues.UpdatePatch | jirahhh/issues.py:107-117 | every additional field is present with its own value |
| Issues.UpdatePatchKeys | jirahhh/issues.py:109-117 | a key is present exactly when it is a given summary or description, the mapped id of given acceptance criteria, or an additional key |
| Issues.UpdatePatchValues | jirahhh/issues.py:109-114 | each given argument carries its value unless a later entry takes its key |
| Issues.UpdatePatchEmpty | jirahhh/issues.py:109-119 | the patch is empty exactly when summary and description are None, acceptance criteria are None or unmapped, and there are no additional fields |
| Issues.NothingToUpdateEmptyPatch | jirahhh/issues.py:109-119 | with every argument None, the patch is empty |
| Issues.BuildUpdatePatch | jirahhh/issues.py:107-117 | the patch built one key at a time is `UpdatePatch` |
| Issues.UpdateIssue | jirahhh/issues.py:81-122 | fetches once; an unknown key fails with nothing written; else writes the patch only when it is non-empty, fails with the tracker's error when that write is rejected, and otherwise returns the identity; with nothing to update, the write count is unchanged |
| Issues.Put | jirahhh/issues.py:161-210 | a conditional insert adds its key, with its value, exactly when the condition holds; every other key keeps its value |
| Issues.ViewBase | jirahhh/issues.py:148-158 | the seven keys every view carries; none of key, id, self or description is null |
| Issues.PeopleLayerKeys | jirahhh/issues.py:161-177 | the people step adds exactly assignee, reporter, priority and security, each when present and truthy |
| Issues.CustomLayerKeys | jirahhh/issues.py:180-202 | the custom-field step adds exactly the logical names whose mapped attribute exists and is truthy |
| Issues.ListLayerKeys | jirahhh/issues.py:205-210 | the list step adds exactly labels and components, each when present and non-empty |
| Issues.PeopleLayerKeeps | jirahhh/issues.py:161-177 | the people step leaves every other key as it was |
| Issues.CustomLayerKeeps | jirahhh/issues.py:180-202 | the custom-field step leaves every other key as it was |
| Issues.ListLayerKeeps | jirahhh/issues.py:205-210 | the list step leaves every other key as it was |
| Issues.PeopleLayerNonNull | jirahhh/issues.py:161-177 | the people step adds no null |
| Issues.CustomLayerNonNull | jirahhh/issues.py:180-202 | the custom-field step adds no null, since only truthy values are written |
| Issues.ListLayerNonNull | jirahhh/issues.py:205-210 | the list step adds no null |
| Issues.PeopleLayerValues | jirahhh/issues.py:161-177 | display names for assignee and reporter, the priority name, and `{"id", "name"}` for security |
| Issues.CustomLayerValues | jirahhh/issues.py:180-202 | each custom value is the attribute's own value, with parent_link reported as "parent" |
| Issues.ListLayerValues | jirahhh/issues.py:205-210 | the labels as given, and the names of the components in order |
| Issues.ViewSuccess | jirahhh/issues.py:148-210 | a successful view is the base object with the people, custom-field and list steps applied in order |
| Issues.ViewBaseKept | jirahhh/issues.py:148-158 | every base key keeps the value it was given first: no later step overwrites it |
| Issues.View | jirahhh/issues.py:148-158 | fails exactly when status or issue type is null, and names the first null one |
| Issues.NameOrNull | jirahhh/issues.py:153-156 | the `.name` of a present attribute, None when absent, and the AttributeError of reading through a null |
| Issues.CustomValue | jirahhh/issues.py:180-202 | a logical field's value when it is mapped, the issue has the mapped attribute, and the value is truthy |
| Issues.ViewPeople | jirahhh/issues.py:161-177 | assignee, reporter, priority and security inserted in source order, each when present |
| Issues.ViewCustom | jirahhh/issues.py:180-202 | the four mapped custom fields inserted in source order, parent_link under "parent" |
| Issues.ViewLists | jirahhh/issues.py:205-210 | labels and component names inserted when non-empty |
| Issues.ViewOf | jirahhh/issues.py:148-210 | the base object followed by the people, custom-field and list steps |
| Issues.ViewKeys | jirahhh/issues.py:148-210 | the keys are the seven base keys plus exactly the optional keys whose attribute is present and truthy |
| Issues.ViewNeverNull | jirahhh/issues.py:157-210 | apart from summary, status and type, no key of the view is null |
| Issues.ViewCommon | jirahhh/issues.py:148-158 | key, id, self and summary are the issue's; description is its text, or "" when it is absent or null |
| Issues.ViewStatusType | jirahhh/issues.py:153-156 | status and type are the names, or null when the attribute is absent |
| Issues.ViewOptional | jirahhh/issues.py:161-177 | assignee, reporter, priority, security, labels and component names carry the issue's values when present |
| Issues.ViewCustomFields | jirahhh/issues.py:180-202 | a mapped custom field that exists and is truthy appears under its logical name, with parent_link as "parent" |
| Issues.AddPeople | jirahhh/issues.py:161-177 | the in-place inserts give `ViewPeople` |
| Issues.AddCustomFields | jirahhh/issues.py:180-202 | the in-place inserts give `ViewCustom` |
| Issues.AddLists | jirahhh/issues.py:205-210 | the in-place inserts give `ViewLists` |
| Issues.ViewIssue | jirahhh/issues.py:125-212 | fetches once with the requested fields, or "*all" when none are given; an unknown key fails; the result is `View`; nothing is written |
| Issues.SearchItem | jirahhh/issues.py:239-252 | fails exactly when the summary attribute is absent |
| Issues.SearchItemKeys | jirahhh/issues.py:239-252 | key and summary always; status, type, assignee and priority exactly when present and truthy |
| Issues.SearchItemValues | jirahhh/issues.py:239-252 | every value is the issue's own; only the summary can be null |
| Issues.SearchItems | jirahhh/issues.py:237-254 | one result per hit, in hit order; fails exactly when some hit lacks a summary |
| Issues.SearchListing | jirahhh/issues.py:237-256 | exactly "total" and "issues"; total is the number of hits; item i of the list is the search result of hit i |
| Issues.SearchItemsSnoc | jirahhh/issues.py:238-254 | a further good hit appends its item to the results |
| Issues.SearchFailsAt | jirahhh/issues.py:241 | one hit without a summary makes the whole search raise |
| Issues.BuildSearchItem | jirahhh/issues.py:239-252 | the in-place inserts give `SearchItem` |
| Issues.SearchIssues | jirahhh/issues.py:215-256 | one query, with the default field selection when none is given; a rejected query fails with the tracker's error; otherwise the result is `SearchListing` of the hits; nothing is written |
| Issues.AvailableFields | jirahhh/issues.py:277-294 | metadata exists exactly when createmeta answered with a project that has an issue type; it is the first issue type's fields, or {} |
| Issues.FieldInfoShape | jirahhh/issues.py:299-304 | exactly id, name, custom and schema, plus required and operations when the metadata describes the field; id and name as sent; custom and schema as sent, else false and {} |
| Issues.FieldInfoMeta | jirahhh/issues.py:307-310 | for a field the metadata describes: required and operations as the metadata sent them, else false and [] |
| Issues.FieldsListing | jirahhh/issues.py:297-314 | exactly "total" and "fields"; total is the number of fields; one entry per field, in order |
| Issues.FieldInfo | jirahhh/issues.py:299-310 | one field entry as the loop body builds it; its contents are stated by `FieldInfoShape` and `FieldInfoMeta` |
| Issues.FieldsWithoutMetadata | jirahhh/issues.py:292-294 | a failed or empty createmeta gives the same listing as no project |
| Issues.GetFields | jirahhh/issues.py:259-314 | lists the fields, failing with the tracker's error before createmeta when that is rejected; asks createmeta only when a project key is given; the result is `FieldsListing`; nothing is written |
| Issues.NormalizeEndpoint | jirahhh/issues.py:335-336 | the result starts with "/"; it is the endpoint itself exactly when that already starts with "/", else "/" + endpoint |
| Issues.NormalizeEndpointIdempotent | jirahhh/issues.py:335-336 | normalising twice is normalising once |
| Issues.NormalizeEndpointExample | jirahhh/issues.py:335-336 | "rest/api/2/issue/X-1" gains its slash; "/rest/api/2/myself" is kept |
| Issues.ParseVerb | jirahhh/issues.py:332-351 | accepts exactly the names whose upper case is GET, POST, PUT or DELETE; otherwise the error names the upper-cased method |
| Issues.ParseVerbName | jirahhh/issues.py:342-349 | each accepted method parses back from its own name |
| Issues.ParseVerbIgnoresCase | jirahhh/issues.py:332 | the method is matched case-insensitively |
| Issues.RequestBody | jirahhh/issues.py:342-349 | the data goes only with POST and PUT |
| Issues.ResponseValue | jirahhh/issues.py:356-362 | a 4xx or 5xx status raises; else the JSON body, or `{"status_code", "text"}` when the body is not JSON |
| Issues.CallApi | jirahhh/issues.py:317-362 | an unsupported method fails before any request; otherwise one request to server + normalised endpoint with `RequestBody`, and the result is `ResponseValue`; a GET writes nothing |
| Convert.LastIndexOf | jirahhh/convert.py:27 | the last position of the character, or -1 when it does not occur |
| Convert.LastIndexOfAt | jirahhh/convert.py:27 | where the last occurrence is, LastIndexOf finds it |
| Convert.Ext | jirahhh/convert.py:27 | the extension is "" or a suffix of the path that starts with "." and holds no other "." and no "/" |
| Convert.ExtFound | jirahhh/convert.py:27 | a last dot in the file name, after a non-dot character of that name, starts the extension |
| Convert.ExtNone | jirahhh/convert.py:27 | a file name without a dot has no extension |
| Convert.ExtExamples | jirahhh/convert.py:27 | "notes.md" gives ".md", "archive.tar.gz" gives ".gz"; "README", ".bashrc" and "docs.d/README" give "" |
| Convert.ByExtension | jirahhh/convert.py:26-38 | the lower-cased extension decides: ".md" gives the converter output, ".txt" or none gives the text unchanged, any other extension is unsupported and the error names it |
| Convert.ConvertToJira | jirahhh/convert.py:11-57 | the only error is an unsupported extension |
| Convert.ReadDescription | jirahhh/convert.py:60-88 | the only errors are an unsupported extension, an unopenable file and no source |
| Convert.StdinVerbatim | jirahhh/convert.py:77-78 | "-" returns stdin verbatim, whatever the inline text |
| Convert.FilePathWins | jirahhh/convert.py:76-86 | with a non-empty file path, the inline text makes no difference |
| Convert.NoSourceIffNeither | jirahhh/convert.py:76-88 | the no-source error happens exactly when neither source is given |
| Convert.FileByExtension | jirahhh/convert.py:79-83 | a readable file is decided by its extension, and its contents pass through for ".txt" or none |
| Convert.MissingFileFails | jirahhh/convert.py:81-82 | a path that cannot be opened fails |
| Convert.InlinePassesThrough | jirahhh/convert.py:41-57 | inline text that names no existing file is returned unchanged |
| Convert.InlineNamesFile | jirahhh/convert.py:41-53 | inline text naming a ".txt" or extensionless file gives that file's contents; a ".md" file gives the converter output; another extension is unsupported |
| Convert.UpperCaseMarkdown | jirahhh/convert.py:27-29 | "NOTES.MD" is converted as Markdown |
| Cli.JiraUrlFor | jirahhh/cli.py:94 | a non-empty `--url` wins over `get_jira_url` |
| Cli.ProxyFor | jirahhh/cli.py:100-104 | a non-empty `--proxy` wins over `get_proxy_url` |
| Cli.EnvName | jirahhh/cli.py:656-662 | a non-empty `--env` wins; else the configuration's `default_env` when truthy; else the "--env is required" error; a configuration file that loads as None raises first |
| Cli.CliProxyWins | jirahhh/cli.py:100-104 | a command-line proxy reaches the client for both schemes, ahead of HTTPS_PROXY |

## Left out

- Reading the config (`load_config`, YAML parsing, probing for files) is left out; the config is an input map.
- Environment variables are an input map. In the code, a set but empty variable and an unset one behave alike, so the map only has to follow that rule.
- The pandoc converter is an input function applied to a file's contents.
- Stdin is an input string.
- A file is either regular and readable, or absent. Directories, FIFOs and unreadable files are not modelled.
- Constructing the `JIRA` client, its HTTP session and the network are left out. The tracker's answers are fixed inputs of `Remote.Tracker`.
- How the tracker evaluates JQL, applies `maxResults`, restricts attributes to the requested field selection, or applies a write is not modelled.
- Timing and logging are left out.
- `socket.getaddrinfo` itself is not modelled: the patch is modelled only as the installed resolver and the list filter.
- Case conversion is ASCII-only, and floats are not among the modelled values.
- Dictionary key order is not modelled: results are maps.
- Values.Lower: agrees with Python's `str.lower` on ASCII letters only.
- Values.Upper: agrees with Python's `str.upper` on ASCII letters only. Python also maps, for example, "ä" to "Ä", "ſ" to "S" and "ﬆ" to "ST", so `call_api` with "poſt" posts in Python but is `UnsupportedMethod` in the model. From the command line such input never reaches `call_api`: argparse's `choices` (cli.py:632-634) accept only the four upper-case names.
- Cli.EnvName: a configuration file that loads as something other than a mapping or None (a list, say) also raises at cli.py:660; the model's `loaded` argument folds every such load into None.
- Issues.View: treats a custom field id that equals a standard attribute name (for example "summary") as a separate attribute.
- Issues.CallApi: models neither `raise_for_status` nor JSON decoding as library behaviour. Both are taken from the response record: the status range 400-599 raises, and `json` is present when the body decodes.
- cli.py calls the client with arguments that client.py does not accept. Only client.py's own behaviour is modelled here. The mismatches are:
  - `get_custom_fields(args.env, config)` at cli.py:111;
  - `get_security_level(..., env=...)` at cli.py:112;
  - `get_jira_client(..., email=...)` at cli.py:108;
  - the imports of `get_email` and `add_comment`, which client.py and issues.py do not define.
- cli.py passes the environment name to `get_custom_fields` (cli.py:111, 186, 235), and its `--env` help (cli.py:495-499) calls it the "Environment name from config file". That suggests custom fields could also come from the environment's section. client.py reads only the top-level maps, and the model follows client.py (`Client.CustomFieldsIgnoreEnvironments`, `Client.SecurityLevelIgnoresEnvironments`).
- Email or basic authentication does not appear in `get_jira_client`, and is not modelled.
