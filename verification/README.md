# WikiMed MCP adapter: request translation, modelled in Dafny

The adapter turns typed tool calls into requests to the clinic backend (WikiMed).
That backend has a single endpoint and uses parameter codes. This project models
the request-translation layer of `server/app.py` and proves properties of it.
The model has three parts:

- **Client configuration store.** Each client id maps to a backend address and a
  site code. The site code is the hospital code, sent as `HCode`. An empty or
  unknown client id resolves to one built-in default:
  `http://edrak1.selfip.com:64384` with code `13745064`. `configure_client`
  tests the client id, then the address, then the site code for emptiness. Only
  when all three are non-empty does it insert or overwrite the entry.
  The store is modelled as the class `ClientStore`, holding a
  `map<string, Config>` field.
- **Tools.** Each tool tests its required arguments in the source's order and
  refuses the call before any request is made. Otherwise it builds a flat
  parameter map. The map holds the tool's operation code under `MType`, fixed
  field names, and each optional field only when its value is non-empty.
  `Tools.Fields` is the declarative reference for that shape. Each tool with
  arguments has a contract equating its map with `Fields` applied to the
  tool's fixed and optional fields. Search and invoice do this through
  `Tools.IdentifierParams`. The three tools without arguments (info, list
  doctors, restart) have no tool function. They are arms of `Catalog.Build`,
  and `Catalog.ArgumentlessToolsNeverFail` states that each sends only its
  operation code. `Catalog.Tool` turns the string-named tools into one closed
  datatype. `Catalog.OpCode` is the table of operation codes.
- **Site-code injection.** A tool call resolves the caller's configuration. It
  adds that configuration's site code under `HCode` only if the parameters do
  not already contain one. It then hands the address and the parameters to the
  transport.

The model follows what the code does:

- Dates and times are checked only for non-emptiness. The error text mentions
  `DD/MM/YYYY`, but no format is checked.
- `search_patient` and `get_patient_invoice` send every non-empty identifier.
  They do not pick the first one.
- There is no separate classification of backend errors.

Errors are tags (`Validation.ToolError`) that name the missing or invalid
argument. They are not the JSON text the adapter returns.

## Model

| member | source | states |
|---|---|---|
| `Validation.FirstMissing` | server/app.py:128-135 | None exactly when every required argument is non-empty; otherwise the argument reported is empty and every argument tested before it is non-empty, and the first empty argument is always the one reported |
| `ClientConfig.ValidateConfig` | server/app.py:66-71 | configure_client reports an empty client id first, then an empty base URL, then an empty site code, and passes exactly when all three are non-empty |
| `ClientConfig.ClientStore.constructor` | server/app.py:18 | the store starts empty and satisfies its invariant |
| `ClientConfig.ClientStore.Resolve` | server/app.py:21-25 | an empty or unconfigured id yields the built-in default; a configured id yields exactly its stored entry; under the store invariant the result always has a non-empty address and site code |
| `ClientConfig.ClientStore.Configure` | server/app.py:64-81 | on every error path the store is unchanged and the error names the first empty argument; on success the entry is inserted or overwritten, the id then resolves to the new configuration (last write wins), every other id resolves as before, and the invariant is kept |
| `ClientConfig.ClientStore.MakeRequest` | server/app.py:38-44 | the request goes to the resolved address; its parameters are the given ones plus `HCode`; an `HCode` already present is kept, otherwise the resolved site code is added; no other parameter changes |
| `ClientConfig.ClientStore.Invoke` | server/app.py:38-48 | a refused tool makes no request and reports the tool's own error; otherwise the request goes to the caller's resolved address with the tool's parameters, its operation code, and the caller's site code under `HCode` |
| `ClientConfig.ConfigureThenListDoctors` | server/app.py:91-95 | after configuring a client, its list_doctors request is exactly its own address with `MType` 500 and its own site code |
| `Tools.Fields` | server/app.py:146-149 | the built map has every fixed field with its value, and an optional field exactly when that field's value is non-empty |
| `Tools.AddIfPresentKeepsShape` | server/app.py:146-149 | one conditional insertion of a new optional field keeps the map in the reference shape, with that field now among the optional ones |
| `Tools.FindDoctorByName` | server/app.py:98-104 | fails exactly on an empty name, naming it; otherwise sends `MType` 600 and `DoctorName` only |
| `Tools.FindDoctorByCode` | server/app.py:107-113 | fails exactly on an empty code, naming it; otherwise sends `MType` 600 and `DoctorCode` only |
| `Tools.AppointmentParams` | server/app.py:137-149 | create_appointment sends `MType` 700, the four required fields and `IDBranch`, plus `PatientName` and `SocialID` exactly when non-empty |
| `Tools.CreateAppointment` | server/app.py:128-151 | succeeds exactly when doctor code, phone, date and time are all non-empty; otherwise each error fires exactly when its argument is the first empty one in that order; on success the map is the appointment parameters |
| `Tools.FindNearestSlot` | server/app.py:158-166 | fails exactly on an empty doctor code; otherwise sends `MType` 800 and `DoctorCode`, plus `PreferredDate` exactly when non-empty |
| `Tools.ConfirmAppointment` | server/app.py:173-180 | an empty appointment number is reported first, then an action outside confirm/cancel/update; otherwise it sends exactly `MType` 900, `AppointmentNumber` and `Action` |
| `Tools.GetAppointment` | server/app.py:185-190 | fails exactly on an empty appointment number; otherwise sends `MType` 910 and `AppointmentNumber` only |
| `Tools.ListAppointments` | server/app.py:197-207 | fails exactly on an empty date; otherwise sends `MType` 1000 and `Date`, plus `DoctorCode` and `IDBranch` each exactly when non-empty |
| `Tools.IdentifierParams` | server/app.py:263-269 | the lookup sends its operation code plus exactly the non-empty ones among `FileNo`, `Phone` and `SocialID`, with no tie-break |
| `Tools.ByPatientIdentifiers` | server/app.py:258-269 | fails, with the no-identifier error, exactly when all three identifiers are empty; otherwise sends the identifier parameters |
| `Tools.SearchPatient` | server/app.py:253-271 | fails with the no-identifier error exactly when all three identifiers are empty; otherwise sends `MType` 1100 plus exactly the non-empty ones among `FileNo`, `Phone` and `SocialID` |
| `Tools.PatientInvoice` | server/app.py:210-233 | fails with the no-identifier error exactly when all three identifiers are empty; otherwise sends `MType` 1200 plus exactly the non-empty ones among `FileNo`, `Phone` and `SocialID`, and no `ReportType`, unlike the daily-income report that shares the code |
| `Tools.DailyIncome` | server/app.py:236-243 | fails exactly on an empty date; otherwise sends exactly `MType` 1200, `Date` and `ReportType` DailyIncome |
| `Catalog.BuildCarriesOpCode` | server/app.py:84-271 | every tool's built map carries that tool's operation code from the catalog table (100, 500, 600, 600, 700, 800, 900, 910, 1000, 1100, 1200, 1200, 1300) and never an `HCode` of its own |
| `Catalog.ArgumentlessToolsNeverFail` | server/app.py:84-250 | info, list doctors and restart are never refused and send only their operation code |

## Left out

- The HTTP transport is not modelled: the `httpx` GET with its 30-second timeout, `raise_for_status`, the exception handlers, and the content-type test on the reply. It is network I/O and asynchronous. `Invoke` stops at the `Request` (address and parameters) handed to the transport.
- XML-to-JSON conversion (`convert_xml_to_json`) is not modelled. It is a thin wrapper over the foreign libraries `xmltodict` and `json`, whose behaviour is not part of this model.
- Exact error and success texts are not modelled. These are JSON strings built with `json.dumps`, and errors are modelled as tags naming the field.
- Logging, the `FastMCP` instance and the tool registration are framework bootstrap.
- Concurrency is left out: the store is one object updated by one call at a time.
- Python's keyword defaults are not modelled: `branch_id` "1" in create_appointment and `action` "confirm" in confirm_appointment. Every tool function takes all of its arguments. As in the source, an empty `branch_id` given to create_appointment is sent as an empty `IDBranch`.
- The test `"hcode" in config` in make_wikimed_request is always true in the model. Every `Config`, stored or default, has a site code.
- The in-place mutation of the caller's `params` dict in make_wikimed_request is modelled on values. Each tool builds a fresh dict and never reads it again, so no caller can observe the mutation.
