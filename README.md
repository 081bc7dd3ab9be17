# list_candidates — a Dafny model

This project models the `list_candidates` tool of a recruiting MCP server (`server.ts`).

A tool call goes through these steps:

1. The arguments are checked against the tool's schema.
2. The handler either returns the candidates already in the recruiting pipeline, or calls the Apify lead scraper with a payload built from the supplied filters.
3. Scraped leads are normalised into candidates: identifier, years of experience, location, skills and stage.
4. The result carries a summary line and the rendering hints of the `recruiting` widget.

The model also covers the server's widget registry. At start-up, every `.html` asset becomes an entry of a map keyed by `ui://widget/<app>.html` and a resource in a listing. The resource-read handler looks a URI up in that map.

Modules:

- `Wrappers` — `Option` and `Result`.
- `Text` — decimal rendering of an index and reading it back; taking a string up to a separator; ASCII upper-casing.
- `Candidates` — `Lead`, `Candidate`, the lead-to-candidate mapping and the batch mapping.
- `Request` — the filters, the schema constraints, validation, and the payload builder.
  - The payload builder is a method that makes one conditional assignment per field, like the handler.
- `Widgets` — Node's `path.basename`, the per-file registration, and the `WidgetRegistry` class.
  - The class holds the `widgetsByUri` map and the `resources` list and updates both in place.
- `ListCandidatesTool` — the handler, the error message, the summary line, and a whole tool call.
  - A whole tool call is validation followed by the handler.

The scraper and the local candidate store are parameters of the handler.

- The scraper is a function from payload to `Result<seq<Lead>, Option<string>>`. A `None` cause means that what was thrown was not an `Error`.
- The handler also returns the list of I/O calls it made. This lets the contracts state that exactly one I/O call happens, and that none happens when validation fails.

Three details of the code that the model keeps:

- The employee-size labels are spelled as in `server.ts:183-191`: `"2 - 10"`, `"11 - 50"` and so on, with spaces.
- Nothing in the code makes a candidate's `name` non-empty. `name` is the lead's `fullName` unchanged, so the model promises no non-empty name.
- Reading back the hints of a widget stored from a file named exactly `.html` does not give its URI. Node's `basename("ui://widget/.html", ".html")` is `".html"`, not `""`. `TemplateOfHtml` therefore requires a name other than `.html`.

## Model

| member | source | states |
|---|---|---|
| Candidates.YearsOfExperience | server.ts:99-108 | The result is always one of 2, 5, 7, 10, 15. It is 15 exactly for "C-Suite" and "VP", 10 exactly for "Director", 7 exactly for "Manager" and 5 exactly for "Senior". It is 2 exactly for every other label, including "Entry" and unknown strings. |
| Candidates.CandidateId | server.ts:111 | The identifier starts with `apify-`, the decimal index and a `-`, ends with `-` followed by the email, and has no other characters. |
| Candidates.CandidateIdIndex | server.ts:111 | The batch index can be read back from `apify-<index>-<email>`, whatever the email, because the decimal index contains no `-`. |
| Candidates.CandidateIdsDistinct | server.ts:111 | Leads at distinct indices get distinct identifiers, even when their emails are equal or overlap. |
| Candidates.Skills | server.ts:118 | Keeps the functional area then the industry, dropping absent or empty ones. The count is the number of truthy fields, `""` is never included, and every element is one of the two fields. |
| Candidates.LeadToCandidate | server.ts:84-121 | Every candidate field as the lead gives it. The identifier encodes the index. The phone is `""` unless truthy. The location is `city + ", " + state`. The years come from the lookup. The skills come from the filter. The stage is "Screening". |
| Candidates.Normalise | server.ts:278 | The batch keeps its length. Candidate k carries index k in its identifier and has stage "Screening". |
| Candidates.NormaliseAt | server.ts:278 | Candidate k is lead k normalised at index k. |
| Candidates.NormaliseIdsUnique | server.ts:278 | Identifiers are pairwise distinct within a batch. |
| Candidates.NormaliseAppend | server.ts:278 | Appending a lead leaves the earlier candidates unchanged and adds that lead normalised at the old length. |
| Candidates.DirectorInAustin | server.ts:99-118 | A Director in Austin, TX with functional "Engineering" and an empty industry gets 10 years, location "Austin, TX" and skills ["Engineering"]. |
| Text.NatToString | server.ts:111 | The rendering is a non-empty string of decimal digits with no leading zero, one digit long exactly for numbers below 10. It is also the count rendered at server.ts:292. |
| Text.ParseNatToString | server.ts:111 | Reading back the decimal rendering of an index gives the index. |
| Text.NatToStringInjective | server.ts:111 | Distinct indices render to distinct decimal strings. |
| Text.ToUpperAscii | server.ts:66 | Lower-case ASCII letters map to their upper-case letter. Every other character is unchanged. |
| Request.InvalidFields | server.ts:137-230 | The list of rejected fields is empty exactly when the filters satisfy every constraint of the schema. It names only constrained fields. |
| Request.InvalidFieldsNamed | server.ts:137-230 | Each constrained field is rejected exactly when it breaks its own constraint: `seniority`, `functional`, `companyEmployeeSize` and `contactEmailStatus` when a label is outside their enumeration, `totalResults` when it lies outside 1..50000. |
| Request.RejectedNamesExact | server.ts:137-230 | A field name is in the rejection list exactly when its own check failed. |
| Request.Validate | server.ts:129-239 | Succeeds exactly when the filters are valid. The filters pass through unchanged. The mode flag is true exactly when the caller passed `true`, and defaults to false. A failure names at least one field. |
| Request.TotalResultsBoundary | server.ts:222-230 | With the other filters valid, a `totalResults` of n is accepted exactly when 1 <= n <= 50000. So 1 and 50000 pass, and 0 and 50001 fail. |
| Request.PayloadKey.Name | server.ts:254-274 | No payload key is sent as `useExistingCandidates`. |
| Request.PayloadKeyNamesDistinct | server.ts:255-274 | Distinct payload keys are sent under distinct property names. |
| Request.CopyIfSupplied | server.ts:255-274 | One conditional assignment keeps the invariant for the keys handled so far. Each such key is present exactly when its field was supplied, with the supplied value, and no other key is present. |
| Request.BuildPayload | server.ts:254-274 | The payload holds a key exactly when the caller supplied that field, with the value unchanged, and no other key. |
| Request.PayloadUnique | server.ts:254-274 | The payload is determined by the filters. |
| Request.SuppliedListCopied | server.ts:255-271 | A list filter is in the payload exactly when supplied, with the supplied labels unchanged. An empty list is copied too, since an array is truthy. |
| Request.PersonFiltersCopied | server.ts:255-260 | `personTitle`, `seniority`, `functional`, `personCountry`, `personState` and `personCity` are each copied exactly when supplied, unchanged. |
| Request.CompanyFiltersCopied | server.ts:261-269 | `companyKeyword`, `companyIndustry`, `companyEmployeeSize`, `companyDomain`, `companyCountry`, `companyState` and `companyCity` are each copied exactly when supplied, unchanged. |
| Request.QualityFiltersCopied | server.ts:270-273 | `contactEmailStatus` is copied exactly when supplied. `hasEmail` and `hasPhone` are copied exactly when present, including when they are `false`. |
| Request.ValidPayloadCopiesCount | server.ts:274 | For validated filters, `totalResults` is copied exactly when supplied, unchanged, since a valid count is never 0. |
| Widgets.WidgetMetaFor | server.ts:36-45 | The output template of an app's hints is that app's widget URI, and the widget is marked accessible and able to produce a widget. |
| Widgets.WidgetTitle | server.ts:66 | The title is the app name with its first character upper-cased, followed by " Widget". |
| Widgets.Basename | server.ts:60 | The basename contains no `/` and is a prefix of the path's last segment. |
| Widgets.AppName | server.ts:60 | An app name contains no `/`. |
| Widgets.HtmlFiles | server.ts:58 | The filter keeps at most as many files as listed, and every kept name ends in ".html". |
| Widgets.HtmlFilesSingle | server.ts:58 | A one-file listing keeps its file exactly when the name ends in ".html". |
| Widgets.HtmlFilesAppend | server.ts:58 | Filtering a concatenation is the concatenation of the filtered parts, so the kept files stay in listing order, duplicates included. |
| Widgets.HtmlFilesMembers | server.ts:58 | The filter keeps exactly the listed files whose name ends in ".html". |
| Widgets.HtmlFilesDistinct | server.ts:58 | Filtering a listing with distinct names keeps the names distinct. |
| Widgets.EntryFor | server.ts:59-67 | The stored entry names the file's URI as its template, holds the file's HTML, and carries the widget title of the file's app name. |
| Widgets.ResourceFor | server.ts:68-77 | The listed resource has the file's URI and the MIME type "text/html+skybridge". |
| Widgets.RegistrationFor | server.ts:59-77 | The entry and the resource of one file both name the URI they are stored under. |
| Widgets.Insert | server.ts:63 | Storing entries keeps every earlier key, and the last entry stored is the one found under its URI. |
| Widgets.Register | server.ts:58-67 | Loading keeps every earlier key, and the last file loaded is found under its URI with its own entry. |
| Widgets.InsertKeys | server.ts:63 | Storing a sequence of entries adds exactly their URIs to the map's keys. |
| Widgets.InsertLookup | server.ts:63 | An entry that no later entry overrides is the one found under its URI. |
| Widgets.RegistrationUris | server.ts:59-63 | The registrations of a listing carry exactly the URIs of its files. |
| Widgets.RegisterKeys | server.ts:56-79 | Loading adds exactly the URIs of the loaded files to the map's keys. |
| Widgets.ResourcesForAt | server.ts:68-77 | One resource is listed per file, in order, and resource k is the one for file k. |
| Widgets.AfterLastSlashOfPlain | server.ts:60 | After a path that ends in a slash, a slash-free name is the last segment. |
| Widgets.BasenameRestores | server.ts:60 | For a plain name ending in the extension, `basename(name, ext) + ext` is the name again. |
| Widgets.EntryUriOfHtml | server.ts:60-61 | A plain ".html" file is served at `ui://widget/` followed by its own name. |
| Widgets.EntryUrisDistinct | server.ts:60-61 | Distinct plain ".html" names get distinct URIs. |
| Widgets.TemplateOfHtml | server.ts:329 | Reading back the basename of a registered URI gives the file's app name. So the hints returned by a read name the entry's own URI, for every name other than ".html". |
| Widgets.RegisterLookup | server.ts:58-67 | With distinct plain ".html" names, every file's URI is a key after loading and maps to that file's entry. |
| Widgets.AddPreservesConsistent | server.ts:63-77 | Storing an entry under its own URI and listing a resource with that URI keeps the stored URIs equal to the listed ones, with every entry naming its own URI. |
| Widgets.WidgetRegistry.constructor | server.ts:53-54 | The registry starts with an empty map and an empty listing, and is consistent. |
| Widgets.WidgetRegistry.LoadAll | server.ts:56-79 | A missing assets directory changes nothing. Otherwise the map is the old map with the ".html" files registered in order, the listing has one resource per such file appended, and consistency is kept. |
| Widgets.InsertStep | server.ts:63 | Storing one more registration is one more map update under its URI. |
| Widgets.WidgetRegistry.StoreAll | server.ts:58-78 | The loop stores every registration in order. The new map is the old one with the entries stored, the listing gains their resources at the end, and consistency is kept. |
| Widgets.WidgetRegistry.Store | server.ts:63-77 | One iteration stores the entry under its URI, appends the resource, and keeps consistency. |
| Widgets.WidgetRegistry.ReadResource | server.ts:314-333 | An unknown URI fails with "Unknown resource: " + uri, and only an unknown URI fails. Otherwise the read returns the entry's template URI, the skybridge MIME type, the stored HTML and the hints for the basename of the URI. In a consistent registry the returned URI is the one requested. |
| ListCandidatesTool.FetchErrorMessage | server.ts:279-285 | The message starts with "Failed to fetch prospects from Apify: ". The rest is the error's message, or "Unknown error" when what was thrown was not an Error. |
| ListCandidatesTool.SummaryText | server.ts:292-296 | The summary starts with "Found ", the decimal count and " candidates", followed by " in the recruiting pipeline" when the local store was read and by " from Apify lead search" otherwise. |
| ListCandidatesTool.SummaryTextDetermines | server.ts:292-296 | The summary line determines both the count it reports and which source it names. |
| ListCandidatesTool.CountedLineDetermines | server.ts:292-296 | A line of prefix, digits, a space-led word, a source phrase and a closing text determines its digits and its source phrase. |
| ListCandidatesTool.Respond | server.ts:288-303 | The response carries the candidates unchanged, the summary for their count and source, and the hints of the `recruiting` widget. |
| ListCandidatesTool.ListCandidates | server.ts:243-304 | Exactly one I/O call happens, and it reads the local store exactly when the mode flag is set. A local read returns the store unchanged. Otherwise the scraper is called once with the payload of the filters. A failure becomes the wrapped message, and success returns the normalised batch, every candidate in "Screening". |
| ListCandidatesTool.CallTool | server.ts:129-304 | Invalid arguments fail with the rejected fields before any I/O. Valid arguments perform exactly one I/O call, which reads the local store exactly when `useExistingCandidates` was `true`. A fetch failure always comes from the single scraper call. When the scraper is used, it gets the payload of the filters; a failure becomes the wrapped message, and success returns the normalised batch. |

## Left out

- MCP server construction and the tool and request-handler wiring (`server.ts:19-29`, `123-128`, `307-312`): these are framework calls. The resource-listing handler returns the `resources` field unchanged.
- The schema library itself: its constraints are modelled as `ValidFilters`, and its error messages are reduced to the list of rejected field names.
- The Apify client (`ApifyLeadScraperAPI.scrapeLeads`): network code that is not part of this model. It is the `Scraper` parameter.
- Filesystem access (`existsSync`, `readdirSync`, `readFileSync`) and `recruiting/index.ts`: I/O. The assets directory is an `Option<seq<AssetFile>>` parameter, and the local candidate store is a parameter.
- `src/index.ts`, `recruiting/list.tsx` and `recruiting/ui.tsx`: HTTP transport and React presentation, not part of this model.
- The key strings of the `_meta` objects: the hints are a record with named fields.
- Lead fields other than `phone`, `functional` and `orgIndustry` are plain strings. JavaScript's rendering of an absent field as `"undefined"` inside a template string is not modelled.
- `totalResults` is an integer. Non-integral numbers, which the schema rejects, are not represented.
- A scraper result that is not an array, which would make `leads.map` throw inside the same `try`, is not modelled.
- Request.PayloadKey: the payload is a map keyed by an enumeration of the 17 property names, not by arbitrary strings. `PayloadKey.Name` gives the property name.
- Text.ToUpperAscii: upper-cases ASCII letters only. JavaScript's `toUpperCase` also maps other Unicode letters.
- Widgets.Basename: models Node's `path.basename(path, ext)` for paths without trailing slashes. Trailing-slash stripping is not modelled, since neither listing names nor `ui://widget/<app>.html` URIs end in a slash.
- Widgets.RegisterLookup: assumes listing names contain no `/`, as `readdirSync` returns them.
- Widgets.WidgetRegistry.LoadAll: the HTML of each file is given with its name rather than read from disk.
- Widgets.WidgetRegistry.LoadAll: the per-file values are computed before the loop stores them. In the source they are computed inside the loop.
- Failing reads are not modelled. A failing local read (`readFile` or `JSON.parse` in `recruiting/index.ts:22-23`) and a failing `readFileSync` (`server.ts:62`) propagate their error unwrapped in the source. In the model the local branch of `ListCandidates` always succeeds, and every asset file comes with its HTML.
