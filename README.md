# Sample-metadata data service, modelled in Dafny

This project models a small data service for biological sample records. It has two halves:

- An Express server (`index.js`). At startup it picks one dataset: a file at an operator-configured path (`CONTROL_DATA_PATH`), or a bundled public file. It then serves that dataset read-only. `GET /brains` returns the whole dataset. `GET /brains/:id` returns the first record whose `Run` equals `id`, or a 404. `POST /create`, `PUT /edit` and `DELETE /delete` return fixed placeholder texts.
- A browser script (`public/app.js`). It fetches `/brains` once and renders the result as an HTML table over a fixed list of 17 columns.

Modules:

- `Records` (`records.dfy`): a record is a `map<string, string>` and a dataset is a `seq` of records. It also holds the exact-match test on the `Run` field.
- `DataProvider` (`data_provider.dfy`): startup source selection as a pure function. It returns a mode (`Real`, `Fallback` or `PublicDefault`) and the dataset.
- `HttpService` (`http_service.dfy`): the route handlers as pure functions of (dataset, request) → response. The `find` is a recursive reference function plus a loop method proved equal to it. `Server` is a class whose `mode` and `data` are `const` fields, assigned only by the constructor, which runs the startup branch. Its `Handle` method has no `modifies` clause, so no route can change the dataset.
- `TableRenderer` (`table_renderer.dfy`): the page is a class. Its fields are the header cells, the body rows and the status text. `Render` rebuilds them with loops and is proved equal to the specification function `Rendered`. The lemmas about `Rendered` state the table's shape.
- `Scenarios` (`scenarios.dfy`): startup followed by one page load, and the two-record example dataset.

Three details of the code that the model keeps:

- `if (REAL_DATA_PATH)` is a JavaScript truthiness test (index.js:20). A path set to the empty string therefore behaves like an unset path and selects the public file (`PathConfigured`).
- For an empty dataset the handler returns at public/app.js:52, before the status line is cleared at public/app.js:68. So in that case the status text is left as it was. Only a non-empty render clears it.
- On a non-ok response the header row is not touched (public/app.js:30-32, 69-73). It keeps whatever it held before.

## Model

| member | source | states |
|---|---|---|
| Records.HasRun | index.js:60 | A record matches an id when its `Run` field is present and equal to the id as a string (`d.Run === itemId`); a record without `Run` matches nothing. |
| DataProvider.PathConfigured | index.js:18-20 | The JavaScript truthiness test on `CONTROL_DATA_PATH`: a path counts as configured only when it is set and not the empty string. |
| DataProvider.SelectSource | index.js:15-42 | The real file is used exactly when a path is set and its load succeeds. A failed load gives `Fallback` with the bundled data, and startup does not abort. With no path set (or an empty one) the result is `PublicDefault` with the bundled data. |
| DataProvider.SelectedDataComesFromASource | index.js:20-42 | The dataset served is either the bundled file or the contents the configured path loaded. |
| DataProvider.UnsetPathIgnoresLoader | index.js:37-41 | With no path configured, what the real file would load has no effect: the selection is `PublicDefault` with the bundled data. |
| HttpService.FindFrom | index.js:60 | The scan of `data.find` from position i: a result is a record from position i on whose `Run` is `id`. |
| HttpService.Find | index.js:60 | `data.find((d) => d.Run === id)`: a result is a record of the dataset whose `Run` is `id`. |
| HttpService.FindFromIsFirstMatch | index.js:60 | A result of `find` is a record of the dataset whose `Run` is `id`, and no earlier record has that `Run`. There is no result exactly when no record matches. |
| HttpService.FindReturnsEarliest | index.js:60 | If the record at position j has `Run == id`, the lookup succeeds and returns a record at a position no later than j, with no matching record before it. |
| HttpService.FindByRun | index.js:60 | The loop computes exactly the first-match search `Find`. |
| HttpService.GetAllResponse | index.js:52-54 | `GET /brains` answers 200 with the whole dataset as a JSON array. |
| HttpService.GetByIdResponse | index.js:57-66 | `GET /brains/:id` answers either 200 with a JSON record of the dataset whose `Run` is `id`, or 404 with the text "Item not found". |
| HttpService.Respond | index.js:52-80 | Routes each request to its handler. Every route answers 200, except that a lookup answers 404 exactly when no record has `Run == id`. |
| HttpService.GetByIdFound | index.js:57-63 | A 200 from `GET /brains/:id` carries a JSON record of the dataset with `Run == id`, and no earlier record has that `Run`. |
| HttpService.GetByIdNotFound | index.js:64-66 | `GET /brains/:id` answers 404 `"Item not found"` if and only if no record has `Run == id`. |
| HttpService.WriteRoutesAreAcknowledgements | index.js:69-80 | `POST /create`, `PUT /edit` and `DELETE /delete` answer 200 with their fixed acknowledgement text ("This is a POST request at /create" and so on). The answer is the same whatever the dataset holds. |
| HttpService.Server.constructor | index.js:15-42 | The startup branch assigns `mode` and `data` to the selection `SelectSource` makes. They are constants from then on. |
| HttpService.Server.Handle | index.js:52-80 | Each request is answered from the startup dataset by its route's handler, and nothing is modified. |
| HttpService.ServeThenList | index.js:52-54 | After any sequence of earlier requests, including writes, `GET /brains` returns 200 with the startup dataset unchanged. |
| TableRenderer.ColumnsAreDistinct | public/app.js:7-25 | The column list has exactly 17 names, in the listed order, no name appears twice, and `Run` is the 13th. Every header and row-width statement below is about this list. |
| TableRenderer.IsOk | public/app.js:30 | `response.ok`: the status is in the range 200-299. Any other status takes the error path. |
| TableRenderer.Normalize | public/app.js:35-38 | An array response is kept as it is. A lone record becomes a one-element sequence holding it. |
| TableRenderer.Decimal | public/app.js:31 | The decimal text of the status that `${response.status}` prints: most significant digit first, built by repeated division by 10. |
| TableRenderer.DecimalRoundTrip | public/app.js:31 | The status code is rendered as a non-empty string of decimal digits that reads back as the status and has no leading zero (it starts with '0' exactly when the status is 0), which is the one text `${response.status}` prints. |
| TableRenderer.CellText | public/app.js:60 | `item[col] ?? ""`: the record's value for the column, or `""` when the field is absent. |
| TableRenderer.Project | public/app.js:57-62 | One record's row: one cell per column, built left to right. |
| TableRenderer.BodyRows | public/app.js:55-64 | The body rows: one row per record, appended in dataset order. |
| TableRenderer.Rendered | public/app.js:27-73 | What one run of the page script leaves on the page, given the page before and the fetch result. The body always shows at least one row, and the header is either rebuilt from the column list or left as it was. |
| TableRenderer.ProjectCells | public/app.js:57-62 | A row has exactly one cell per column, in column order. Each cell holds the record's value for that column, or `""` when the field is absent. |
| TableRenderer.BodyRowsInOrder | public/app.js:55-64 | There is one body row per record, in dataset order, and row j is record j's projection. |
| TableRenderer.ProjectDependsOnColumnsOnly | public/app.js:57-60 | A row depends only on the listed columns: records that agree on those fields render identical rows, whatever other fields they have. |
| TableRenderer.BuildRow | public/app.js:56-62 | The cell-building loop produces the record's projection onto the 17 columns. |
| TableRenderer.RenderedTable | public/app.js:40-68 | On an ok response with records: the header is the 17 listed names in order. There is one row per record, in order, each exactly 17 cells wide, holding the field's value or `""`. The status is cleared. |
| TableRenderer.RenderedEmpty | public/app.js:48-53 | On an ok response with no records: the header is rebuilt and the body is exactly one "No data found" row spanning 17 columns. The status is left as it was. |
| TableRenderer.RenderedFailure | public/app.js:69-73 | On a non-ok status (the error thrown at public/app.js:31): the header is unchanged and the body is exactly one "Failed to load data" row spanning 17 columns. The status reads "Failed to load data: HTTP " followed by the status code in decimal digits that read back as the code, with no leading zero. |
| TableRenderer.BodyIgnoresPreviousPage | public/app.js:49 | The new body does not depend on the previous body, so no earlier row survives a render. |
| TableRenderer.TablePage.constructor | public/app.js:2-4 | The page starts from the header, body and status it was served with. |
| TableRenderer.TablePage.Render | public/app.js:27-73 | Rendering leaves the page's header, body and status exactly as `Rendered` describes for the previous page and the response. |
| Scenarios.FetchAll | public/app.js:29-33 | The page's view of `GET /brains` is an ok response whose normalised records are the server's dataset. |
| Scenarios.PageShowsSelectedDataset | public/app.js:29-64 | Whatever source startup selected, a non-empty dataset shows as one 17-cell row per record, in load order, with the records' field values. |
| Scenarios.MissingRealFileShowsBundledData | index.js:29-36 | A configured path whose file fails to load leads to `Fallback`, and `GET /brains` serves the bundled dataset. |
| Scenarios.ExampleLookups | index.js:57-67 | In the two-record example, `GET /brains/SRR002` returns the rat record and `GET /brains/SRR999` is a 404 "Item not found". |
| Scenarios.ExampleTable | public/app.js:55-64 | The two-record example renders as two rows with Organism cells "mouse" and "rat" and empty `sex` cells. |
| Scenarios.EmptyTable | public/app.js:50-53 | An empty dataset renders as exactly one "No data found" row spanning 17 columns. |

## Left out

- Express wiring is not modelled: `app.listen` on port 3000, the static-file middleware and route registration (index.js:45-49, 83-85). Unmatched paths and static assets are therefore not modelled either. Each route is a plain function.
- `dotenv`, `createRequire` and `require` (index.js:9-12, 25, 35, 40) are not modelled. Loading the configured file is a parameter `load: string -> LoadResult`. The bundled file is a given dataset, because its load is assumed never to fail. A failure of that load would be fatal at startup; the model does not cover it.
- Console logging (index.js:26-33, 41, 84; public/app.js:67, 70) is not modelled. It is operator output only.
- `fetch`, `async`/`await`, `response.json()` and the DOM APIs are not modelled. The response is a status plus an already-parsed body. The DOM is the page's header cells, body rows and status text.
- Network failures, non-JSON bodies and DOM errors in the renderer are not modelled. They reach the same catch block as a non-ok status but with another message. Only the non-ok-status path is modelled.
- A bundled or real file holding a single object rather than an array is not modelled on the server. There, `data.find` would throw. The server's dataset is a sequence by type.
- Field values are strings. JSON `null` (which `?? ""` also renders as empty) and numbers (which `textContent` converts to text) are not modelled.
- The commented-out earlier version of the server (index.js:87-130) is dead code and is not modelled.
