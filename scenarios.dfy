/** The server and the page together, and a two-record example dataset. */
module Scenarios {
  import opened Records
  import DataProvider
  import HttpService
  import TableRenderer

  /** The page's view of the server's answer to `GET /brains`. */
  function FetchAll(data: Dataset): (f: TableRenderer.FetchResponse)
    ensures TableRenderer.IsOk(f.status)
    ensures TableRenderer.Normalize(f.payload) == data
  {
    var r := HttpService.Respond(data, HttpService.GetAll);
    TableRenderer.FetchResponse(r.status, TableRenderer.JArray(r.body.records))
  }

  /** Startup, then one page load: whichever source was selected, a
      non-empty dataset is rendered as one full-width row per record, in
      load order, with its field values in the column cells. */
  lemma PageShowsSelectedDataset(
    config: Option<string>, load: string -> DataProvider.LoadResult, bundled: Dataset, before: TableRenderer.Page)
    requires |DataProvider.SelectSource(config, load, bundled).data| > 0
    ensures var data := DataProvider.SelectSource(config, load, bundled).data;
      var after := TableRenderer.Rendered(before, FetchAll(data));
      && after.head == TableRenderer.Columns
      && |after.body| == |data|
      && forall j :: 0 <= j < |data| ==>
           after.body[j].Cells? && |after.body[j].cells| == |TableRenderer.Columns| &&
           forall k :: 0 <= k < |TableRenderer.Columns| ==>
             after.body[j].cells[k] == TableRenderer.CellText(data[j], TableRenderer.Columns[k])
  {
    var data := DataProvider.SelectSource(config, load, bundled).data;
    TableRenderer.RenderedTable(before, FetchAll(data));
  }

  /** Startup with a configured path whose file is missing: the page shows
      the bundled dataset. */
  lemma MissingRealFileShowsBundledData(path: string, load: string -> DataProvider.LoadResult, bundled: Dataset)
    requires path != "" && load(path) == DataProvider.LoadFailed
    ensures DataProvider.SelectSource(Some(path), load, bundled) == DataProvider.Selection(DataProvider.Fallback, bundled)
    ensures HttpService.Respond(DataProvider.SelectSource(Some(path), load, bundled).data, HttpService.GetAll)
      == HttpService.Response(200, HttpService.JsonArray(bundled))
  {
  }

  const Mouse: Record := map["Run" := "SRR001", "Organism" := "mouse"]
  const Rat: Record := map["Run" := "SRR002", "Organism" := "rat"]
  const Example: Dataset := [Mouse, Rat]

  /** Lookups in the two-record example: a present `Run` finds its record,
      an absent one is a 404. */
  lemma ExampleLookups()
    ensures HttpService.Respond(Example, HttpService.GetById("SRR002")) == HttpService.Response(200, HttpService.JsonObject(Rat))
    ensures HttpService.Respond(Example, HttpService.GetById("SRR999")) == HttpService.Response(404, HttpService.Text("Item not found"))
  {
    assert Mouse["Run"] == "SRR001" && Rat["Run"] == "SRR002";
    assert HttpService.FindFrom(Example, "SRR002", 1) == Some(Rat);
    assert HttpService.FindFrom(Example, "SRR002", 0) == Some(Rat);
    assert HttpService.FindFrom(Example, "SRR999", 2) == None;
    assert HttpService.FindFrom(Example, "SRR999", 1) == None;
    assert HttpService.FindFrom(Example, "SRR999", 0) == None;
  }

  /** Rendering the two-record example: two rows, Organism cells "mouse"
      and "rat", and an empty `sex` cell, since neither record has one. */
  lemma ExampleTable(before: TableRenderer.Page)
    ensures var after := TableRenderer.Rendered(before, FetchAll(Example));
      && |after.body| == 2
      && after.body[0].Cells? && |after.body[0].cells| == 17 && after.body[0].cells[1] == "mouse" && after.body[0].cells[15] == ""
      && after.body[1].Cells? && |after.body[1].cells| == 17 && after.body[1].cells[1] == "rat" && after.body[1].cells[15] == ""
  {
    TableRenderer.RenderedTable(before, FetchAll(Example));
    assert TableRenderer.Columns[1] == "Organism" && TableRenderer.Columns[15] == "sex";
  }

  /** Rendering an empty dataset: a single "No data found" row. */
  lemma EmptyTable(before: TableRenderer.Page)
    ensures TableRenderer.Rendered(before, FetchAll([])).body == [TableRenderer.Banner("No data found", 17)]
  {
  }
}
