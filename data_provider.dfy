/** Startup data-source selection (index.js:15-42): the dataset is chosen
    once, from an optional configured path and the outcome of loading it. */
module DataProvider {
  import opened Records

  /** Which source the startup message reports. */
  datatype Mode = Real | Fallback | PublicDefault

  /** What `require(path)` gives: the parsed dataset, or a thrown error
      (missing, unreadable or unparsable file). */
  datatype LoadResult = Loaded(data: Dataset) | LoadFailed

  datatype Selection = Selection(mode: Mode, data: Dataset)

  /** `if (REAL_DATA_PATH)`: JavaScript truthiness, so an unset variable and
      an empty string both select the public file. */
  predicate PathConfigured(config: Option<string>)
  {
    config.Some? && config.value != ""
  }

  /** The selection made at startup. `load` stands for `require` on the
      configured path; `bundled` is the public file, whose load never fails.
      Startup never aborts: every input yields a selection. */
  function SelectSource(config: Option<string>, load: string -> LoadResult, bundled: Dataset): (s: Selection)
    // the real file is used exactly when a path is set and it loads
    ensures s.mode == Real <==> PathConfigured(config) && load(config.value).Loaded?
    ensures s.mode == Real ==> s.data == load(config.value).data
    // a failed load falls back to the public file instead of aborting
    ensures s.mode == Fallback <==> PathConfigured(config) && load(config.value).LoadFailed?
    // no configured path: the public file, without trying any other load
    ensures s.mode == PublicDefault <==> !PathConfigured(config)
    ensures s.mode != Real ==> s.data == bundled
  {
    if PathConfigured(config) then
      match load(config.value)
      case Loaded(d) => Selection(Real, d)
      case LoadFailed => Selection(Fallback, bundled)
    else
      Selection(PublicDefault, bundled)
  }

  /** The dataset served is always one of the two files: the configured
      file's contents or the bundled public file. */
  lemma SelectedDataComesFromASource(config: Option<string>, load: string -> LoadResult, bundled: Dataset)
    ensures var s := SelectSource(config, load, bundled);
      s.data == bundled || (PathConfigured(config) && load(config.value) == Loaded(s.data))
  {
  }

  /** The selection depends on the loader only through the configured path:
      with no path set, what the real file would contain is irrelevant. */
  lemma UnsetPathIgnoresLoader(config: Option<string>, load1: string -> LoadResult, load2: string -> LoadResult, bundled: Dataset)
    requires !PathConfigured(config)
    ensures SelectSource(config, load1, bundled) == SelectSource(config, load2, bundled) == Selection(PublicDefault, bundled)
  {
  }
}
