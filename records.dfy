/** Shared vocabulary of the data service: schema-less sample records and
    the ordered dataset the server loads once at startup. */
module Records {

  datatype Option<+T> = None | Some(value: T)

  /** One sample-metadata entry: field name to field value. Any field may
      be missing; nothing enforces a schema. */
  type Record = map<string, string>

  /** The whole table, in load order. */
  type Dataset = seq<Record>

  /** The field the `/brains/:id` route matches on. */
  const RunField: string := "Run"

  /** `d.Run === id`: the record has a `Run` field and it equals `id`
      exactly (no trimming, case folding or numeric coercion). */
  predicate HasRun(r: Record, id: string)
  {
    RunField in r && r[RunField] == id
  }
}
