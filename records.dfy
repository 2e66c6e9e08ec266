/**
 * The loosely typed item objects that the timeline components receive. A
 * record maps field names to their text; a missing field and the empty
 * string are both falsy, as in `item[key] || fallback`.
 */
module Records {
  type Record = map<string, string>

  /** `item[key]`, with a missing field read as the empty string. */
  function Field(r: Record, key: string): string {
    if key in r then r[key] else ""
  }

  /** `item[key] || fallback`. */
  function FieldOr(r: Record, key: string, fallback: string): (v: string)
    ensures key in r && r[key] != "" ==> v == r[key]
    ensures key !in r || r[key] == "" ==> v == fallback
  {
    if Field(r, key) != "" then Field(r, key) else fallback
  }
}
