/**
 * The products query: each fetched `services` row becomes a `Service`, with
 * empty or NULL description, division and team turned into `undefined`.
 */
module ServicesHook {
  import opened JsValues
  import opened Schema
  import opened Records

  /** The row-to-record mapping. `parseDate` stands for `new Date(...)`. */
  function DecodeService(row: ServiceRow, parseDate: string -> int): (s: Service)
    ensures s.id == row.id && s.name == row.name && s.createdBy == row.created_by
    ensures s.createdAt == parseDate(row.created_at)
    ensures s.description == (if row.description.Some? && row.description.value != "" then Val(row.description.value) else Undefined)
    ensures s.divisionId == (if row.division_id.Some? && row.division_id.value != "" then Val(row.division_id.value) else Undefined)
    ensures s.teamId == (if row.team_id.Some? && row.team_id.value != "" then Val(row.team_id.value) else Undefined)
  {
    Service(
      id := row.id,
      name := row.name,
      description := StringOrUndefined(FromColumn(row.description)),
      divisionId := StringOrUndefined(FromColumn(row.division_id)),
      teamId := StringOrUndefined(FromColumn(row.team_id)),
      createdAt := parseDate(row.created_at),
      createdBy := row.created_by)
  }

  /** `data.map(...)` with the mapping above. */
  function DecodeServices(rows: seq<ServiceRow>, parseDate: string -> int): (r: seq<Service>)
    ensures |r| == |rows|
    ensures forall i | 0 <= i < |rows| :: r[i] == DecodeService(rows[i], parseDate)
  {
    if rows == [] then [] else [DecodeService(rows[0], parseDate)] + DecodeServices(rows[1..], parseDate)
  }

  /** The columns a decoded product still determines: the row up to "" versus NULL and the timestamp's text. */
  function EncodeService(s: Service, createdAt: string): ServiceRow {
    ServiceRow(
      created_at := createdAt,
      created_by := s.createdBy,
      description := if s.description.Val? then Some(s.description.value) else None,
      division_id := if s.divisionId.Val? then Some(s.divisionId.value) else None,
      id := s.id,
      name := s.name,
      team_id := if s.teamId.Val? then Some(s.teamId.value) else None)
  }

  /** A row whose optional columns are NULL or non-empty survives decoding unchanged. */
  lemma EncodeDecodeService(row: ServiceRow, parseDate: string -> int)
    requires row.description != Some("") && row.division_id != Some("") && row.team_id != Some("")
    ensures EncodeService(DecodeService(row, parseDate), row.created_at) == row
  {
  }

  /** Decoding cannot tell an empty column from a NULL one. */
  lemma EmptyIsNull(row: ServiceRow, parseDate: string -> int)
    requires row.division_id == Some("")
    ensures DecodeService(row, parseDate) == DecodeService(row.(division_id := None), parseDate)
  {
  }
}
