/** The schema framework as the two resource handlers see it: a typed
    configuration with the framework's `Get`/`GetOk` accessors, the set of
    fields that changed in a plan, and the resource's identifier. */
module Schema {

  datatype Option<T> = None | Some(value: T)

  /** The field values of one resource instance. Each field lives in the map
      of the type its schema declares, so a Go type assertion on the value
      that `Get` returns always succeeds. Schema defaults are assumed to be
      filled in already. */
  datatype Config = Config(
    strings: map<string, string>,
    bools: map<string, bool>,
    lists: map<string, seq<string>>)

  /** `d.Get(field).(string)`: the value, or the zero value when unset. */
  function GetString(c: Config, field: string): string
  {
    if field in c.strings then c.strings[field] else ""
  }

  /** `d.Get(field).(bool)`. */
  function GetBool(c: Config, field: string): bool
  {
    field in c.bools && c.bools[field]
  }

  /** `d.Get(field).([]interface{})`, read as a list of strings. */
  function GetList(c: Config, field: string): seq<string>
  {
    if field in c.lists then c.lists[field] else []
  }

  /** `d.GetOk(field)` on a string field: reported only when set to a
      non-zero value. */
  function GetOkString(c: Config, field: string): (r: Option<string>)
    ensures r.Some? <==> GetString(c, field) != ""
    ensures r.Some? ==> r.value == GetString(c, field)
  {
    if field in c.strings && c.strings[field] != "" then Some(c.strings[field]) else None
  }

  /** `d.GetOk(field)` on a list field: reported only when non-empty. */
  function GetOkList(c: Config, field: string): (r: Option<seq<string>>)
    ensures r.Some? <==> GetList(c, field) != []
    ensures r.Some? ==> r.value == GetList(c, field)
  {
    if field in c.lists && c.lists[field] != [] then Some(c.lists[field]) else None
  }

  /** The errors the handlers return. The wrapped driver error of a failed
      query is not modelled; the wrapping context is. */
  datatype Error =
    | Missing(field: string)                               // "If you use ... you must specify an <field>"
    | UnexpectedType(securityType: string)                 // "Unexpected security integration type"
    | UnexpectedProvider(provider: string)                 // "Unexpected provider"
    | WrongCategory(id: string, expected: string, got: string)
    | QueryFailed(context: string)                         // SHOW or DESCRIBE could not be read
    | ExecFailed(context: string)                          // a DDL statement was refused

  /** `*schema.ResourceData`: the values `Get` reads and `Set` writes, the
      fields `HasChange` reports, and the resource ID. */
  class ResourceData {
    var values: Config
    const changed: set<string>
    var id: string

    constructor (values: Config, changed: set<string>, id: string)
      ensures this.values == values && this.changed == changed && this.id == id
    {
      this.values := values;
      this.changed := changed;
      this.id := id;
    }

    predicate HasChange(field: string)
    {
      field in changed
    }

    method SetString(field: string, s: string)
      modifies this`values
      ensures values == old(values).(strings := old(values).strings[field := s])
    {
      values := values.(strings := values.strings[field := s]);
    }

    method SetBool(field: string, b: bool)
      modifies this`values
      ensures values == old(values).(bools := old(values).bools[field := b])
    {
      values := values.(bools := values.bools[field := b]);
    }

    method SetList(field: string, items: seq<string>)
      modifies this`values
      ensures values == old(values).(lists := old(values).lists[field := items])
    {
      values := values.(lists := values.lists[field := items]);
    }

    method SetId(name: string)
      modifies this`id
      ensures id == name
    {
      id := name;
    }
  }
}
