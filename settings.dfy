/** The statement builder and the warehouse connection, reduced to what the
    handlers can observe: the ordered list of settings a builder has been
    given, and the statements sent to the warehouse. Rendering SQL text is
    not modelled. */
module Settings {

  datatype Value = Str(s: string) | Bool(b: bool) | List(items: seq<string>)

  /** One `KEY = value` clause of a CREATE or ALTER ... SET statement. */
  datatype Setting = Setting(key: string, value: Value)

  /** `snowflake.SettingBuilder`: settings are only ever appended. */
  class SettingBuilder {
    var settings: seq<Setting>

    constructor ()
      ensures settings == []
    {
      settings := [];
    }

    method SetString(key: string, s: string)
      modifies this
      ensures settings == old(settings) + [Setting(key, Str(s))]
    {
      settings := settings + [Setting(key, Str(s))];
    }

    method SetBool(key: string, b: bool)
      modifies this
      ensures settings == old(settings) + [Setting(key, Bool(b))]
    {
      settings := settings + [Setting(key, Bool(b))];
    }

    method SetStringList(key: string, items: seq<string>)
      modifies this
      ensures settings == old(settings) + [Setting(key, List(items))]
    {
      settings := settings + [Setting(key, List(items))];
    }
  }

  datatype IntegrationKind = Security | Notification

  /** The DDL statements the handlers send. */
  datatype Statement =
    | Create(kind: IntegrationKind, name: string, settings: seq<Setting>)
    | AlterSet(kind: IntegrationKind, name: string, settings: seq<Setting>)
    | AlterUnset(kind: IntegrationKind, name: string, property: string)

  /** The warehouse: every statement sent is logged in order; the statements
      it refuses are fixed up front, standing for whatever the server would
      answer. */
  class Database {
    var log: seq<Statement>
    const refused: set<Statement>

    constructor (refused: set<Statement>)
      ensures log == [] && this.refused == refused
    {
      log := [];
      this.refused := refused;
    }

    /** `snowflake.Exec`: reports whether the statement was refused. */
    method Exec(s: Statement) returns (failed: bool)
      modifies this`log
      ensures log == old(log) + [s]
      ensures failed <==> s in refused
    {
      log := log + [s];
      failed := s in refused;
    }
  }
}
