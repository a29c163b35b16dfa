/** The part of both Update handlers that turns changed fields into
    settings of one ALTER ... SET statement. */
module Alter {
  import opened Schema
  import opened Settings

  /** A field an update can set on its own, and the key it is set under. */
  datatype AlterField = AlterField(field: string, key: string)

  predicate DistinctKeys(table: seq<AlterField>)
  {
    forall j, k | 0 <= j < k < |table| :: table[j].key != table[k].key
  }

  /** Some field of the table changed. */
  predicate AnyChanged(changed: set<string>, table: seq<AlterField>)
  {
    exists i | 0 <= i < |table| :: table[i].field in changed
  }

  /** How many settings carry `key`. */
  function CountKey(settings: seq<Setting>, key: string): nat
    decreases |settings|
  {
    if settings == [] then 0
    else (if settings[0].key == key then 1 else 0) + CountKey(settings[1..], key)
  }

  /** The settings every update starts with: `COMMENT` when the comment
      changed, then `ENABLED` when the flag changed, each with its new
      value. */
  function CommonAlterSettings(c: Config, changed: set<string>): (r: seq<Setting>)
    ensures r != [] <==> "comment" in changed || "enabled" in changed
    ensures forall s | s in r :: s.key == "COMMENT" || s.key == "ENABLED"
    ensures Setting("COMMENT", Str(GetString(c, "comment"))) in r <==> "comment" in changed
    ensures Setting("ENABLED", Bool(GetBool(c, "enabled"))) in r <==> "enabled" in changed
    ensures forall s | s in r ::
              (s == Setting("COMMENT", Str(GetString(c, "comment"))) && "comment" in changed)
              || (s == Setting("ENABLED", Bool(GetBool(c, "enabled"))) && "enabled" in changed)
    ensures |r| == (if "comment" in changed then 1 else 0) + (if "enabled" in changed then 1 else 0)
  {
    (if "comment" in changed then [Setting("COMMENT", Str(GetString(c, "comment")))] else [])
    + (if "enabled" in changed then [Setting("ENABLED", Bool(GetBool(c, "enabled")))] else [])
  }

  /** The `comment` and `enabled` blocks both update handlers start with;
      `changed` is whether they raised `runSetStatement`. */
  method SetCommonAlterSettings(d: ResourceData, stmt: SettingBuilder) returns (changed: bool)
    modifies stmt
    ensures stmt.settings == old(stmt.settings) + CommonAlterSettings(d.values, d.changed)
    ensures changed <==> "comment" in d.changed || "enabled" in d.changed
  {
    changed := false;
    if d.HasChange("comment") {
      changed := true;
      stmt.SetString("COMMENT", GetString(d.values, "comment"));
    }
    if d.HasChange("enabled") {
      changed := true;
      stmt.SetBool("ENABLED", GetBool(d.values, "enabled"));
    }
  }

  /** A chain of `if d.HasChange(f) { stmt.SetString(K, d.Get(f)) }` over a
      table, in table order. */
  function ChangedTexts(c: Config, changed: set<string>, table: seq<AlterField>): seq<Setting>
    decreases |table|
  {
    if table == [] then []
    else
      var rest := ChangedTexts(c, changed, table[1..]);
      if table[0].field in changed then [Setting(table[0].key, Str(GetString(c, table[0].field)))] + rest
      else rest
  }

  /** `s` is the new value of one changed field of `table`. */
  predicate FromChangedRow(c: Config, changed: set<string>, table: seq<AlterField>, s: Setting)
  {
    exists i | 0 <= i < |table| :: table[i].field in changed && s == Setting(table[i].key, Str(GetString(c, table[i].field)))
  }

  /** Every setting `ChangedTexts` adds is the new value of a changed field:
      nothing unchanged is sent. */
  lemma {:induction false} ChangedTextsSound(c: Config, changed: set<string>, table: seq<AlterField>, s: Setting)
    requires s in ChangedTexts(c, changed, table)
    ensures FromChangedRow(c, changed, table, s)
    decreases |table|
  {
    var rest := table[1..];
    if table[0].field in changed && s == Setting(table[0].key, Str(GetString(c, table[0].field))) {
      assert table[0].field in changed;
    } else {
      ChangedTextsSound(c, changed, rest, s);
      var i :| 0 <= i < |rest| && rest[i].field in changed
               && s == Setting(rest[i].key, Str(GetString(c, rest[i].field)));
      assert table[i + 1] == rest[i];
    }
  }

  /** The chain adds a setting exactly when some field of the table
      changed. */
  lemma {:induction false} ChangedTextsNonEmpty(c: Config, changed: set<string>, table: seq<AlterField>)
    ensures ChangedTexts(c, changed, table) != [] <==> AnyChanged(changed, table)
    decreases |table|
  {
    if table != [] {
      var rest := table[1..];
      assert forall i | 0 <= i < |rest| :: rest[i] == table[i + 1];
      ChangedTextsNonEmpty(c, changed, rest);
      if AnyChanged(changed, table) && table[0].field !in changed {
        var i :| 0 <= i < |table| && table[i].field in changed;
        assert rest[i - 1].field in changed;
      }
    }
  }

  /** The chain handles one field at a time, in table order. */
  lemma ChangedTextsStep(c: Config, changed: set<string>, table: seq<AlterField>, k: nat)
    requires k < |table|
    ensures ChangedTexts(c, changed, table[k..])
         == (if table[k].field in changed then [Setting(table[k].key, Str(GetString(c, table[k].field)))] else [])
            + ChangedTexts(c, changed, table[k + 1..])
  {
    assert table[k..][0] == table[k];
    assert table[k..][1..] == table[k + 1..];
  }

  /** One `if d.HasChange(field) { runSetStatement = true; stmt.SetString(key, d.Get(field)) }`
      block of an update handler, as row `k` of `table`; `changed` is
      whether it raised `runSetStatement`. */
  method SetTextIfChanged(d: ResourceData, stmt: SettingBuilder, field: string, key: string,
                          ghost table: seq<AlterField>, ghost k: nat) returns (changed: bool)
    requires k < |table| && table[k] == AlterField(field, key)
    modifies stmt
    ensures changed <==> field in d.changed
    ensures old(stmt.settings) + ChangedTexts(d.values, d.changed, table[k..])
         == stmt.settings + ChangedTexts(d.values, d.changed, table[k + 1..])
  {
    ChangedTextsStep(d.values, d.changed, table, k);
    ghost var rest := ChangedTexts(d.values, d.changed, table[k + 1..]);
    changed := d.HasChange(field);
    if changed {
      ghost var s := Setting(key, Str(GetString(d.values, field)));
      assert old(stmt.settings) + ([s] + rest) == old(stmt.settings) + [s] + rest;
      stmt.SetString(key, GetString(d.values, field));
    } else {
      assert [] + rest == rest;
    }
  }

  /** Settings appended by three blocks in a row are the original ones
      followed by what the three blocks added together. */
  lemma AppendThree(s: seq<Setting>, a: seq<Setting>, b: seq<Setting>, c: seq<Setting>)
    ensures s + a + b + c == s + (a + b + c)
  {
  }

  /** What an update sent, and the error that stopped it (none when it goes
      on to the Read). */
  datatype Sent = Sent(statements: seq<Statement>, err: Option<Error>)

  /** `if runSetStatement { snowflake.Exec(db, stmt.Statement()) }`. */
  function SendAlter(alter: Statement, runSet: bool, refused: set<Statement>, context: string): (r: Sent)
    ensures r.statements == if runSet then [alter] else []
    ensures r.err.Some? <==> runSet && alter in refused
    ensures r.err.Some? ==> r.err == Some(ExecFailed(context))
  {
    if !runSet then Sent([], None)
    else if alter in refused then Sent([alter], Some(ExecFailed(context)))
    else Sent([alter], None)
  }

  lemma {:induction false} CountKeyAppend(a: seq<Setting>, b: seq<Setting>, key: string)
    ensures CountKey(a + b, key) == CountKey(a, key) + CountKey(b, key)
    decreases |a|
  {
    if a == [] {
      assert a + b == b;
    } else {
      assert (a + b)[1..] == a[1..] + b;
      CountKeyAppend(a[1..], b, key);
    }
  }

  lemma {:induction false} CountKeyAbsent(settings: seq<Setting>, key: string)
    requires forall s | s in settings :: s.key != key
    ensures CountKey(settings, key) == 0
    decreases |settings|
  {
    if settings != [] {
      assert settings[0] in settings;
      CountKeyAbsent(settings[1..], key);
    }
  }

  /** Over a table of distinct keys, a changed field contributes exactly one
      setting, carrying its new value, and an unchanged field none. */
  lemma {:induction false} ChangedTextsExactlyOnce(c: Config, changed: set<string>, table: seq<AlterField>, i: int)
    requires DistinctKeys(table) && 0 <= i < |table|
    ensures CountKey(ChangedTexts(c, changed, table), table[i].key) == if table[i].field in changed then 1 else 0
    ensures table[i].field in changed ==>
              Setting(table[i].key, Str(GetString(c, table[i].field))) in ChangedTexts(c, changed, table)
    decreases |table|
  {
    var rest := table[1..];
    assert DistinctKeys(rest) by {
      forall j, k | 0 <= j < k < |rest| ensures rest[j].key != rest[k].key {
        assert rest[j] == table[j + 1] && rest[k] == table[k + 1];
      }
    }
    if i == 0 {
      ChangedTextsOtherKey(c, changed, rest, table[0].key);
    } else {
      assert rest[i - 1] == table[i];
      ChangedTextsExactlyOnce(c, changed, rest, i - 1);
    }
  }

  /** A key outside the table never appears. */
  lemma {:induction false} ChangedTextsOtherKey(c: Config, changed: set<string>, table: seq<AlterField>, key: string)
    requires forall i | 0 <= i < |table| :: table[i].key != key
    ensures CountKey(ChangedTexts(c, changed, table), key) == 0
    decreases |table|
  {
    if table != [] {
      var rest := table[1..];
      assert forall i | 0 <= i < |rest| :: rest[i] == table[i + 1];
      ChangedTextsOtherKey(c, changed, rest, key);
    }
  }
}
