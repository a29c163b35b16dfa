/** The Read handlers: the SHOW row gives name, creation time and the
    enabled flag after a category check; the DESCRIBE rows, one property
    each, are mapped onto schema fields in the order they arrive. */
module Describe {
  import opened Schema
  import opened Settings

  /** The columns of the SHOW INTEGRATIONS row the handlers use. */
  datatype ShowRow = ShowRow(name: string, category: string, createdOn: string, enabled: bool)

  /** One DESCRIBE INTEGRATION row: property name and its value as text. */
  datatype DescribeRow = DescribeRow(property: string, value: string)

  /** The `d.Set` a DESCRIBE row turns into, if any. */
  datatype FieldUpdate = SetText(field: string, s: string) | SetTextList(field: string, items: seq<string>)

  /** What a Read leaves in the resource data, and the error it returns. */
  datatype ReadResult = ReadResult(values: Config, err: Option<Error>)

  /** Glues the parts of a list back together with `sep` between them. */
  function Join(parts: seq<string>, sep: char): string
    requires |parts| >= 1
    decreases |parts|
  {
    if |parts| == 1 then parts[0] else parts[0] + [sep] + Join(parts[1..], sep)
  }

  /** `strings.Split(s, sep)` for a one-character separator: the maximal
      runs between separators, including empty ones. Joining them again
      gives back `s`. */
  function Split(s: string, sep: char): (parts: seq<string>)
    ensures |parts| >= 1
    ensures forall i | 0 <= i < |parts| :: sep !in parts[i]
    ensures Join(parts, sep) == s
    decreases |s|
  {
    if s == [] then [""]
    else
      var rest := Split(s[1..], sep);
      if s[0] == sep then
        assert Join([""] + rest, sep) == [sep] + Join(rest, sep) by {
          assert ([""] + rest)[1..] == rest;
        }
        [""] + rest
      else
        var parts := [[s[0]] + rest[0]] + rest[1..];
        assert Join(parts, sep) == [s[0]] + Join(rest, sep) by {
          if |rest| > 1 {
            assert parts[1..] == rest[1..];
          }
        }
        parts
  }

  /** Splitting a joined list gives the list back when no part holds the
      separator. */
  lemma {:induction false} SplitJoin(parts: seq<string>, sep: char)
    requires |parts| >= 1
    requires forall i | 0 <= i < |parts| :: sep !in parts[i]
    ensures Split(Join(parts, sep), sep) == parts
    decreases |parts|, |parts[0]|
  {
    if |parts| == 1 {
      SplitNoSeparator(parts[0], sep);
    } else if parts[0] == "" {
      var rest := parts[1..];
      assert forall i | 0 <= i < |rest| :: rest[i] == parts[i + 1];
      SplitJoin(rest, sep);
      SplitAtSeparator(Join(rest, sep), sep);
      assert [""] + rest == parts;
    } else {
      var shorter := [parts[0][1..]] + parts[1..];
      assert forall i | 1 <= i < |shorter| :: shorter[i] == parts[i];
      SplitJoin(shorter, sep);
      JoinFirstChar(parts, sep);
      assert parts[0][0] in parts[0];
      SplitAtOther(parts[0][0], Join(shorter, sep), sep);
      assert [parts[0][0]] + shorter[0] == parts[0];
      assert [[parts[0][0]] + shorter[0]] + shorter[1..] == parts;
    }
  }

  lemma SplitAtSeparator(t: string, sep: char)
    ensures Split([sep] + t, sep) == [""] + Split(t, sep)
  {
    assert ([sep] + t)[1..] == t;
  }

  lemma SplitAtOther(ch: char, t: string, sep: char)
    requires ch != sep
    ensures Split([ch] + t, sep) == [[ch] + Split(t, sep)[0]] + Split(t, sep)[1..]
  {
    assert ([ch] + t)[1..] == t;
  }

  lemma JoinFirstChar(parts: seq<string>, sep: char)
    requires |parts| >= 2 && parts[0] != ""
    ensures Join(parts, sep) == [parts[0][0]] + Join([parts[0][1..]] + parts[1..], sep)
  {
    var shorter := [parts[0][1..]] + parts[1..];
    assert shorter[1..] == parts[1..];
    assert parts[0] == [parts[0][0]] + parts[0][1..];
  }

  lemma {:induction false} SplitNoSeparator(s: string, sep: char)
    requires sep !in s
    ensures Split(s, sep) == [s]
    decreases |s|
  {
    if s != [] {
      SplitNoSeparator(s[1..], sep);
    }
  }

  function Field(u: FieldUpdate): string
  {
    match u
    case SetText(f, _) => f
    case SetTextList(f, _) => f
  }

  /** `d.Set` of one field. */
  function ApplyUpdate(c: Config, u: FieldUpdate): (r: Config)
    ensures Holds(r, u)
    ensures forall f | f != Field(u) :: AgreeOn(r, c, f)
  {
    match u
    case SetText(f, s) => c.(strings := c.strings[f := s])
    case SetTextList(f, items) => c.(lists := c.lists[f := items])
  }

  /** The three `d.Set` calls fed by the SHOW row. */
  function ApplyShow(c: Config, show: ShowRow): (r: Config)
    ensures "name" in r.strings && r.strings["name"] == show.name
    ensures "created_on" in r.strings && r.strings["created_on"] == show.createdOn
    ensures "enabled" in r.bools && r.bools["enabled"] == show.enabled
    ensures forall f | f != "name" && f != "created_on" && f != "enabled" :: AgreeOn(r, c, f)
  {
    c.(strings := c.strings["name" := show.name]["created_on" := show.createdOn],
       bools := c.bools["enabled" := show.enabled])
  }

  /** The DESCRIBE rows applied in order, each through `decode`. */
  function ApplyRows(c: Config, rows: seq<DescribeRow>, decode: DescribeRow -> Option<FieldUpdate>): (r: Config)
    ensures rows != [] && decode(rows[|rows| - 1]).Some? ==> Holds(r, decode(rows[|rows| - 1]).value)
    decreases |rows|
  {
    if rows == [] then c
    else
      var before := ApplyRows(c, rows[..|rows| - 1], decode);
      match decode(rows[|rows| - 1])
      case None => before
      case Some(u) => ApplyUpdate(before, u)
  }

  /** The whole Read: SHOW, category check, then DESCRIBE. A failed SHOW or
      DESCRIBE query is `None`. */
  function ReadInto(c: Config, id: string, category: string, show: Option<ShowRow>,
                    describe: Option<seq<DescribeRow>>, what: string,
                    decode: DescribeRow -> Option<FieldUpdate>): (r: ReadResult)
    ensures r.err.None? <==> show.Some? && show.value.category == category && describe.Some?
    ensures show.Some? && show.value.category != category ==>
              r == ReadResult(c, Some(WrongCategory(id, category, show.value.category)))
    ensures show.None? ==> r == ReadResult(c, Some(QueryFailed("Could not show " + what)))
    ensures show.Some? && show.value.category == category && describe.None? ==>
              r == ReadResult(ApplyShow(c, show.value), Some(QueryFailed("Could not describe " + what)))
    ensures r.err.None? ==> r.values == ApplyRows(ApplyShow(c, show.value), describe.value, decode)
  {
    match show
    case None => ReadResult(c, Some(QueryFailed("Could not show " + what)))
    case Some(row) =>
      if row.category != category then ReadResult(c, Some(WrongCategory(id, category, row.category)))
      else
        var shown := ApplyShow(c, row);
        match describe
        case None => ReadResult(shown, Some(QueryFailed("Could not describe " + what)))
        case Some(rows) => ReadResult(ApplyRows(shown, rows, decode), None)
  }

  /** `c` and `c'` hold the same value (or none) for `field`. */
  predicate AgreeOn(c: Config, c': Config, field: string)
  {
    (field in c.strings <==> field in c'.strings) &&
    (field in c.strings ==> c.strings[field] == c'.strings[field]) &&
    (field in c.bools <==> field in c'.bools) &&
    (field in c.bools ==> c.bools[field] == c'.bools[field]) &&
    (field in c.lists <==> field in c'.lists) &&
    (field in c.lists ==> c.lists[field] == c'.lists[field])
  }

  /** The value an update wrote is in place. */
  predicate Holds(c: Config, u: FieldUpdate)
  {
    match u
    case SetText(f, s) => f in c.strings && c.strings[f] == s
    case SetTextList(f, items) => f in c.lists && c.lists[f] == items
  }

  predicate Writes(o: Option<FieldUpdate>, field: string)
  {
    o.Some? && Field(o.value) == field
  }

  /** A field no row writes keeps its value. */
  lemma {:induction false} RowsUntouched(c: Config, rows: seq<DescribeRow>, decode: DescribeRow -> Option<FieldUpdate>, field: string)
    requires forall i | 0 <= i < |rows| :: !Writes(decode(rows[i]), field)
    ensures AgreeOn(ApplyRows(c, rows, decode), c, field)
    decreases |rows|
  {
    if rows != [] {
      var front := rows[..|rows| - 1];
      assert forall i | 0 <= i < |front| :: front[i] == rows[i];
      RowsUntouched(c, front, decode, field);
    }
  }

  /** The last row that writes a field decides its value. */
  lemma {:induction false} RowsLastWins(c: Config, rows: seq<DescribeRow>, decode: DescribeRow -> Option<FieldUpdate>, i: int)
    requires 0 <= i < |rows| && decode(rows[i]).Some?
    requires forall j | i < j < |rows| :: !Writes(decode(rows[j]), Field(decode(rows[i]).value))
    ensures Holds(ApplyRows(c, rows, decode), decode(rows[i]).value)
    decreases |rows|
  {
    var front := rows[..|rows| - 1];
    if i < |rows| - 1 {
      assert forall j | 0 <= j < |front| :: front[j] == rows[j];
      RowsLastWins(c, front, decode, i);
      var u := decode(rows[i]).value;
      match decode(rows[|rows| - 1])
      case None =>
      case Some(w) =>
        assert Field(w) != Field(u);
    }
  }

  /** The Read loop of both handlers: on success `d` holds exactly what
      `ReadInto` describes, on error what was set before the error. */
  method ReadIntegration(d: ResourceData, category: string, show: Option<ShowRow>,
                         describe: Option<seq<DescribeRow>>, what: string,
                         decode: DescribeRow -> Option<FieldUpdate>) returns (err: Option<Error>)
    modifies d
    ensures d.id == old(d.id)
    ensures d.values == ReadInto(old(d.values), d.id, category, show, describe, what, decode).values
    ensures err == ReadInto(old(d.values), d.id, category, show, describe, what, decode).err
  {
    if show.None? {
      return Some(QueryFailed("Could not show " + what));
    }
    var s := show.value;
    if s.category != category {
      return Some(WrongCategory(d.id, category, s.category));
    }
    d.SetString("name", s.name);
    d.SetString("created_on", s.createdOn);
    d.SetBool("enabled", s.enabled);
    if describe.None? {
      return Some(QueryFailed("Could not describe " + what));
    }
    var rows := describe.value;
    ghost var shown := d.values;
    var i := 0;
    while i < |rows|
      invariant 0 <= i <= |rows|
      invariant d.id == old(d.id)
      invariant d.values == ApplyRows(shown, rows[..i], decode)
    {
      assert rows[..i + 1][..i] == rows[..i];
      match decode(rows[i]) {
        case None =>
        case Some(SetText(f, v)) => d.SetString(f, v);
        case Some(SetTextList(f, items)) => d.SetList(f, items);
      }
      i := i + 1;
    }
    assert rows[..i] == rows;
    err := None;
  }
}
