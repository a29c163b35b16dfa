/** The shape shared by `setSecurityProviderSettings` and
    `setNotificationProviderSettings` once the provider is known: a fixed
    table of fields, each read with `GetOk` and, when set, appended as one
    setting; a required field that is not set stops the run with an error,
    leaving what was appended so far in the builder. */
module ProviderSteps {
  import opened Schema
  import opened Settings

  datatype Kind = Text | TextList

  /** One row of a provider table: the schema field, the setting key it is
      written under, its type, and whether its absence is an error. */
  datatype Step = Step(field: string, key: string, kind: Kind, required: bool)

  /** What a provider-settings call leaves behind: the settings it appended
      to the builder (also on error) and the error it returned, if any. */
  datatype Outcome = Outcome(appended: seq<Setting>, err: Option<Error>)

  /** The value `GetOk` yields for a step's field, as a setting value. */
  function Fetch(c: Config, st: Step): (r: Option<Value>)
    ensures st.kind == Text ==>
              (r.Some? <==> GetString(c, st.field) != "") && (r.Some? ==> r.value == Str(GetString(c, st.field)))
    ensures st.kind == TextList ==>
              (r.Some? <==> GetList(c, st.field) != []) && (r.Some? ==> r.value == List(GetList(c, st.field)))
  {
    match st.kind
    case Text => if GetOkString(c, st.field).Some? then Some(Str(GetString(c, st.field))) else None
    case TextList => if GetOkList(c, st.field).Some? then Some(List(GetList(c, st.field))) else None
  }

  /** A step does not stop the run: it is optional or its field is set. */
  predicate Satisfied(c: Config, st: Step)
  {
    !st.required || Fetch(c, st).Some?
  }

  /** The settings a table yields when nothing stops it: one per set field,
      in table order. */
  function Emit(c: Config, steps: seq<Step>): (r: seq<Setting>)
    ensures |r| <= |steps|
    decreases |steps|
  {
    if steps == [] then []
    else
      (match Fetch(c, steps[0])
       case None => []
       case Some(v) => [Setting(steps[0].key, v)])
      + Emit(c, steps[1..])
  }

  /** Runs a table after the settings `acc` are already in the builder. */
  function RunSteps(c: Config, steps: seq<Step>, acc: seq<Setting>): (o: Outcome)
    ensures |acc| <= |o.appended| && o.appended[..|acc|] == acc
    ensures o.err.Some? ==> o.err.value.Missing?
    decreases |steps|
  {
    if steps == [] then Outcome(acc, None)
    else
      match Fetch(c, steps[0])
      case None =>
        if steps[0].required then Outcome(acc, Some(Missing(steps[0].field)))
        else RunSteps(c, steps[1..], acc)
      case Some(v) => RunSteps(c, steps[1..], acc + [Setting(steps[0].key, v)])
  }

  /** Position `i` holds the first step that stops the run. */
  predicate FirstMissing(c: Config, steps: seq<Step>, i: int)
  {
    0 <= i < |steps| && !Satisfied(c, steps[i]) &&
    forall j | 0 <= j < i :: Satisfied(c, steps[j])
  }

  /** One step of a run whose field is set appends exactly its setting. */
  lemma RunStepsPresent(c: Config, steps: seq<Step>, k: nat, acc: seq<Setting>)
    requires k < |steps| && Fetch(c, steps[k]).Some?
    ensures RunSteps(c, steps[k..], acc)
         == RunSteps(c, steps[k + 1..], acc + [Setting(steps[k].key, Fetch(c, steps[k]).value)])
  {
    assert steps[k..][0] == steps[k];
    assert steps[k..][1..] == steps[k + 1..];
  }

  /** One optional step whose field is not set appends nothing. */
  lemma RunStepsSkipped(c: Config, steps: seq<Step>, k: nat, acc: seq<Setting>)
    requires k < |steps| && Fetch(c, steps[k]).None? && !steps[k].required
    ensures RunSteps(c, steps[k..], acc) == RunSteps(c, steps[k + 1..], acc)
  {
    assert steps[k..][0] == steps[k];
    assert steps[k..][1..] == steps[k + 1..];
  }

  /** A required step whose field is not set ends the run with its error. */
  lemma RunStepsMissing(c: Config, steps: seq<Step>, k: nat, acc: seq<Setting>)
    requires k < |steps| && Fetch(c, steps[k]).None? && steps[k].required
    ensures RunSteps(c, steps[k..], acc) == Outcome(acc, Some(Missing(steps[k].field)))
  {
    assert steps[k..][0] == steps[k];
  }

  /** What was in the builder before a run does not influence it. */
  lemma {:induction false} RunStepsShift(c: Config, steps: seq<Step>, before: seq<Setting>, acc: seq<Setting>)
    ensures RunSteps(c, steps, before + acc).err == RunSteps(c, steps, acc).err
    ensures RunSteps(c, steps, before + acc).appended == before + RunSteps(c, steps, acc).appended
    decreases |steps|
  {
    if steps != [] {
      match Fetch(c, steps[0])
      case None =>
        RunStepsShift(c, steps[1..], before, acc);
      case Some(v) =>
        var next := Setting(steps[0].key, v);
        assert before + acc + [next] == before + (acc + [next]);
        RunStepsShift(c, steps[1..], before, acc + [next]);
    }
  }

  /** Running two tables one after the other is running their
      concatenation: the second starts where the first stopped, unless the
      first failed. */
  lemma {:induction false} RunStepsConcat(c: Config, a: seq<Step>, b: seq<Step>, acc: seq<Setting>)
    ensures RunSteps(c, a + b, acc)
         == (var o := RunSteps(c, a, acc); if o.err.Some? then o else RunSteps(c, b, o.appended))
    decreases |a|
  {
    if a == [] {
      assert a + b == b;
    } else {
      assert (a + b)[0] == a[0];
      assert (a + b)[1..] == a[1..] + b;
      match Fetch(c, a[0])
      case None =>
        RunStepsConcat(c, a[1..], b, acc);
      case Some(v) =>
        RunStepsConcat(c, a[1..], b, acc + [Setting(a[0].key, v)]);
    }
  }

  /** A run succeeds exactly when every required field is set, and then it
      appends one setting per set field, in table order. */
  lemma {:induction false} RunStepsSucceeds(c: Config, steps: seq<Step>, acc: seq<Setting>)
    ensures RunSteps(c, steps, acc).err.None? <==> forall i | 0 <= i < |steps| :: Satisfied(c, steps[i])
    ensures RunSteps(c, steps, acc).err.None? ==> RunSteps(c, steps, acc).appended == acc + Emit(c, steps)
  {
    RunStepsFailsIffMissing(c, steps, acc);
    RunStepsAppendsEmit(c, steps, acc);
  }

  lemma {:induction false} RunStepsFailsIffMissing(c: Config, steps: seq<Step>, acc: seq<Setting>)
    ensures RunSteps(c, steps, acc).err.None? <==> forall i | 0 <= i < |steps| :: Satisfied(c, steps[i])
    decreases |steps|
  {
    if steps != [] {
      var rest := steps[1..];
      assert forall i | 1 <= i < |steps| :: steps[i] == rest[i - 1];
      match Fetch(c, steps[0])
      case None =>
        RunStepsFailsIffMissing(c, rest, acc);
      case Some(v) =>
        RunStepsFailsIffMissing(c, rest, acc + [Setting(steps[0].key, v)]);
    }
  }

  lemma {:induction false} RunStepsAppendsEmit(c: Config, steps: seq<Step>, acc: seq<Setting>)
    ensures RunSteps(c, steps, acc).err.None? ==> RunSteps(c, steps, acc).appended == acc + Emit(c, steps)
    decreases |steps|
  {
    if steps != [] {
      var rest := steps[1..];
      match Fetch(c, steps[0])
      case None =>
        RunStepsAppendsEmit(c, rest, acc);
      case Some(v) =>
        var next := Setting(steps[0].key, v);
        RunStepsAppendsEmit(c, rest, acc + [next]);
        assert acc + [next] + Emit(c, rest) == acc + ([next] + Emit(c, rest));
    }
  }

  /** The first unsatisfied required step decides the error, and the
      settings of every set field before it are already appended. */
  lemma {:induction false} RunStepsStopsAtFirstMissing(c: Config, steps: seq<Step>, acc: seq<Setting>, i: int)
    requires FirstMissing(c, steps, i)
    ensures RunSteps(c, steps, acc) == Outcome(acc + Emit(c, steps[..i]), Some(Missing(steps[i].field)))
    decreases |steps|
  {
    if i == 0 {
      assert steps[..0] == [];
    } else {
      var rest := steps[1..];
      var before := steps[..i];
      assert before[0] == steps[0] && before[1..] == rest[..i - 1];
      assert FirstMissing(c, rest, i - 1) by {
        forall j | 0 <= j < i - 1 ensures Satisfied(c, rest[j]) {
          assert rest[j] == steps[j + 1];
        }
      }
      assert Satisfied(c, steps[0]);
      assert rest[i - 1] == steps[i];
      match Fetch(c, steps[0])
      case None =>
        RunStepsStopsAtFirstMissing(c, rest, acc, i - 1);
        assert Emit(c, before) == Emit(c, rest[..i - 1]);
      case Some(v) =>
        var next := Setting(steps[0].key, v);
        RunStepsStopsAtFirstMissing(c, rest, acc + [next], i - 1);
        assert Emit(c, before) == [next] + Emit(c, rest[..i - 1]);
        assert acc + [next] + Emit(c, rest[..i - 1]) == acc + ([next] + Emit(c, rest[..i - 1]));
    }
  }

  /** Whether and how a run fails depends only on which required fields are
      set: the values of optional fields never cause an error. */
  lemma {:induction false} RunStepsErrorIgnoresOptional(c: Config, c': Config, steps: seq<Step>, acc: seq<Setting>, acc': seq<Setting>)
    requires forall i | 0 <= i < |steps| :: steps[i].required ==> (Fetch(c, steps[i]).Some? <==> Fetch(c', steps[i]).Some?)
    ensures RunSteps(c, steps, acc).err == RunSteps(c', steps, acc').err
    decreases |steps|
  {
    if steps != [] {
      var rest := steps[1..];
      assert forall i | 0 <= i < |rest| :: rest[i] == steps[i + 1];
      var a := match Fetch(c, steps[0]) case None => acc case Some(v) => acc + [Setting(steps[0].key, v)];
      var a' := match Fetch(c', steps[0]) case None => acc' case Some(v) => acc' + [Setting(steps[0].key, v)];
      RunStepsErrorIgnoresOptional(c, c', rest, a, a');
    }
  }

  /** With every field set, the run appends every row of the table, in
      order, each carrying its field's value. */
  lemma {:induction false} EmitAllPresent(c: Config, steps: seq<Step>)
    requires forall i | 0 <= i < |steps| :: Fetch(c, steps[i]).Some?
    ensures |Emit(c, steps)| == |steps|
    ensures forall i | 0 <= i < |steps| :: Emit(c, steps)[i] == Setting(steps[i].key, Fetch(c, steps[i]).value)
    decreases |steps|
  {
    if steps != [] {
      var rest := steps[1..];
      assert forall i | 0 <= i < |rest| :: rest[i] == steps[i + 1];
      EmitAllPresent(c, rest);
    }
  }
}
