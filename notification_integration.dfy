/** The notification integration resource: a queue integration created with
    `TYPE`, `ENABLED`, an optional `COMMENT` and the settings of its
    notification provider, updated field by field, and read back from SHOW
    and DESCRIBE INTEGRATION. */
module NotificationIntegration {
  import opened Schema
  import opened Settings
  import opened ProviderSteps
  import opened Alter
  import opened Describe

  const ProviderField := "notification_provider"
  const UriField := "azure_storage_queue_primary_uri"
  const TenantField := "azure_tenant_id"

  /** The fields the Azure storage queue provider takes, both required, in
      the order they are checked and appended. */
  const AzureSteps: seq<Step> := [
    Step(UriField, "AZURE_STORAGE_QUEUE_PRIMARY_URI", Text, true),
    Step(TenantField, "AZURE_TENANT_ID", Text, true)
  ]

  predicate IsAzure(p: string)
  {
    p == "azure_storage_queue" || p == "AZURE_STORAGE_QUEUE"
  }

  /** `setNotificationProviderSettings`: `NOTIFICATION_PROVIDER` first, then
      the Azure table, nothing more for Google Pub/Sub (upper case only),
      and an error for any other provider. */
  function NotificationProviderSettings(c: Config): (o: Outcome)
    ensures |o.appended| >= 1 && o.appended[0] == Setting("NOTIFICATION_PROVIDER", Str(GetString(c, ProviderField)))
    ensures (o.err.Some? && o.err.value.UnexpectedProvider?)
            <==> !IsAzure(GetString(c, ProviderField)) && GetString(c, ProviderField) != "GCP_PUBSUB"
    ensures o.err.Some? && o.err.value.UnexpectedProvider? ==>
              o.err.value.provider == GetString(c, ProviderField) && |o.appended| == 1
    ensures GetString(c, ProviderField) == "GCP_PUBSUB" ==> |o.appended| == 1 && o.err.None?
    ensures GetString(c, ProviderField) == "gcp_pubsub" ==> o.err == Some(UnexpectedProvider("gcp_pubsub"))
  {
    var p := GetString(c, ProviderField);
    var head := [Setting("NOTIFICATION_PROVIDER", Str(p))];
    if IsAzure(p) then RunSteps(c, AzureSteps, head)
    else if p == "GCP_PUBSUB" then Outcome(head, None)
    else Outcome(head, Some(UnexpectedProvider(p)))
  }

  /** The three outcomes of the Azure branch: a missing URI fails before
      the tenant is looked at; a missing tenant fails with the URI already
      appended; otherwise both are appended, URI first. */
  lemma AzureOutcomes(c: Config)
    requires IsAzure(GetString(c, ProviderField))
    ensures var head := Setting("NOTIFICATION_PROVIDER", Str(GetString(c, ProviderField)));
            var uri := Setting("AZURE_STORAGE_QUEUE_PRIMARY_URI", Str(GetString(c, UriField)));
            var tenant := Setting("AZURE_TENANT_ID", Str(GetString(c, TenantField)));
            NotificationProviderSettings(c)
            == if GetOkString(c, UriField).None? then Outcome([head], Some(Missing(UriField)))
               else if GetOkString(c, TenantField).None? then Outcome([head, uri], Some(Missing(TenantField)))
               else Outcome([head, uri, tenant], None)
  {
    var s := AzureSteps;
    var head := [Setting("NOTIFICATION_PROVIDER", Str(GetString(c, ProviderField)))];
    assert s[0..] == s && s[2..] == [];
    if GetOkString(c, UriField).None? {
      RunStepsMissing(c, s, 0, head);
    } else {
      var uri := Setting("AZURE_STORAGE_QUEUE_PRIMARY_URI", Str(GetString(c, UriField)));
      RunStepsPresent(c, s, 0, head);
      if GetOkString(c, TenantField).None? {
        RunStepsMissing(c, s, 1, head + [uri]);
      } else {
        RunStepsPresent(c, s, 1, head + [uri]);
      }
    }
  }

  /** The handler's own code: one `GetOk` and one append per Azure field,
      returning at the first one that is not set. */
  method SetNotificationProviderSettings(data: ResourceData, stmt: SettingBuilder) returns (err: Option<Error>)
    modifies stmt
    ensures stmt.settings == old(stmt.settings) + NotificationProviderSettings(data.values).appended
    ensures err == NotificationProviderSettings(data.values).err
  {
    var c := data.values;
    var notificationProvider := GetString(c, ProviderField);
    stmt.SetString("NOTIFICATION_PROVIDER", notificationProvider);
    if notificationProvider == "azure_storage_queue" || notificationProvider == "AZURE_STORAGE_QUEUE" {
      AzureOutcomes(c);
      var storageQueue := GetOkString(c, UriField);
      if storageQueue.None? {
        return Some(Missing(UriField));
      }
      stmt.SetString("AZURE_STORAGE_QUEUE_PRIMARY_URI", storageQueue.value);

      var tenantId := GetOkString(c, TenantField);
      if tenantId.None? {
        return Some(Missing(TenantField));
      }
      stmt.SetString("AZURE_TENANT_ID", tenantId.value);
    } else if notificationProvider == "GCP_PUBSUB" {
      // nothing to set here
    } else {
      return Some(UnexpectedProvider(notificationProvider));
    }
    return None;
  }

  /** The settings of `CreateNotificationIntegration`: `TYPE`, `ENABLED`,
      `COMMENT` when set, then the provider settings. */
  function NotificationCreateSettings(c: Config): (o: Outcome)
    ensures o.err == NotificationProviderSettings(c).err
    ensures |o.appended| >= 3
    ensures o.appended[0] == Setting("TYPE", Str(GetString(c, "type")))
    ensures o.appended[1] == Setting("ENABLED", Bool(GetBool(c, "enabled")))
    ensures o.appended[2].key == "COMMENT" <==> GetOkString(c, "comment").Some?
    ensures o.appended[2].key == "COMMENT" ==> o.appended[2].value == Str(GetString(c, "comment"))
    ensures var p := NotificationProviderSettings(c).appended;
            |o.appended| == (if GetOkString(c, "comment").Some? then 3 else 2) + |p| &&
            o.appended[|o.appended| - |p|..] == p
  {
    var comment := match GetOkString(c, "comment")
                   case None => []
                   case Some(v) => [Setting("COMMENT", Str(v))];
    var p := NotificationProviderSettings(c);
    Outcome([Setting("TYPE", Str(GetString(c, "type"))), Setting("ENABLED", Bool(GetBool(c, "enabled")))]
             + comment + p.appended, p.err)
  }

  /** `CreateNotificationIntegration`. A provider error returns before
      anything is sent; once the CREATE statement is accepted the ID is set
      and the integration is read back. */
  method CreateNotificationIntegration(d: ResourceData, db: Database, show: Option<ShowRow>,
                                       describe: Option<seq<DescribeRow>>) returns (err: Option<Error>)
    modifies d, db
    ensures var o := NotificationCreateSettings(old(d.values));
            var name := GetString(old(d.values), "name");
            var create := Create(Notification, name, o.appended);
            if o.err.Some? then
              err == o.err && db.log == old(db.log) && d.id == old(d.id) && d.values == old(d.values)
            else
              db.log == old(db.log) + [create] &&
              if create in db.refused then
                err == Some(ExecFailed("error creating notification integration"))
                && d.id == old(d.id) && d.values == old(d.values)
              else
                var r := NotificationRead(old(d.values), name, show, describe);
                d.id == name && err == r.err && d.values == r.values
  {
    err := SendNotificationCreate(d, db);
    if err.Some? {
      return;
    }
    err := ReadNotificationIntegration(d, show, describe);
  }

  /** The part of `CreateNotificationIntegration` before the read-back:
      builds the CREATE statement and sends it. */
  method SendNotificationCreate(d: ResourceData, db: Database) returns (err: Option<Error>)
    modifies d`id, db
    ensures d.values == old(d.values)
    ensures var o := NotificationCreateSettings(d.values);
            var name := GetString(d.values, "name");
            var create := Create(Notification, name, o.appended);
            if o.err.Some? then
              err == o.err && db.log == old(db.log) && d.id == old(d.id)
            else
              db.log == old(db.log) + [create] &&
              if create in db.refused then
                err == Some(ExecFailed("error creating notification integration")) && d.id == old(d.id)
              else
                err.None? && d.id == name
  {
    var name := GetString(d.values, "name");
    var settings;
    settings, err := BuildNotificationCreate(d);
    if err.Some? {
      return;
    }
    var failed := db.Exec(Create(Notification, name, settings));
    if failed {
      return Some(ExecFailed("error creating notification integration"));
    }
    d.SetId(name);
  }

  /** The CREATE settings as `CreateNotificationIntegration` collects them
      in its statement builder. */
  method BuildNotificationCreate(d: ResourceData) returns (settings: seq<Setting>, err: Option<Error>)
    ensures var o := NotificationCreateSettings(d.values);
            err == o.err && (err.None? ==> settings == o.appended)
  {
    var stmt := new SettingBuilder();
    stmt.SetString("TYPE", GetString(d.values, "type"));
    stmt.SetBool("ENABLED", GetBool(d.values, "enabled"));
    var comment := GetOkString(d.values, "comment");
    if comment.Some? {
      stmt.SetString("COMMENT", comment.value);
    }
    assert stmt.settings + NotificationProviderSettings(d.values).appended
        == NotificationCreateSettings(d.values).appended;
    err := SetNotificationProviderSettings(d, stmt);
    settings := stmt.settings;
  }

  /** The Azure fields an update sets one by one when the provider is
      unchanged. */
  const AzureAlterTexts: seq<AlterField> := [
    AlterField(UriField, "AZURE_STORAGE_QUEUE_PRIMARY_URI"),
    AlterField(TenantField, "AZURE_TENANT_ID")
  ]

  /** The decisions of `UpdateNotificationIntegration` before anything is
      sent: the settings of the ALTER ... SET, the `runSetStatement` flag,
      and a provider error. */
  datatype NotificationPlan = NotificationPlan(settings: seq<Setting>, runSet: bool, err: Option<Error>)

  function NotificationAlterPlan(c: Config, changed: set<string>): (p: NotificationPlan)
    ensures p.err.None? ==> (p.runSet <==> p.settings != [])
    ensures p.runSet <==> "comment" in changed || "enabled" in changed || ProviderField in changed
                          || UriField in changed || TenantField in changed
    ensures p.err.Some? <==> ProviderField in changed && NotificationProviderSettings(c).err.Some?
    ensures p.err.Some? ==> p.err == NotificationProviderSettings(c).err
    ensures ProviderField in changed ==>
              p.settings == CommonAlterSettings(c, changed) + NotificationProviderSettings(c).appended
    ensures ProviderField !in changed ==>
              p.settings == CommonAlterSettings(c, changed) + ChangedTexts(c, changed, AzureAlterTexts)
  {
    var common := CommonAlterSettings(c, changed);
    if ProviderField in changed then
      var o := NotificationProviderSettings(c);
      NotificationPlan(common + o.appended, true, o.err)
    else
      var t := AzureAlterTexts;
      assert t[0].field == UriField && t[1].field == TenantField;
      ChangedTextsNonEmpty(c, changed, t);
      var runSet := "comment" in changed || "enabled" in changed || AnyChanged(changed, t);
      NotificationPlan(common + ChangedTexts(c, changed, t), runSet, None)
  }

  /** With the provider unchanged, each changed Azure field contributes
      exactly one setting, carrying its new value, and an unchanged one
      none. */
  lemma NotificationAlterFieldwise(c: Config, changed: set<string>, i: int)
    requires ProviderField !in changed && 0 <= i < |AzureAlterTexts|
    ensures CountKey(NotificationAlterPlan(c, changed).settings, AzureAlterTexts[i].key)
         == if AzureAlterTexts[i].field in changed then 1 else 0
    ensures AzureAlterTexts[i].field in changed ==>
              Setting(AzureAlterTexts[i].key, Str(GetString(c, AzureAlterTexts[i].field)))
              in NotificationAlterPlan(c, changed).settings
  {
    var common := CommonAlterSettings(c, changed);
    var texts := ChangedTexts(c, changed, AzureAlterTexts);
    var key := AzureAlterTexts[i].key;
    assert DistinctKeys(AzureAlterTexts);
    assert key != "COMMENT" && key != "ENABLED";
    CountKeyAppend(common, texts, key);
    CountKeyAbsent(common, key);
    ChangedTextsExactlyOnce(c, changed, AzureAlterTexts, i);
  }

  /** The statements an update sends: the ALTER ... SET when the flag is
      up, nothing after a provider error. */
  function NotificationUpdateSent(p: NotificationPlan, id: string, refused: set<Statement>): (r: Sent)
    ensures p.err.Some? ==> r == Sent([], p.err)
    ensures p.err.None? ==> r.statements == (if p.runSet then [AlterSet(Notification, id, p.settings)] else [])
    ensures r.err.Some? <==> p.err.Some? || (p.runSet && AlterSet(Notification, id, p.settings) in refused)
    ensures p.err.None? && r.err.Some? ==> r.err == Some(ExecFailed("error updating notification integration"))
  {
    if p.err.Some? then Sent([], p.err)
    else SendAlter(AlterSet(Notification, id, p.settings), p.runSet, refused, "error updating notification integration")
  }

  /** An ALTER ... SET is sent exactly when one of the five fields changed
      (and the provider settings, if regenerated, are valid), and never
      without settings. */
  lemma NotificationUpdateSendsIffChanged(c: Config, changed: set<string>, id: string, refused: set<Statement>)
    ensures var p := NotificationAlterPlan(c, changed);
            var sent := NotificationUpdateSent(p, id, refused);
            (sent.statements != [] <==>
               p.err.None? &&
               ("comment" in changed || "enabled" in changed || ProviderField in changed
                || UriField in changed || TenantField in changed))
            && (forall s | s in sent.statements :: s.AlterSet? && s.settings != [])
  {
  }

  /** Read as done for this resource. */
  function NotificationRead(c: Config, id: string, show: Option<ShowRow>, describe: Option<seq<DescribeRow>>): (r: ReadResult)
    ensures show.Some? && show.value.category != "NOTIFICATION" ==>
              r == ReadResult(c, Some(WrongCategory(id, "NOTIFICATION", show.value.category)))
    ensures r.err.None? <==> show.Some? && show.value.category == "NOTIFICATION" && describe.Some?
    ensures show.None? ==> r == ReadResult(c, Some(QueryFailed("Could not show notification integration")))
    ensures show.Some? && show.value.category == "NOTIFICATION" && describe.None? ==>
              r == ReadResult(ApplyShow(c, show.value), Some(QueryFailed("Could not describe notification integration")))
    ensures r.err.None? ==> r.values == ApplyRows(ApplyShow(c, show.value), describe.value, NotificationDecode)
  {
    assert "Could not show " + "notification integration" == "Could not show notification integration";
    assert "Could not describe " + "notification integration" == "Could not describe notification integration";
    ReadInto(c, id, "NOTIFICATION", show, describe, "notification integration", NotificationDecode)
  }

  /** The DESCRIBE properties this resource reads. */
  const DescribedFields: set<string> := {ProviderField, UriField, TenantField}

  /** The `switch k` of `ReadNotificationIntegration`. */
  function NotificationDecode(row: DescribeRow): (u: Option<FieldUpdate>)
    ensures u.Some? <==> row.property in {"NOTIFICATION_PROVIDER", "AZURE_STORAGE_QUEUE_PRIMARY_URI", "AZURE_TENANT_ID"}
    ensures row.property == "NOTIFICATION_PROVIDER" ==> u == Some(SetText(ProviderField, row.value))
    ensures row.property == "AZURE_STORAGE_QUEUE_PRIMARY_URI" ==> u == Some(SetText(UriField, row.value))
    ensures row.property == "AZURE_TENANT_ID" ==> u == Some(SetText(TenantField, row.value))
  {
    var k, v := row.property, row.value;
    if k == "ENABLED" then None  // set from the SHOW row
    else if k == "NOTIFICATION_PROVIDER" then Some(SetText(ProviderField, v))
    else if k == "AZURE_STORAGE_QUEUE_PRIMARY_URI" then Some(SetText(UriField, v))
    else if k == "AZURE_TENANT_ID" then Some(SetText(TenantField, v))
    else None  // unexpected property: only logged
  }

  /** DESCRIBE never touches a field outside its table: in particular not
      `enabled`, `name` or `created_on`, which come from SHOW. */
  lemma {:induction false} NotificationDescribeKeepsOtherFields(c: Config, rows: seq<DescribeRow>, field: string)
    requires field !in DescribedFields
    ensures AgreeOn(ApplyRows(c, rows, NotificationDecode), c, field)
  {
    forall i | 0 <= i < |rows|
      ensures !Writes(NotificationDecode(rows[i]), field)
    {
    }
    RowsUntouched(c, rows, NotificationDecode, field);
  }

  /** The provider read back is the value of the last NOTIFICATION_PROVIDER
      row. */
  lemma {:induction false} NotificationReadsLastProvider(c: Config, rows: seq<DescribeRow>, i: int)
    requires 0 <= i < |rows| && rows[i].property == "NOTIFICATION_PROVIDER"
    requires forall j | i < j < |rows| :: rows[j].property != "NOTIFICATION_PROVIDER"
    ensures var r := ApplyRows(c, rows, NotificationDecode);
            ProviderField in r.strings && r.strings[ProviderField] == rows[i].value
  {
    forall j | i < j < |rows|
      ensures !Writes(NotificationDecode(rows[j]), ProviderField)
    {
    }
    RowsLastWins(c, rows, NotificationDecode, i);
  }

  /** After a successful read, `name`, `created_on` and `enabled` hold the
      SHOW row's values. */
  lemma NotificationReadTakesShowRow(c: Config, id: string, show: Option<ShowRow>, describe: Option<seq<DescribeRow>>)
    requires NotificationRead(c, id, show, describe).err.None?
    ensures var r := NotificationRead(c, id, show, describe).values;
            "name" in r.strings && r.strings["name"] == show.value.name &&
            "created_on" in r.strings && r.strings["created_on"] == show.value.createdOn &&
            "enabled" in r.bools && r.bools["enabled"] == show.value.enabled
  {
    var shown := ApplyShow(c, show.value);
    assert NotificationRead(c, id, show, describe).values == ApplyRows(shown, describe.value, NotificationDecode);
    NotificationDescribeKeepsOtherFields(shown, describe.value, "name");
    NotificationDescribeKeepsOtherFields(shown, describe.value, "created_on");
    NotificationDescribeKeepsOtherFields(shown, describe.value, "enabled");
  }

  /** After a successful read, a field that neither SHOW nor DESCRIBE
      reports keeps the value it had. */
  lemma NotificationReadKeepsOtherFields(c: Config, id: string, show: Option<ShowRow>, describe: Option<seq<DescribeRow>>,
                                  field: string)
    requires NotificationRead(c, id, show, describe).err.None?
    requires field !in DescribedFields && field != "name" && field != "created_on" && field != "enabled"
    ensures AgreeOn(NotificationRead(c, id, show, describe).values, c, field)
  {
    var shown := ApplyShow(c, show.value);
    assert NotificationRead(c, id, show, describe).values == ApplyRows(shown, describe.value, NotificationDecode);
    NotificationDescribeKeepsOtherFields(shown, describe.value, field);
  }

  /** `ReadNotificationIntegration`. */
  method ReadNotificationIntegration(d: ResourceData, show: Option<ShowRow>, describe: Option<seq<DescribeRow>>)
    returns (err: Option<Error>)
    modifies d
    ensures d.id == old(d.id)
    ensures d.values == NotificationRead(old(d.values), d.id, show, describe).values
    ensures err == NotificationRead(old(d.values), d.id, show, describe).err
  {
    err := ReadIntegration(d, "NOTIFICATION", show, describe, "notification integration", NotificationDecode);
  }

  /** `UpdateNotificationIntegration`: what is sent follows the plan, and
      the integration is read back unless something failed. */
  method UpdateNotificationIntegration(d: ResourceData, db: Database, show: Option<ShowRow>,
                                       describe: Option<seq<DescribeRow>>) returns (err: Option<Error>)
    modifies d, db
    ensures d.id == old(d.id)
    ensures var sent := NotificationUpdateSent(NotificationAlterPlan(old(d.values), d.changed), d.id, db.refused);
            db.log == old(db.log) + sent.statements &&
            if sent.err.Some? then
              err == sent.err && d.values == old(d.values)
            else
              var r := NotificationRead(old(d.values), d.id, show, describe);
              err == r.err && d.values == r.values
  {
    err := SendNotificationAlter(d, db);
    if err.Some? {
      return;
    }
    err := ReadNotificationIntegration(d, show, describe);
  }

  /** The part of `UpdateNotificationIntegration` before the read-back:
      builds the ALTER ... SET statement from the changed fields and sends
      it when the flag is up. */
  method SendNotificationAlter(d: ResourceData, db: Database) returns (err: Option<Error>)
    modifies db
    ensures var sent := NotificationUpdateSent(NotificationAlterPlan(d.values, d.changed), d.id, db.refused);
            db.log == old(db.log) + sent.statements && err == sent.err
  {
    var c := d.values;
    var id := d.id;
    ghost var plan := NotificationAlterPlan(c, d.changed);
    var stmt := new SettingBuilder();
    var runSetStatement := SetCommonAlterSettings(d, stmt);
    assert [] + CommonAlterSettings(c, d.changed) == CommonAlterSettings(c, d.changed);

    if d.HasChange(ProviderField) {
      runSetStatement := true;
      err := SetNotificationProviderSettings(d, stmt);
      if err.Some? {
        return;
      }
    } else {
      ghost var t := AzureAlterTexts;
      assert t[0..] == t && t[2..] == [];
      var uriChanged := SetTextIfChanged(d, stmt, UriField, "AZURE_STORAGE_QUEUE_PRIMARY_URI", t, 0);
      var tenantChanged := SetTextIfChanged(d, stmt, TenantField, "AZURE_TENANT_ID", t, 1);
      runSetStatement := runSetStatement || uriChanged || tenantChanged;
      assert stmt.settings + [] == stmt.settings;
    }
    assert stmt.settings == plan.settings;
    assert runSetStatement == plan.runSet;

    if runSetStatement {
      var failed := db.Exec(AlterSet(Notification, id, stmt.settings));
      if failed {
        return Some(ExecFailed("error updating notification integration"));
      }
    }
    err := None;
  }
}
