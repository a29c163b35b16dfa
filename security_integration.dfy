/** The security integration resource: an external OAuth binding, created
    with `ENABLED`, an optional `COMMENT` and the provider settings chosen
    by `type`, updated field by field, and read back from SHOW and DESCRIBE
    INTEGRATION. */
module SecurityIntegration {
  import opened Schema
  import opened Settings
  import opened ProviderSteps
  import opened Alter
  import opened Describe

  const AudienceField := "external_oauth_audience_list"
  const AudienceKey := "EXTERNAL_OAUTH_AUDIENCE_LIST"
  const RoleModeField := "external_oauth_any_role_mode"

  /** The fields an `EXTERNAL_OAUTH` integration takes, in the order they
      are checked and appended: first the five that identify the issuer and
      the user mapping, all required, then the keys, audience and role mode,
      of which only the two RSA keys are optional. The audience list is
      written under the lower-case key, as the handler does. */
  const IdentitySteps: seq<Step> := [
    Step("external_oauth_type", "EXTERNAL_OAUTH_TYPE", Text, true),
    Step("external_oauth_issuer", "EXTERNAL_OAUTH_ISSUER", Text, true),
    Step("external_oauth_token_user_mapping_claim", "EXTERNAL_OAUTH_TOKEN_USER_MAPPING_CLAIM", Text, true),
    Step("external_oauth_snowflake_user_mapping_attribute", "EXTERNAL_OAUTH_SNOWFLAKE_USER_MAPPING_ATTRIBUTE", Text, true),
    Step("external_oauth_jws_keys_url", "EXTERNAL_OAUTH_JWS_KEYS_URL", Text, true)
  ]
  const KeySteps: seq<Step> := [
    Step("external_oauth_rsa_public_key", "EXTERNAL_OAUTH_RSA_PUBLIC_KEY", Text, false),
    Step("external_oauth_rsa_public_key_2", "EXTERNAL_OAUTH_RSA_PUBLIC_KEY_2", Text, false),
    Step(AudienceField, "external_oauth_audience_list", TextList, true),
    Step(RoleModeField, "EXTERNAL_OAUTH_ANY_ROLE_MODE", Text, true)
  ]
  const ExternalOAuthSteps: seq<Step> := IdentitySteps + KeySteps

  predicate IsExternalOAuth(t: string)
  {
    t == "external_oauth" || t == "EXTERNAL_OAUTH"
  }

  /** The vendors that take no settings beyond `TYPE`. */
  predicate IsBareVendor(t: string)
  {
    t == "PING_FEDERATE" || t == "OKTA" || t == "CUSTOM"
  }

  /** `setSecurityProviderSettings`: `TYPE` first, then the external OAuth
      table, nothing more for the bare vendors, an error for any other
      type. */
  function SecurityProviderSettings(c: Config): (o: Outcome)
    ensures |o.appended| >= 1 && o.appended[0] == Setting("TYPE", Str(GetString(c, "type")))
    ensures (o.err.Some? && o.err.value.UnexpectedType?)
            <==> !IsExternalOAuth(GetString(c, "type")) && !IsBareVendor(GetString(c, "type"))
    ensures o.err.Some? && o.err.value.UnexpectedType? ==>
              o.err.value.securityType == GetString(c, "type") && |o.appended| == 1
    ensures IsBareVendor(GetString(c, "type")) ==> |o.appended| == 1 && o.err.None?
  {
    var t := GetString(c, "type");
    var head := [Setting("TYPE", Str(t))];
    if IsExternalOAuth(t) then RunSteps(c, ExternalOAuthSteps, head)
    else if IsBareVendor(t) then Outcome(head, None)
    else Outcome(head, Some(UnexpectedType(t)))
  }

  /** An external OAuth integration is accepted exactly when the seven
      required fields are set; it then carries one setting per set field
      in table order. */
  lemma ExternalOAuthSucceeds(c: Config)
    requires IsExternalOAuth(GetString(c, "type"))
    ensures SecurityProviderSettings(c).err.None? <==>
              && GetOkString(c, "external_oauth_type").Some?
              && GetOkString(c, "external_oauth_issuer").Some?
              && GetOkString(c, "external_oauth_token_user_mapping_claim").Some?
              && GetOkString(c, "external_oauth_snowflake_user_mapping_attribute").Some?
              && GetOkString(c, "external_oauth_jws_keys_url").Some?
              && GetOkList(c, AudienceField).Some?
              && GetOkString(c, RoleModeField).Some?
    ensures SecurityProviderSettings(c).err.None? ==>
              SecurityProviderSettings(c).appended
              == [Setting("TYPE", Str(GetString(c, "type")))] + Emit(c, ExternalOAuthSteps)
  {
    var head := [Setting("TYPE", Str(GetString(c, "type")))];
    RunStepsSucceeds(c, ExternalOAuthSteps, head);
    var s := ExternalOAuthSteps;
    assert |s| == 9;
    assert s[0] == IdentitySteps[0] && s[1] == IdentitySteps[1] && s[2] == IdentitySteps[2];
    assert s[3] == IdentitySteps[3] && s[4] == IdentitySteps[4];
    assert s[5] == KeySteps[0] && s[6] == KeySteps[1] && s[7] == KeySteps[2] && s[8] == KeySteps[3];
  }

  /** The first required field that is not set, in table order, is the one
      named by the error, and only the settings before it were appended. */
  lemma ExternalOAuthFirstMissing(c: Config, i: int)
    requires IsExternalOAuth(GetString(c, "type"))
    requires FirstMissing(c, ExternalOAuthSteps, i)
    ensures SecurityProviderSettings(c)
         == Outcome([Setting("TYPE", Str(GetString(c, "type")))] + Emit(c, ExternalOAuthSteps[..i]),
                    Some(Missing(ExternalOAuthSteps[i].field)))
  {
    RunStepsStopsAtFirstMissing(c, ExternalOAuthSteps, [Setting("TYPE", Str(GetString(c, "type")))], i);
  }

  /** Leaving out the RSA public keys never changes whether, or why,
      provider settings fail. */
  lemma RsaKeysNeverRequired(c: Config)
    ensures var c' := c.(strings := c.strings - {"external_oauth_rsa_public_key", "external_oauth_rsa_public_key_2"});
            SecurityProviderSettings(c).err == SecurityProviderSettings(c').err
  {
    var c' := c.(strings := c.strings - {"external_oauth_rsa_public_key", "external_oauth_rsa_public_key_2"});
    assert GetString(c, "type") == GetString(c', "type");
    var head := [Setting("TYPE", Str(GetString(c, "type")))];
    forall i | 0 <= i < |ExternalOAuthSteps| && ExternalOAuthSteps[i].required
      ensures Fetch(c, ExternalOAuthSteps[i]).Some? <==> Fetch(c', ExternalOAuthSteps[i]).Some?
    {
      assert GetString(c, ExternalOAuthSteps[i].field) == GetString(c', ExternalOAuthSteps[i].field);
    }
    RunStepsErrorIgnoresOptional(c, c', ExternalOAuthSteps, head, head);
  }

  /** `setSecurityProviderSettings`. The external OAuth branch runs as two
      methods, one per half of the table. */
  method SetSecurityProviderSettings(data: ResourceData, stmt: SettingBuilder) returns (err: Option<Error>)
    modifies stmt
    ensures stmt.settings == old(stmt.settings) + SecurityProviderSettings(data.values).appended
    ensures err == SecurityProviderSettings(data.values).err
  {
    var c := data.values;
    var securityType := GetString(c, "type");
    stmt.SetString("TYPE", securityType);
    if securityType == "external_oauth" || securityType == "EXTERNAL_OAUTH" {
      ghost var head := [Setting("TYPE", Str(securityType))];
      RunStepsShift(c, ExternalOAuthSteps, old(stmt.settings), head);
      RunStepsConcat(c, IdentitySteps, KeySteps, stmt.settings);
      err := SetIdentitySettings(c, stmt);
      if err.Some? {
        return;
      }
      err := SetKeySettings(c, stmt);
      return;
    } else if securityType == "PING_FEDERATE" {
      // nothing to set here
    } else if securityType == "OKTA" {
      // nothing to set here
    } else if securityType == "CUSTOM" {
      // nothing to set here
    } else {
      return Some(UnexpectedType(securityType));
    }
    return None;
  }

  /** The issuer and user-mapping fields, each required. */
  method SetIdentitySettings(c: Config, stmt: SettingBuilder) returns (err: Option<Error>)
    modifies stmt
    ensures stmt.settings == RunSteps(c, IdentitySteps, old(stmt.settings)).appended
    ensures err == RunSteps(c, IdentitySteps, old(stmt.settings)).err
  {
    ghost var s := IdentitySteps;
    assert s[0..] == s;

    var oauthType := GetOkString(c, "external_oauth_type");
    if oauthType.None? {
      RunStepsMissing(c, s, 0, stmt.settings);
      return Some(Missing("external_oauth_type"));
    }
    RunStepsPresent(c, s, 0, stmt.settings);
    stmt.SetString("EXTERNAL_OAUTH_TYPE", oauthType.value);

    var issuer := GetOkString(c, "external_oauth_issuer");
    if issuer.None? {
      RunStepsMissing(c, s, 1, stmt.settings);
      return Some(Missing("external_oauth_issuer"));
    }
    RunStepsPresent(c, s, 1, stmt.settings);
    stmt.SetString("EXTERNAL_OAUTH_ISSUER", issuer.value);

    var claim := GetOkString(c, "external_oauth_token_user_mapping_claim");
    if claim.None? {
      RunStepsMissing(c, s, 2, stmt.settings);
      return Some(Missing("external_oauth_token_user_mapping_claim"));
    }
    RunStepsPresent(c, s, 2, stmt.settings);
    stmt.SetString("EXTERNAL_OAUTH_TOKEN_USER_MAPPING_CLAIM", claim.value);

    var attribute := GetOkString(c, "external_oauth_snowflake_user_mapping_attribute");
    if attribute.None? {
      RunStepsMissing(c, s, 3, stmt.settings);
      return Some(Missing("external_oauth_snowflake_user_mapping_attribute"));
    }
    RunStepsPresent(c, s, 3, stmt.settings);
    stmt.SetString("EXTERNAL_OAUTH_SNOWFLAKE_USER_MAPPING_ATTRIBUTE", attribute.value);

    var keysUrl := GetOkString(c, "external_oauth_jws_keys_url");
    if keysUrl.None? {
      RunStepsMissing(c, s, 4, stmt.settings);
      return Some(Missing("external_oauth_jws_keys_url"));
    }
    RunStepsPresent(c, s, 4, stmt.settings);
    stmt.SetString("EXTERNAL_OAUTH_JWS_KEYS_URL", keysUrl.value);
    assert s[5..] == [];
    return None;
  }

  /** The two optional RSA keys, then the required audience list and role
      mode. */
  method SetKeySettings(c: Config, stmt: SettingBuilder) returns (err: Option<Error>)
    modifies stmt
    ensures stmt.settings == RunSteps(c, KeySteps, old(stmt.settings)).appended
    ensures err == RunSteps(c, KeySteps, old(stmt.settings)).err
  {
    ghost var s := KeySteps;
    assert s[0..] == s;

    var rsaKey := GetOkString(c, "external_oauth_rsa_public_key");
    if rsaKey.Some? {
      RunStepsPresent(c, s, 0, stmt.settings);
      stmt.SetString("EXTERNAL_OAUTH_RSA_PUBLIC_KEY", rsaKey.value);
    } else {
      RunStepsSkipped(c, s, 0, stmt.settings);
    }

    var rsaKey2 := GetOkString(c, "external_oauth_rsa_public_key_2");
    if rsaKey2.Some? {
      RunStepsPresent(c, s, 1, stmt.settings);
      stmt.SetString("EXTERNAL_OAUTH_RSA_PUBLIC_KEY_2", rsaKey2.value);
    } else {
      RunStepsSkipped(c, s, 1, stmt.settings);
    }

    var audience := GetOkList(c, AudienceField);
    if audience.None? {
      RunStepsMissing(c, s, 2, stmt.settings);
      return Some(Missing(AudienceField));
    }
    RunStepsPresent(c, s, 2, stmt.settings);
    stmt.SetStringList("external_oauth_audience_list", audience.value);

    var roleMode := GetOkString(c, RoleModeField);
    if roleMode.None? {
      RunStepsMissing(c, s, 3, stmt.settings);
      return Some(Missing(RoleModeField));
    }
    RunStepsPresent(c, s, 3, stmt.settings);
    stmt.SetString("EXTERNAL_OAUTH_ANY_ROLE_MODE", roleMode.value);
    assert s[4..] == [];
    return None;
  }

  /** The settings of `CreateSecurityIntegration`: `ENABLED`, `COMMENT`
      when set, then the provider settings. */
  function SecurityCreateSettings(c: Config): (o: Outcome)
    ensures o.err == SecurityProviderSettings(c).err
    ensures |o.appended| >= 2 && o.appended[0] == Setting("ENABLED", Bool(GetBool(c, "enabled")))
    ensures o.appended[1].key == "COMMENT" <==> GetOkString(c, "comment").Some?
    ensures o.appended[1].key == "COMMENT" ==> o.appended[1].value == Str(GetString(c, "comment"))
    ensures var p := SecurityProviderSettings(c).appended;
            |o.appended| == (if GetOkString(c, "comment").Some? then 2 else 1) + |p| &&
            o.appended[|o.appended| - |p|..] == p
  {
    var comment := match GetOkString(c, "comment")
                   case None => []
                   case Some(v) => [Setting("COMMENT", Str(v))];
    var p := SecurityProviderSettings(c);
    Outcome([Setting("ENABLED", Bool(GetBool(c, "enabled")))] + comment + p.appended, p.err)
  }

  /** `CreateSecurityIntegration`. A provider error returns before anything
      is sent and leaves the ID unset; the ID is set only once the CREATE
      statement is accepted. This handler does not read the integration
      back. */
  method CreateSecurityIntegration(d: ResourceData, db: Database) returns (err: Option<Error>)
    modifies d, db
    ensures d.values == old(d.values)
    ensures var o := SecurityCreateSettings(d.values);
            var name := GetString(d.values, "name");
            var create := Create(Security, name, o.appended);
            if o.err.Some? then
              err == o.err && db.log == old(db.log) && d.id == old(d.id)
            else
              db.log == old(db.log) + [create] &&
              if create in db.refused then
                err == Some(ExecFailed("error creating security integration")) && d.id == old(d.id)
              else
                err.None? && d.id == name
  {
    var name := GetString(d.values, "name");
    var settings;
    settings, err := BuildSecurityCreate(d);
    if err.Some? {
      return;
    }
    var failed := db.Exec(Create(Security, name, settings));
    if failed {
      return Some(ExecFailed("error creating security integration"));
    }
    d.SetId(name);
  }

  /** The CREATE settings as `CreateSecurityIntegration` collects them in
      its statement builder. */
  method BuildSecurityCreate(d: ResourceData) returns (settings: seq<Setting>, err: Option<Error>)
    ensures var o := SecurityCreateSettings(d.values);
            err == o.err && (err.None? ==> settings == o.appended)
  {
    var stmt := new SettingBuilder();
    stmt.SetBool("ENABLED", GetBool(d.values, "enabled"));
    var comment := GetOkString(d.values, "comment");
    if comment.Some? {
      stmt.SetString("COMMENT", comment.value);
    }
    ghost var before := stmt.settings;
    assert before + SecurityProviderSettings(d.values).appended == SecurityCreateSettings(d.values).appended;
    err := SetSecurityProviderSettings(d, stmt);
    settings := stmt.settings;
  }

  /** The string fields an update sets one by one, in the handler's order;
      the audience list follows them and the role mode comes last. */
  const AlterTexts: seq<AlterField> := [
    AlterField("external_oauth_type", "EXTERNAL_OAUTH_TYPE"),
    AlterField("external_oauth_issuer", "EXTERNAL_OAUTH_ISSUER"),
    AlterField("external_oauth_token_user_mapping_claim", "EXTERNAL_OAUTH_TOKEN_USER_MAPPING_CLAIM"),
    AlterField("external_oauth_snowflake_user_mapping_attribute", "EXTERNAL_OAUTH_SNOWFLAKE_USER_MAPPING_ATTRIBUTE"),
    AlterField("external_oauth_jws_keys_url", "EXTERNAL_OAUTH_JWS_KEYS_URL"),
    AlterField("external_oauth_rsa_public_key", "EXTERNAL_OAUTH_RSA_PUBLIC_KEY"),
    AlterField("external_oauth_rsa_public_key_2", "EXTERNAL_OAUTH_RSA_PUBLIC_KEY_2")
  ]
  const AlterRoleMode: seq<AlterField> := [AlterField(RoleModeField, "EXTERNAL_OAUTH_ANY_ROLE_MODE")]

  /** The decisions of `UpdateSecurityIntegration` before anything is sent:
      the settings of the ALTER ... SET, whether the audience list is
      unset, the `runSetStatement` flag, and a provider error. */
  datatype AlterPlan = AlterPlan(settings: seq<Setting>, unsetAudience: bool, runSet: bool, err: Option<Error>)

  /** The audience list is set only when it changed to a non-empty list;
      emptying it is an UNSET of its own. */
  function AudienceSetting(c: Config, changed: set<string>): (r: seq<Setting>)
    ensures r != [] <==> AudienceField in changed && GetList(c, AudienceField) != []
    ensures r != [] ==> r == [Setting(AudienceKey, List(GetList(c, AudienceField)))]
  {
    if AudienceField in changed && GetList(c, AudienceField) != [] then [Setting(AudienceKey, List(GetList(c, AudienceField)))]
    else []
  }

  /** The settings an update with an unchanged `type` adds after the
      common ones: the changed string fields, the audience list, the role
      mode. */
  function FieldwiseSettings(c: Config, changed: set<string>): (r: seq<Setting>)
    ensures r != [] <==>
              AnyChanged(changed, AlterTexts) || (AudienceField in changed && GetList(c, AudienceField) != [])
              || AnyChanged(changed, AlterRoleMode)
  {
    ChangedTextsNonEmpty(c, changed, AlterTexts);
    ChangedTextsNonEmpty(c, changed, AlterRoleMode);
    ChangedTexts(c, changed, AlterTexts) + AudienceSetting(c, changed) + ChangedTexts(c, changed, AlterRoleMode)
  }

  function SecurityAlterPlan(c: Config, changed: set<string>): (p: AlterPlan)
    ensures p.err.None? ==> (p.runSet <==> p.settings != [])
    ensures p.err.Some? ==> "type" in changed && p.err == SecurityProviderSettings(c).err
    ensures p.unsetAudience <==> "type" !in changed && AudienceField in changed && GetList(c, AudienceField) == []
    ensures "type" in changed ==>
              p.runSet && p.settings == CommonAlterSettings(c, changed) + SecurityProviderSettings(c).appended
              && p.err == SecurityProviderSettings(c).err
    ensures "type" !in changed ==>
              p.err.None? && p.settings == CommonAlterSettings(c, changed) + FieldwiseSettings(c, changed)
  {
    var common := CommonAlterSettings(c, changed);
    var commonRun := "comment" in changed || "enabled" in changed;
    if "type" in changed then
      var o := SecurityProviderSettings(c);
      AlterPlan(common + o.appended, false, true, o.err)
    else
      var audience := GetList(c, AudienceField);
      var audienceChanged := AudienceField in changed;
      var runSet := commonRun || AnyChanged(changed, AlterTexts) || (audienceChanged && audience != [])
                    || AnyChanged(changed, AlterRoleMode);
      AlterPlan(common + FieldwiseSettings(c, changed), audienceChanged && audience == [], runSet, None)
  }

  /** The keys of an update are pairwise distinct. */
  lemma AlterKeysApart()
    ensures DistinctKeys(AlterTexts)
    ensures forall i | 0 <= i < |AlterTexts| ::
              AlterTexts[i].key != AudienceKey && AlterTexts[i].key != AlterRoleMode[0].key &&
              AlterTexts[i].key != "COMMENT" && AlterTexts[i].key != "ENABLED"
  {
  }

  /** How often `key` occurs in an update with unchanged `type`, split by
      the parts of the statement. */
  lemma CountKeyPlan(c: Config, changed: set<string>, key: string)
    requires "type" !in changed && key != "COMMENT" && key != "ENABLED"
    ensures CountKey(SecurityAlterPlan(c, changed).settings, key)
         == CountKey(ChangedTexts(c, changed, AlterTexts), key) + CountKey(AudienceSetting(c, changed), key)
            + CountKey(ChangedTexts(c, changed, AlterRoleMode), key)
  {
    var common := CommonAlterSettings(c, changed);
    var texts := ChangedTexts(c, changed, AlterTexts);
    var audience := AudienceSetting(c, changed);
    var role := ChangedTexts(c, changed, AlterRoleMode);
    assert SecurityAlterPlan(c, changed).settings == common + (texts + audience + role);
    CountKeyAppend(common, texts + audience + role, key);
    CountKeyAppend(texts + audience, role, key);
    CountKeyAppend(texts, audience, key);
    CountKeyAbsent(common, key);
  }

  /** When `type` is unchanged, each changed string field contributes
      exactly one setting, carrying its new value, and an unchanged one
      none. */
  lemma SecurityAlterFieldwise(c: Config, changed: set<string>, i: int)
    requires "type" !in changed && 0 <= i < |AlterTexts|
    ensures CountKey(SecurityAlterPlan(c, changed).settings, AlterTexts[i].key)
         == if AlterTexts[i].field in changed then 1 else 0
    ensures AlterTexts[i].field in changed ==>
              Setting(AlterTexts[i].key, Str(GetString(c, AlterTexts[i].field))) in SecurityAlterPlan(c, changed).settings
  {
    var f := AlterTexts[i];
    AlterKeysApart();
    CountKeyPlan(c, changed, f.key);
    ChangedTextsExactlyOnce(c, changed, AlterTexts, i);
    ChangedTextsOtherKey(c, changed, AlterRoleMode, f.key);
    if AudienceSetting(c, changed) != [] {
      assert CountKey(AudienceSetting(c, changed), f.key) == 0;
    }
  }

  /** The same for the role mode, which follows the audience list. */
  lemma SecurityAlterRoleMode(c: Config, changed: set<string>)
    requires "type" !in changed
    ensures CountKey(SecurityAlterPlan(c, changed).settings, "EXTERNAL_OAUTH_ANY_ROLE_MODE")
         == if RoleModeField in changed then 1 else 0
    ensures RoleModeField in changed ==>
              Setting("EXTERNAL_OAUTH_ANY_ROLE_MODE", Str(GetString(c, RoleModeField))) in SecurityAlterPlan(c, changed).settings
  {
    var key := AlterRoleMode[0].key;
    AlterKeysApart();
    CountKeyPlan(c, changed, key);
    ChangedTextsExactlyOnce(c, changed, AlterRoleMode, 0);
    ChangedTextsOtherKey(c, changed, AlterTexts, key);
    if AudienceSetting(c, changed) != [] {
      assert CountKey(AudienceSetting(c, changed), key) == 0;
    }
  }

  /** When `type` is unchanged, the audience list is set exactly once when
      it changed to a non-empty list, and not otherwise. */
  lemma SecurityAlterAudience(c: Config, changed: set<string>)
    requires "type" !in changed
    ensures CountKey(SecurityAlterPlan(c, changed).settings, AudienceKey)
         == if AudienceField in changed && GetList(c, AudienceField) != [] then 1 else 0
    ensures AudienceField in changed && GetList(c, AudienceField) != [] ==>
              Setting(AudienceKey, List(GetList(c, AudienceField))) in SecurityAlterPlan(c, changed).settings
  {
    AlterKeysApart();
    CountKeyPlan(c, changed, AudienceKey);
    ChangedTextsOtherKey(c, changed, AlterTexts, AudienceKey);
    ChangedTextsOtherKey(c, changed, AlterRoleMode, AudienceKey);
  }

  /** The statements an update sends: the UNSET of the audience list first,
      when planned (a refusal stops there), then the ALTER ... SET when the
      flag is up. A provider error sends nothing. */
  function SecurityUpdateSent(p: AlterPlan, id: string, refused: set<Statement>): (r: Sent)
    ensures p.err.Some? ==> r == Sent([], p.err)
    ensures forall s | s in r.statements :: s.AlterSet? ==> s.settings == p.settings && p.runSet
    ensures AlterUnset(Security, id, AudienceKey) in r.statements <==> p.err.None? && p.unsetAudience
    ensures p.err.None? && p.unsetAudience ==> r.statements[0] == AlterUnset(Security, id, AudienceKey)
    ensures p.err.None? && !(p.unsetAudience && AlterUnset(Security, id, AudienceKey) in refused) ==>
              (AlterSet(Security, id, p.settings) in r.statements <==> p.runSet)
    ensures r.err.Some? <==>
              p.err.Some?
              || (p.unsetAudience && AlterUnset(Security, id, AudienceKey) in refused)
              || (p.runSet && AlterSet(Security, id, p.settings) in refused)
    ensures p.err.None? && p.unsetAudience && AlterUnset(Security, id, AudienceKey) in refused ==>
              r == Sent([AlterUnset(Security, id, AudienceKey)],
                        Some(ExecFailed("error unsetting external_oauth_audience_list")))
    ensures p.err.None? && !(p.unsetAudience && AlterUnset(Security, id, AudienceKey) in refused) ==>
              r.statements == (if p.unsetAudience then [AlterUnset(Security, id, AudienceKey)] else [])
                              + (if p.runSet then [AlterSet(Security, id, p.settings)] else [])
              && (r.err.Some? ==> r.err == Some(ExecFailed("error updating security integration")))
  {
    if p.err.Some? then Sent([], p.err)
    else
      var unset := AlterUnset(Security, id, AudienceKey);
      var alter := SendAlter(AlterSet(Security, id, p.settings), p.runSet, refused, "error updating security integration");
      if !p.unsetAudience then alter
      else if unset in refused then Sent([unset], Some(ExecFailed("error unsetting external_oauth_audience_list")))
      else Sent([unset] + alter.statements, alter.err)
  }

  /** An ALTER ... SET is never sent without settings. */
  lemma SecurityUpdateNeverSendsEmptySet(c: Config, changed: set<string>, id: string, refused: set<Statement>)
    ensures forall s | s in SecurityUpdateSent(SecurityAlterPlan(c, changed), id, refused).statements ::
              s.AlterSet? ==> s.settings != []
  {
  }

  /** With `type` unchanged, the ALTER ... SET carries nothing but the new
      values of changed fields. */
  lemma SecurityAlterOnlyChanged(c: Config, changed: set<string>, s: Setting)
    requires "type" !in changed && s in SecurityAlterPlan(c, changed).settings
    ensures s in CommonAlterSettings(c, changed)
            || FromChangedRow(c, changed, AlterTexts, s)
            || (AudienceField in changed && s == Setting(AudienceKey, List(GetList(c, AudienceField))))
            || FromChangedRow(c, changed, AlterRoleMode, s)
  {
    var texts := ChangedTexts(c, changed, AlterTexts);
    var role := ChangedTexts(c, changed, AlterRoleMode);
    if s in texts {
      ChangedTextsSound(c, changed, AlterTexts, s);
    } else if s in role {
      ChangedTextsSound(c, changed, AlterRoleMode, s);
    }
  }

  /** Emptying the audience list alone sends the UNSET and nothing else. */
  lemma AudienceUnsetAlone(c: Config, id: string, refused: set<Statement>)
    requires GetList(c, AudienceField) == []
    ensures SecurityUpdateSent(SecurityAlterPlan(c, {AudienceField}), id, refused).statements
         == [AlterUnset(Security, id, AudienceKey)]
  {
    var p := SecurityAlterPlan(c, {AudienceField});
    assert !AnyChanged({AudienceField}, AlterTexts);
    assert !AnyChanged({AudienceField}, AlterRoleMode);
    assert !p.runSet;
  }

  /** Read as done for this resource. */
  function SecurityRead(c: Config, id: string, show: Option<ShowRow>, describe: Option<seq<DescribeRow>>): (r: ReadResult)
    ensures show.Some? && show.value.category != "SECURITY" ==>
              r == ReadResult(c, Some(WrongCategory(id, "SECURITY", show.value.category)))
    ensures r.err.None? <==> show.Some? && show.value.category == "SECURITY" && describe.Some?
    ensures show.None? ==> r == ReadResult(c, Some(QueryFailed("Could not show security integration")))
    ensures show.Some? && show.value.category == "SECURITY" && describe.None? ==>
              r == ReadResult(ApplyShow(c, show.value), Some(QueryFailed("Could not describe security integration")))
    ensures r.err.None? ==> r.values == ApplyRows(ApplyShow(c, show.value), describe.value, SecurityDecode)
  {
    assert "Could not show " + "security integration" == "Could not show security integration";
    assert "Could not describe " + "security integration" == "Could not describe security integration";
    ReadInto(c, id, "SECURITY", show, describe, "security integration", SecurityDecode)
  }

  /** The DESCRIBE properties this resource reads, and their fields. */
  const DescribedFields: set<string> := {
    "external_oauth_issuer", "external_oauth_token_user_mapping_claim",
    "external_oauth_snowflake_user_mapping_attribute", "external_oauth_jws_keys_url",
    "external_oauth_rsa_public_key", "external_oauth_rsa_public_key_2",
    AudienceField, RoleModeField
  }

  /** The `switch k` of `ReadSecurityIntegration`. */
  function SecurityDecode(row: DescribeRow): (u: Option<FieldUpdate>)
    ensures u.Some? <==>
              row.property in {"EXTERNAL_OAUTH_ISSUER", "EXTERNAL_OAUTH_TOKEN_USER_MAPPING_CLAIM",
                               "EXTERNAL_OAUTH_SNOWFLAKE_USER_MAPPING_ATTRIBUTE", "EXTERNAL_OAUTH_JWS_KEYS_URL",
                               "EXTERNAL_OAUTH_RSA_PUBLIC_KEY", "EXTERNAL_OAUTH_RSA_PUBLIC_KEY_2",
                               "EXTERNAL_OAUTH_ANY_ROLE_MODE"}
              || (row.property == "EXTERNAL_OAUTH_AUDIENCE_LIST" && row.value != "")
    ensures row.property == "EXTERNAL_OAUTH_ISSUER" ==> u == Some(SetText("external_oauth_issuer", row.value))
    ensures row.property == "EXTERNAL_OAUTH_TOKEN_USER_MAPPING_CLAIM" ==>
              u == Some(SetText("external_oauth_token_user_mapping_claim", row.value))
    ensures row.property == "EXTERNAL_OAUTH_SNOWFLAKE_USER_MAPPING_ATTRIBUTE" ==>
              u == Some(SetText("external_oauth_snowflake_user_mapping_attribute", row.value))
    ensures row.property == "EXTERNAL_OAUTH_JWS_KEYS_URL" ==> u == Some(SetText("external_oauth_jws_keys_url", row.value))
    ensures row.property == "EXTERNAL_OAUTH_RSA_PUBLIC_KEY" ==> u == Some(SetText("external_oauth_rsa_public_key", row.value))
    ensures row.property == "EXTERNAL_OAUTH_RSA_PUBLIC_KEY_2" ==>
              u == Some(SetText("external_oauth_rsa_public_key_2", row.value))
    ensures row.property == "EXTERNAL_OAUTH_ANY_ROLE_MODE" ==> u == Some(SetText(RoleModeField, row.value))
    ensures row.property == "EXTERNAL_OAUTH_AUDIENCE_LIST" && row.value != "" ==>
              u == Some(SetTextList(AudienceField, Split(row.value, ','))) &&
              |u.value.items| >= 1 && Join(u.value.items, ',') == row.value
    ensures row.property == "ENABLED" ==> u.None?
    ensures u.Some? ==> Field(u.value) in DescribedFields
    ensures u.Some? && u.value.SetText? ==> u.value.s == row.value
    ensures row.property == "EXTERNAL_OAUTH_AUDIENCE_LIST" ==> (u.Some? <==> row.value != "")
  {
    var k, v := row.property, row.value;
    if k == "ENABLED" then None  // set from the SHOW row
    else if k == "EXTERNAL_OAUTH_ISSUER" then Some(SetText("external_oauth_issuer", v))
    else if k == "EXTERNAL_OAUTH_TOKEN_USER_MAPPING_CLAIM" then Some(SetText("external_oauth_token_user_mapping_claim", v))
    else if k == "EXTERNAL_OAUTH_SNOWFLAKE_USER_MAPPING_ATTRIBUTE" then Some(SetText("external_oauth_snowflake_user_mapping_attribute", v))
    else if k == "EXTERNAL_OAUTH_JWS_KEYS_URL" then Some(SetText("external_oauth_jws_keys_url", v))
    else if k == "EXTERNAL_OAUTH_RSA_PUBLIC_KEY" then Some(SetText("external_oauth_rsa_public_key", v))
    else if k == "EXTERNAL_OAUTH_RSA_PUBLIC_KEY_2" then Some(SetText("external_oauth_rsa_public_key_2", v))
    else if k == "EXTERNAL_OAUTH_AUDIENCE_LIST" then
      if v != "" then Some(SetTextList(AudienceField, Split(v, ','))) else None
    else if k == "EXTERNAL_OAUTH_ANY_ROLE_MODE" then Some(SetText(RoleModeField, v))
    else None  // unexpected property: only logged
  }

  /** DESCRIBE never touches a field outside its table: in particular not
      `enabled`, `name` or `created_on`, which come from SHOW. */
  lemma {:induction false} SecurityDescribeKeepsOtherFields(c: Config, rows: seq<DescribeRow>, field: string)
    requires field !in DescribedFields
    ensures AgreeOn(ApplyRows(c, rows, SecurityDecode), c, field)
  {
    RowsUntouched(c, rows, SecurityDecode, field);
  }

  /** After a successful read, `name`, `created_on` and `enabled` hold the
      SHOW row's values. */
  lemma SecurityReadTakesShowRow(c: Config, id: string, show: Option<ShowRow>, describe: Option<seq<DescribeRow>>)
    requires SecurityRead(c, id, show, describe).err.None?
    ensures var r := SecurityRead(c, id, show, describe).values;
            "name" in r.strings && r.strings["name"] == show.value.name &&
            "created_on" in r.strings && r.strings["created_on"] == show.value.createdOn &&
            "enabled" in r.bools && r.bools["enabled"] == show.value.enabled
  {
    var shown := ApplyShow(c, show.value);
    assert SecurityRead(c, id, show, describe).values == ApplyRows(shown, describe.value, SecurityDecode);
    SecurityDescribeKeepsOtherFields(shown, describe.value, "name");
    SecurityDescribeKeepsOtherFields(shown, describe.value, "created_on");
    SecurityDescribeKeepsOtherFields(shown, describe.value, "enabled");
  }

  /** After a successful read, a field that neither SHOW nor DESCRIBE
      reports keeps the value it had. */
  lemma SecurityReadKeepsOtherFields(c: Config, id: string, show: Option<ShowRow>, describe: Option<seq<DescribeRow>>,
                                  field: string)
    requires SecurityRead(c, id, show, describe).err.None?
    requires field !in DescribedFields && field != "name" && field != "created_on" && field != "enabled"
    ensures AgreeOn(SecurityRead(c, id, show, describe).values, c, field)
  {
    var shown := ApplyShow(c, show.value);
    assert SecurityRead(c, id, show, describe).values == ApplyRows(shown, describe.value, SecurityDecode);
    SecurityDescribeKeepsOtherFields(shown, describe.value, field);
  }

  /** `ReadSecurityIntegration`. */
  method ReadSecurityIntegration(d: ResourceData, show: Option<ShowRow>, describe: Option<seq<DescribeRow>>)
    returns (err: Option<Error>)
    modifies d
    ensures d.id == old(d.id)
    ensures d.values == SecurityRead(old(d.values), d.id, show, describe).values
    ensures err == SecurityRead(old(d.values), d.id, show, describe).err
  {
    err := ReadIntegration(d, "SECURITY", show, describe, "security integration", SecurityDecode);
  }

  /** `UpdateSecurityIntegration`: what is sent follows the plan, and the
      integration is read back unless something failed. */
  method UpdateSecurityIntegration(d: ResourceData, db: Database, show: Option<ShowRow>,
                                   describe: Option<seq<DescribeRow>>) returns (err: Option<Error>)
    modifies d, db
    ensures d.id == old(d.id)
    ensures var sent := SecurityUpdateSent(SecurityAlterPlan(old(d.values), d.changed), d.id, db.refused);
            db.log == old(db.log) + sent.statements &&
            if sent.err.Some? then
              err == sent.err && d.values == old(d.values)
            else
              var r := SecurityRead(old(d.values), d.id, show, describe);
              err == r.err && d.values == r.values
  {
    err := SendSecurityAlter(d, db);
    if err.Some? {
      return;
    }
    err := ReadSecurityIntegration(d, show, describe);
  }

  /** The part of `UpdateSecurityIntegration` before the read-back: builds
      the ALTER ... SET statement from the changed fields and sends what
      the plan says. */
  method SendSecurityAlter(d: ResourceData, db: Database) returns (err: Option<Error>)
    modifies db
    ensures var sent := SecurityUpdateSent(SecurityAlterPlan(d.values, d.changed), d.id, db.refused);
            db.log == old(db.log) + sent.statements && err == sent.err
  {
    var id := d.id;
    var stmt, runSetStatement;
    stmt, runSetStatement, err := BuildSecurityAlter(d, db);
    if err.Some? {
      return;
    }
    ghost var plan := SecurityAlterPlan(d.values, d.changed);
    ghost var unsetPart := if plan.unsetAudience then [AlterUnset(Security, id, AudienceKey)] else [];
    if runSetStatement {
      ghost var alter := AlterSet(Security, id, stmt.settings);
      var failed := db.Exec(AlterSet(Security, id, stmt.settings));
      assert db.log == old(db.log) + (unsetPart + [alter]);
      if failed {
        return Some(ExecFailed("error updating security integration"));
      }
    }
  }

  /** The statement-building part of `UpdateSecurityIntegration`: the
      builder ends up holding the planned settings and the flag the
      planned `runSetStatement`; only the audience UNSET is sent on the
      way, and an error stops the update as the plan says. */
  method BuildSecurityAlter(d: ResourceData, db: Database) returns (stmt: SettingBuilder, runSetStatement: bool, err: Option<Error>)
    modifies db
    ensures fresh(stmt)
    ensures var plan := SecurityAlterPlan(d.values, d.changed);
            var sent := SecurityUpdateSent(plan, d.id, db.refused);
            var unset := AlterUnset(Security, d.id, AudienceKey);
            if err.Some? then
              db.log == old(db.log) + sent.statements && err == sent.err
            else
              plan.err.None? && !(plan.unsetAudience && unset in db.refused) &&
              stmt.settings == plan.settings && runSetStatement == plan.runSet &&
              db.log == old(db.log) + (if plan.unsetAudience then [unset] else [])
  {
    var c := d.values;
    stmt := new SettingBuilder();
    runSetStatement := SetCommonAlterSettings(d, stmt);
    assert [] + CommonAlterSettings(c, d.changed) == CommonAlterSettings(c, d.changed);

    if d.HasChange("type") {
      SecurityPlanTypeChanged(c, d.changed);
      runSetStatement := true;
      err := SetSecurityProviderSettings(d, stmt);
    } else {
      SecurityPlanFieldwise(c, d.changed);
      var fieldChanged;
      fieldChanged, err := SetChangedOAuthFields(d, db, stmt);
      if err.Some? {
        return;
      }
      runSetStatement := runSetStatement || fieldChanged;
    }
  }

  /** The plan of an update that changes `type`. */
  lemma SecurityPlanTypeChanged(c: Config, changed: set<string>)
    requires "type" in changed
    ensures var o := SecurityProviderSettings(c);
            SecurityAlterPlan(c, changed) == AlterPlan(CommonAlterSettings(c, changed) + o.appended, false, true, o.err)
  {
  }

  /** The plan of an update that keeps `type`. */
  lemma SecurityPlanFieldwise(c: Config, changed: set<string>)
    requires "type" !in changed
    ensures var audienceChanged := AudienceField in changed;
            var audience := GetList(c, AudienceField);
            SecurityAlterPlan(c, changed)
            == AlterPlan(CommonAlterSettings(c, changed) + FieldwiseSettings(c, changed),
                         audienceChanged && audience == [],
                         "comment" in changed || "enabled" in changed || AnyChanged(changed, AlterTexts)
                         || (audienceChanged && audience != []) || AnyChanged(changed, AlterRoleMode),
                         None)
  {
  }

  /** The `else` branch of `UpdateSecurityIntegration`: each changed field
      in turn; an emptied audience list is unset at once, and a refusal
      stops the update. `fieldChanged` is whether the branch raised
      `runSetStatement`. */
  method SetChangedOAuthFields(d: ResourceData, db: Database, stmt: SettingBuilder)
    returns (fieldChanged: bool, err: Option<Error>)
    modifies db, stmt
    ensures var unset := AlterUnset(Security, d.id, AudienceKey);
            var unsetAudience := AudienceField in d.changed && GetList(d.values, AudienceField) == [];
            db.log == old(db.log) + (if unsetAudience then [unset] else []) &&
            (err.Some? <==> unsetAudience && unset in db.refused) &&
            (err.Some? ==> err == Some(ExecFailed("error unsetting external_oauth_audience_list")))
    ensures err.None? ==> stmt.settings == old(stmt.settings) + FieldwiseSettings(d.values, d.changed)
    ensures err.None? ==>
              (fieldChanged <==> AnyChanged(d.changed, AlterTexts)
                                 || (AudienceField in d.changed && GetList(d.values, AudienceField) != [])
                                 || AnyChanged(d.changed, AlterRoleMode))
  {
    var textChanged := SetChangedTexts(d, stmt);
    var audienceChanged;
    audienceChanged, err := SetAudienceIfChanged(d, db, stmt);
    if err.Some? {
      return textChanged || audienceChanged, err;
    }
    var roleChanged := SetRoleModeIfChanged(d, stmt);
    fieldChanged := textChanged || audienceChanged || roleChanged;
    AppendThree(old(stmt.settings), ChangedTexts(d.values, d.changed, AlterTexts),
                AudienceSetting(d.values, d.changed), ChangedTexts(d.values, d.changed, AlterRoleMode));
  }

  /** The role-mode block, the last of the branch. */
  method SetRoleModeIfChanged(d: ResourceData, stmt: SettingBuilder) returns (changed: bool)
    modifies stmt
    ensures stmt.settings == old(stmt.settings) + ChangedTexts(d.values, d.changed, AlterRoleMode)
    ensures changed <==> AnyChanged(d.changed, AlterRoleMode)
  {
    ghost var t := AlterRoleMode;
    assert t[0..] == t && t[1..] == [];
    assert t[0].field == RoleModeField;
    changed := SetTextIfChanged(d, stmt, RoleModeField, "EXTERNAL_OAUTH_ANY_ROLE_MODE", t, 0);
    assert stmt.settings + [] == stmt.settings;
  }

  /** The audience block: a changed, empty list is unset at once by its own
      statement, a changed, non-empty one is set. */
  method SetAudienceIfChanged(d: ResourceData, db: Database, stmt: SettingBuilder)
    returns (changed: bool, err: Option<Error>)
    modifies db, stmt
    ensures var unset := AlterUnset(Security, d.id, AudienceKey);
            var unsetAudience := AudienceField in d.changed && GetList(d.values, AudienceField) == [];
            db.log == old(db.log) + (if unsetAudience then [unset] else []) &&
            (err.Some? <==> unsetAudience && unset in db.refused) &&
            (err.Some? ==> err == Some(ExecFailed("error unsetting external_oauth_audience_list")))
    ensures stmt.settings == old(stmt.settings) + AudienceSetting(d.values, d.changed)
    ensures changed <==> AudienceSetting(d.values, d.changed) != []
  {
    changed := false;
    err := None;
    if d.HasChange(AudienceField) {
      var v := GetList(d.values, AudienceField);
      if |v| == 0 {
        var failed := db.Exec(AlterUnset(Security, d.id, AudienceKey));
        if failed {
          return false, Some(ExecFailed("error unsetting external_oauth_audience_list"));
        }
      } else {
        changed := true;
        stmt.SetStringList(AudienceKey, v);
      }
    }
  }

  /** Whether any of the seven string fields changed, field by field. */
  lemma AnyTextChanged(changed: set<string>)
    ensures AnyChanged(changed, AlterTexts) <==>
              "external_oauth_type" in changed || "external_oauth_issuer" in changed
              || "external_oauth_token_user_mapping_claim" in changed
              || "external_oauth_snowflake_user_mapping_attribute" in changed
              || "external_oauth_jws_keys_url" in changed || "external_oauth_rsa_public_key" in changed
              || "external_oauth_rsa_public_key_2" in changed
  {
    var t := AlterTexts;
    assert t[0].field == "external_oauth_type" && t[1].field == "external_oauth_issuer";
    assert t[2].field == "external_oauth_token_user_mapping_claim";
    assert t[3].field == "external_oauth_snowflake_user_mapping_attribute";
    assert t[4].field == "external_oauth_jws_keys_url" && t[5].field == "external_oauth_rsa_public_key";
    assert t[6].field == "external_oauth_rsa_public_key_2";
  }

  /** The seven string fields, each set when it changed. */
  method SetChangedTexts(d: ResourceData, stmt: SettingBuilder) returns (anyChanged: bool)
    modifies stmt
    ensures stmt.settings == old(stmt.settings) + ChangedTexts(d.values, d.changed, AlterTexts)
    ensures anyChanged <==> AnyChanged(d.changed, AlterTexts)
  {
    AnyTextChanged(d.changed);
    ghost var t := AlterTexts;
    assert t[0..] == t;
    var typeChanged := SetTextIfChanged(d, stmt, "external_oauth_type", "EXTERNAL_OAUTH_TYPE", t, 0);
    var issuerChanged := SetTextIfChanged(d, stmt, "external_oauth_issuer", "EXTERNAL_OAUTH_ISSUER", t, 1);
    var claimChanged := SetTextIfChanged(d, stmt, "external_oauth_token_user_mapping_claim",
                                         "EXTERNAL_OAUTH_TOKEN_USER_MAPPING_CLAIM", t, 2);
    var attributeChanged := SetTextIfChanged(d, stmt, "external_oauth_snowflake_user_mapping_attribute",
                                             "EXTERNAL_OAUTH_SNOWFLAKE_USER_MAPPING_ATTRIBUTE", t, 3);
    var keysUrlChanged := SetTextIfChanged(d, stmt, "external_oauth_jws_keys_url", "EXTERNAL_OAUTH_JWS_KEYS_URL", t, 4);
    var rsaKeyChanged := SetTextIfChanged(d, stmt, "external_oauth_rsa_public_key", "EXTERNAL_OAUTH_RSA_PUBLIC_KEY", t, 5);
    var rsaKey2Changed := SetTextIfChanged(d, stmt, "external_oauth_rsa_public_key_2",
                                           "EXTERNAL_OAUTH_RSA_PUBLIC_KEY_2", t, 6);
    assert t[7..] == [];
    assert stmt.settings + [] == stmt.settings;
    anyChanged := typeChanged || issuerChanged || claimChanged || attributeChanged
                  || keysUrlChanged || rsaKeyChanged || rsaKey2Changed;
  }
}
