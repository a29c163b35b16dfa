# Security and notification integration resources

A model of two resource handlers of a Terraform provider for a cloud data
warehouse: the **security integration**, which binds the warehouse to an
external OAuth identity provider, and the **notification integration**, which
binds it to Google Pub/Sub or an Azure storage queue. Each handler turns a
configuration block into DDL statements and reads the object back.

The model covers four parts of each handler:

- **Provider settings.** `setSecurityProviderSettings` and
  `setNotificationProviderSettings` first record the discriminator (`TYPE` or
  `NOTIFICATION_PROVIDER`), then branch on it. Each branch appends its settings
  in a fixed order and stops at the first required field that is not set.
  The required external OAuth and Azure fields form a table (`ProviderSteps`).
  The handler code is proved, one `GetOk` at a time, against a function that
  runs that table.
- **Create.** The model fixes the order of the settings in the CREATE
  statement. A provider error means nothing is sent. The ID is set only after
  the statement is accepted. The notification handler then reads the object
  back; the security handler does not, because its read-back call is commented
  out.
- **Update.** If the discriminator changed, the provider settings are
  rebuilt. Otherwise each changed field adds exactly one setting with its new
  value. The `runSetStatement` flag decides whether an ALTER ... SET is sent.
  An emptied audience list becomes its own UNSET statement.
- **Read.** The SHOW row must have the right category. The DESCRIBE rows are
  then mapped onto schema fields in order. `ENABLED` is ignored and unknown
  properties are skipped. The security audience list is split on `,` only
  when it is non-empty.

The handlers are imperative, and so is the model:

- `ResourceData`, the statement builder (`SettingBuilder`) and the warehouse
  connection (`Database`) are classes whose methods update their fields.
- Each handler is a method. Its `ensures` ties the new state to a
  specification function (`SecurityAlterPlan`, `NotificationCreateSettings`,
  `SecurityRead`, ...).
- Lemmas state what the source promises about those functions.

The warehouse is reduced to three things:

- a log of the statements sent;
- a fixed set of statements it refuses;
- the SHOW row and DESCRIBE rows a read receives, where `None` stands for a
  failed query.

`GetOk` counts a field as present only when it is set to a non-zero value. An
empty string and an empty list therefore count as absent. This matches the
schema library's documented behaviour.

Two behaviours follow the code as written:

- The provider-settings handler writes the audience list under the lower-case
  key `external_oauth_audience_list`. The update handler writes it under
  `EXTERNAL_OAUTH_AUDIENCE_LIST`. Both keys are kept verbatim.
- The schema validator for `notification_provider`
  (`pkg/resources/notification_integration.go:40`) ignores case. The handler
  itself accepts only `azure_storage_queue`, `AZURE_STORAGE_QUEUE` and
  `GCP_PUBSUB`, so `gcp_pubsub` passes validation and is then rejected with
  "Unexpected provider". The model follows the handler
  (`NotificationIntegration.NotificationProviderSettings`).

## Model

| member | source | states |
|---|---|---|
| SecurityIntegration.SecurityProviderSettings | pkg/resources/security_integration.go:340-409 | `TYPE` with the configured type is always the first setting; the type is rejected as unexpected exactly when it is neither spelling of external OAuth nor PING_FEDERATE, OKTA or CUSTOM, and then only `TYPE` was appended; the three bare vendors append only `TYPE` and succeed |
| SecurityIntegration.ExternalOAuthSucceeds | pkg/resources/security_integration.go:344-397 | for external OAuth, success holds exactly when the seven required fields are all set, and the settings are then `TYPE` followed by one setting per set field in the handler's order |
| SecurityIntegration.ExternalOAuthFirstMissing | pkg/resources/security_integration.go:348-396 | the first required field that is missing, in the handler's order, is the one the error names, and only the settings of the fields before it were appended |
| SecurityIntegration.RsaKeysNeverRequired | pkg/resources/security_integration.go:378-384 | removing both RSA public keys never changes whether, or with which error, the provider settings fail |
| SecurityIntegration.SetSecurityProviderSettings | pkg/resources/security_integration.go:340-409 | the handler appends to the builder exactly the settings of `SecurityProviderSettings` and returns its error |
| SecurityIntegration.SetIdentitySettings | pkg/resources/security_integration.go:348-376 | the five required issuer and user-mapping checks append exactly what the first half of the external OAuth table yields, stopping at the first missing field |
| SecurityIntegration.SetKeySettings | pkg/resources/security_integration.go:378-396 | the optional RSA keys, the required audience list and the required role mode append exactly what the second half of the table yields |
| SecurityIntegration.SecurityCreateSettings | pkg/resources/security_integration.go:109-121 | CREATE starts with `ENABLED`; the next setting is `COMMENT` exactly when a comment is set, carrying it; everything after these one or two settings is exactly the provider settings, and the error is the provider settings' error |
| SecurityIntegration.BuildSecurityCreate | pkg/resources/security_integration.go:109-121 | the handler's statement builder ends up holding exactly the create settings, and the error is theirs |
| SecurityIntegration.CreateSecurityIntegration | pkg/resources/security_integration.go:103-132 | a provider error sends nothing and leaves the ID unset; otherwise exactly one CREATE with the create settings is sent, and the ID is set to the name only if it is accepted; the resource data is never changed |
| SecurityIntegration.AudienceSetting | pkg/resources/security_integration.go:290-301 | the audience list is set, under `EXTERNAL_OAUTH_AUDIENCE_LIST` with its new value, exactly when it changed to a non-empty list |
| SecurityIntegration.FieldwiseSettings | pkg/resources/security_integration.go:262-305 | with `type` unchanged, the blocks after the common ones add a setting exactly when a string field changed, the audience list changed to a non-empty list, or the role mode changed |
| SecurityIntegration.SecurityAlterPlan | pkg/resources/security_integration.go:243-306 | without a provider error, ALTER ... SET is planned exactly when it has settings; an error arises only from a changed `type`, and it is the provider error; the audience UNSET is planned exactly when `type` is unchanged and the audience list changed to empty; a changed `type` plans the common settings followed by the full provider settings; an unchanged `type` never fails and plans the common settings followed by the fieldwise ones |
| SecurityIntegration.AlterKeysApart | pkg/resources/security_integration.go:262-305 | the per-field update keys are pairwise distinct and differ from the audience, role mode, COMMENT and ENABLED keys |
| SecurityIntegration.SecurityAlterFieldwise | pkg/resources/security_integration.go:262-289 | with `type` unchanged, each changed string field contributes exactly one setting with its new value, and an unchanged one none |
| SecurityIntegration.SecurityAlterRoleMode | pkg/resources/security_integration.go:302-305 | with `type` unchanged, the role mode is set exactly once, with its new value, when it changed, and not otherwise |
| SecurityIntegration.SecurityAlterAudience | pkg/resources/security_integration.go:290-301 | with `type` unchanged, the audience list is set exactly once when it changed to a non-empty list, and not otherwise |
| SecurityIntegration.SecurityAlterOnlyChanged | pkg/resources/security_integration.go:243-306 | with `type` unchanged, every planned setting is a changed common setting or the new value of a changed string field, of the changed non-empty audience list, or of the changed role mode: nothing else is sent |
| SecurityIntegration.SecurityUpdateSent | pkg/resources/security_integration.go:290-312 | a provider error sends nothing; a refused audience UNSET ends the update, with only the UNSET sent and the unsetting error returned; otherwise the statements are the planned UNSET, if any, followed by one ALTER ... SET with the planned settings exactly when the flag is up, and the only error is the updating error, returned exactly when that ALTER ... SET is refused |
| SecurityIntegration.SecurityUpdateNeverSendsEmptySet | pkg/resources/security_integration.go:243-312 | an update never sends an ALTER ... SET without settings |
| SecurityIntegration.AudienceUnsetAlone | pkg/resources/security_integration.go:290-297 | emptying the audience list, with nothing else changed, sends the UNSET and nothing else |
| SecurityIntegration.SecurityRead | pkg/resources/security_integration.go:135-232 | a missing SHOW row or a category other than SECURITY is an error that leaves the data unchanged; a failed DESCRIBE is an error after the SHOW fields were set; the read succeeds exactly when SHOW returns a SECURITY row and DESCRIBE can be queried, and the data is then the SHOW row applied and then every DESCRIBE row in order |
| SecurityIntegration.SecurityDecode | pkg/resources/security_integration.go:189-228 | exactly the seven text properties and a non-empty audience list are written, `ENABLED` and unknown properties are skipped; each text property goes verbatim to its own field; a non-empty audience list is split on `,` into parts that join back into the value read |
| SecurityIntegration.SecurityDescribeKeepsOtherFields | pkg/resources/security_integration.go:189-228 | DESCRIBE rows never change a field outside the described ones, such as `enabled`, `name` or `created_on` |
| SecurityIntegration.SecurityReadTakesShowRow | pkg/resources/security_integration.go:154-173 | after a successful read, `name`, `created_on` and `enabled` hold the SHOW row's values, whatever DESCRIBE returned |
| SecurityIntegration.SecurityReadKeepsOtherFields | pkg/resources/security_integration.go:135-232 | after a successful read, a field that neither SHOW nor DESCRIBE reports keeps its value |
| SecurityIntegration.ReadSecurityIntegration | pkg/resources/security_integration.go:135-232 | the handler's SHOW checks and DESCRIBE loop leave the resource data and the error exactly as `SecurityRead` says, and keep the ID |
| SecurityIntegration.UpdateSecurityIntegration | pkg/resources/security_integration.go:235-315 | the statements sent are exactly those of the plan; after a failure the data is unchanged and the error returned, otherwise the result of the read-back |
| SecurityIntegration.SendSecurityAlter | pkg/resources/security_integration.go:235-312 | the handler's chain of `HasChange` blocks sends exactly the planned statements and returns the planned error |
| SecurityIntegration.BuildSecurityAlter | pkg/resources/security_integration.go:239-306 | up to the `runSetStatement` test, the builder holds exactly the planned settings and the flag equals the planned one; only the audience UNSET has been sent, and an error stops the update with the planned statements and error |
| SecurityIntegration.SetChangedOAuthFields | pkg/resources/security_integration.go:262-305 | with `type` unchanged, the audience UNSET is sent exactly when the list was emptied and a refusal of it is the only error; otherwise the builder receives exactly the fieldwise settings, and the flag is raised exactly when a field added a setting |
| SecurityIntegration.SetAudienceIfChanged | pkg/resources/security_integration.go:290-301 | an emptied audience list sends the UNSET and a refusal returns its error; a non-empty changed list is appended and raises the flag |
| SecurityIntegration.SetRoleModeIfChanged | pkg/resources/security_integration.go:302-305 | the role-mode block appends the role mode with its new value exactly when it changed, and raises the flag exactly then |
| SecurityIntegration.SetChangedTexts | pkg/resources/security_integration.go:262-289 | the seven string-field blocks append exactly the changed ones, in order, and raise the flag exactly when one changed |
| NotificationIntegration.NotificationProviderSettings | pkg/resources/notification_integration.go:243-271 | `NOTIFICATION_PROVIDER` with the configured value is always first; the provider is rejected as unexpected exactly when it is neither Azure spelling nor `GCP_PUBSUB`, and then only that one setting was appended; `GCP_PUBSUB` appends nothing more and succeeds; lower-case `gcp_pubsub` is rejected |
| NotificationIntegration.AzureOutcomes | pkg/resources/notification_integration.go:248-262 | for Azure: a missing URI fails before the tenant is examined; a missing tenant fails with the URI already appended; otherwise URI then tenant are appended |
| NotificationIntegration.SetNotificationProviderSettings | pkg/resources/notification_integration.go:243-271 | the handler appends exactly the settings of `NotificationProviderSettings` and returns its error |
| NotificationIntegration.NotificationCreateSettings | pkg/resources/notification_integration.go:79-92 | CREATE starts with `TYPE` and then `ENABLED`; the third setting is `COMMENT` exactly when a comment is set, carrying it; everything after these two or three settings is exactly the provider settings, and the error is the provider settings' error |
| NotificationIntegration.BuildNotificationCreate | pkg/resources/notification_integration.go:79-92 | the handler's statement builder ends up holding exactly the create settings, and the error is theirs |
| NotificationIntegration.CreateNotificationIntegration | pkg/resources/notification_integration.go:73-102 | a provider error sends nothing and changes nothing; otherwise one CREATE is sent; if it is refused, the ID and data are unchanged; if it is accepted, the ID is the name and the data and error are those of the read-back |
| NotificationIntegration.SendNotificationCreate | pkg/resources/notification_integration.go:73-100 | a provider error sends nothing and leaves the ID unset; otherwise exactly one CREATE with the create settings is sent, and the ID is set to the name only if it is accepted; the resource data is not changed |
| NotificationIntegration.NotificationAlterPlan | pkg/resources/notification_integration.go:182-209 | ALTER ... SET is planned exactly when comment, enabled, the provider or an Azure field changed, and, without error, exactly when it has settings; an error arises exactly when the provider changed and its settings fail; a changed provider rebuilds the provider settings, otherwise only changed Azure fields are added |
| NotificationIntegration.NotificationAlterFieldwise | pkg/resources/notification_integration.go:200-209 | with the provider unchanged, each changed Azure field contributes exactly one setting with its new value, and an unchanged one none |
| NotificationIntegration.NotificationUpdateSent | pkg/resources/notification_integration.go:194-215 | a provider error sends nothing; otherwise the ALTER ... SET is sent exactly when the flag is up, and the updating error is returned exactly when it is refused |
| NotificationIntegration.NotificationUpdateSendsIffChanged | pkg/resources/notification_integration.go:182-215 | an update sends a statement exactly when comment, enabled, the provider or an Azure field changed and the provider settings are valid, and never sends an ALTER ... SET without settings |
| NotificationIntegration.NotificationRead | pkg/resources/notification_integration.go:105-171 | a missing SHOW row or a category other than NOTIFICATION is an error that leaves the data unchanged; a failed DESCRIBE is an error after the SHOW fields were set; the read succeeds exactly when SHOW returns a NOTIFICATION row and DESCRIBE can be queried, and the data is then the SHOW row applied and then every DESCRIBE row in order |
| NotificationIntegration.NotificationDecode | pkg/resources/notification_integration.go:150-167 | exactly the three properties NOTIFICATION_PROVIDER, AZURE_STORAGE_QUEUE_PRIMARY_URI and AZURE_TENANT_ID are written, each verbatim to its field; `ENABLED` and unknown properties are skipped |
| NotificationIntegration.NotificationDescribeKeepsOtherFields | pkg/resources/notification_integration.go:150-167 | DESCRIBE rows never change a field other than the provider and the two Azure fields |
| NotificationIntegration.NotificationReadsLastProvider | pkg/resources/notification_integration.go:146-168 | the provider read back is the value of the last NOTIFICATION_PROVIDER row |
| NotificationIntegration.NotificationReadTakesShowRow | pkg/resources/notification_integration.go:124-135 | after a successful read, `name`, `created_on` and `enabled` hold the SHOW row's values, whatever DESCRIBE returned |
| NotificationIntegration.NotificationReadKeepsOtherFields | pkg/resources/notification_integration.go:105-171 | after a successful read, a field that neither SHOW nor DESCRIBE reports keeps its value |
| NotificationIntegration.ReadNotificationIntegration | pkg/resources/notification_integration.go:105-171 | the handler's SHOW checks and DESCRIBE loop leave the data and the error exactly as `NotificationRead` says, and keep the ID |
| NotificationIntegration.UpdateNotificationIntegration | pkg/resources/notification_integration.go:174-218 | the statements sent are exactly those of the plan; after a failure the data is unchanged and the error returned, otherwise the result of the read-back |
| NotificationIntegration.SendNotificationAlter | pkg/resources/notification_integration.go:174-215 | the handler's `HasChange` blocks send exactly the planned statement and return the planned error |
| ProviderSteps.RunSteps | pkg/resources/security_integration.go:348-396 | a run only appends to what the builder held, and its only error is a missing field |
| ProviderSteps.Fetch | pkg/resources/security_integration.go:348-352 | one `GetOk`: a string field is reported exactly when it is non-empty and a list field exactly when it is non-empty, with the field's value |
| ProviderSteps.Emit | pkg/resources/notification_integration.go:252-262 | the settings a table yields when nothing is missing: at most one per row (with `EmitAllPresent`, exactly one per row when every field is set) |
| ProviderSteps.RunStepsSucceeds | pkg/resources/security_integration.go:348-396 | a provider table succeeds exactly when every required field is set, and then appends one setting per set field, in table order |
| ProviderSteps.RunStepsStopsAtFirstMissing | pkg/resources/security_integration.go:348-396 | the first unsatisfied required field decides the error, and exactly the settings of the set fields before it are appended |
| ProviderSteps.RunStepsErrorIgnoresOptional | pkg/resources/security_integration.go:378-384 | whether and why a run fails depends only on which required fields are set |
| ProviderSteps.EmitAllPresent | pkg/resources/notification_integration.go:252-262 | with every field set, every row of the table is appended in order with its field's value |
| ProviderSteps.RunStepsShift | pkg/resources/security_integration.go:341-342 | what the builder held before (the discriminator and, on create, the common settings) does not influence a run |
| ProviderSteps.RunStepsConcat | pkg/resources/security_integration.go:348-396 | running two tables one after the other is running their concatenation, the second starting only if the first succeeded |
| Alter.CommonAlterSettings | pkg/resources/security_integration.go:245-253 | COMMENT and ENABLED appear, each with its new value, exactly when they changed; every setting is one of these two for a changed field, and there is one setting per changed field, so no stale value and no duplicate is sent |
| Alter.SetCommonAlterSettings | pkg/resources/notification_integration.go:184-192 | the two common blocks append exactly the common settings and raise the flag exactly when comment or enabled changed |
| Alter.ChangedTexts | pkg/resources/security_integration.go:262-289 | the settings a chain of per-field blocks adds; it has no contract of its own: `ChangedTextsSound`, `ChangedTextsNonEmpty` and `ChangedTextsExactlyOnce` state its properties |
| Alter.ChangedTextsSound | pkg/resources/notification_integration.go:200-209 | every setting a chain of per-field blocks adds is the new value of one of its changed fields |
| Alter.ChangedTextsNonEmpty | pkg/resources/notification_integration.go:200-209 | a chain of per-field blocks adds a setting exactly when one of its fields changed |
| Alter.ChangedTextsExactlyOnce | pkg/resources/security_integration.go:262-289 | over distinct keys, a changed field contributes exactly one setting with its new value, and an unchanged one none |
| Alter.SetTextIfChanged | pkg/resources/security_integration.go:266-269 | one block raises the flag exactly when its field changed and appends that field's setting, and only then |
| Alter.SendAlter | pkg/resources/security_integration.go:308-312 | the statement is sent exactly when the flag is up, and an error is returned exactly when it is sent and refused |
| Describe.Split | pkg/resources/security_integration.go:216-221 | splitting on `,` gives at least one part, no part holds the separator, and joining the parts gives back the value |
| Describe.SplitJoin | pkg/resources/security_integration.go:216-221 | splitting a joined list whose parts hold no `,` gives the list back |
| Describe.ReadInto | pkg/resources/notification_integration.go:105-171 | a missing SHOW row is an error with the data untouched; a wrong category is an error naming the ID, the expected and the actual category, with the data untouched; a failed DESCRIBE is an error after the SHOW row was applied; the read succeeds exactly when SHOW returns the right category and DESCRIBE can be queried, and the data is then the SHOW row applied and then every DESCRIBE row in order |
| Describe.ApplyShow | pkg/resources/security_integration.go:154-173 | `name`, `created_on` and `enabled` take the SHOW row's values and every other field keeps its value |
| Describe.ApplyRows | pkg/resources/security_integration.go:185-229 | the DESCRIBE rows are applied in order, so the last row's update holds afterwards |
| Describe.ApplyUpdate | pkg/resources/security_integration.go:189-228 | the `d.Set` of one decoded DESCRIBE row writes its value to its field and leaves every other field as it was |
| Describe.RowsUntouched | pkg/resources/security_integration.go:185-229 | a field no DESCRIBE row writes keeps its value |
| Describe.RowsLastWins | pkg/resources/notification_integration.go:146-168 | the last row that writes a field decides its value |
| Describe.ReadIntegration | pkg/resources/security_integration.go:135-232 | the SHOW checks and the loop over DESCRIBE rows leave exactly what `ReadInto` describes, and keep the ID |
| Schema.GetOkString | pkg/resources/security_integration.go:348-352 | `GetOk` reports a string field exactly when its value is non-empty, and then that value |
| Schema.GetOkList | pkg/resources/security_integration.go:386-390 | `GetOk` reports a list field exactly when it is non-empty, and then that list |
| Settings.Database.Exec | pkg/resources/security_integration.go:123 | a statement is logged as sent, and fails exactly when the warehouse refuses it |

## Left out

- SQL is not rendered. A statement is its kind, the integration name and its ordered settings. The SQL text the statement builder in `pkg/snowflake` produces is not part of this model.
- Warehouse I/O is replaced by data. `snowflake.Exec` is the `Database` class with a fixed set of refused statements. The SHOW row and the DESCRIBE rows are parameters of the reads, and a failed query is `None`. Driver error values are not modelled, only the context each handler wraps them in.
- `rows.Scan` failures inside the DESCRIBE loop are not modelled. Neither are failures of `d.Set` nor panics of the `v.(string)` type assertions. The typed `Config` makes every assertion succeed.
- The schema framework is out of scope: `Required`, `Default`, `ForceNew` and `ValidateFunc`. Defaults are assumed to be already filled in, and the changed fields are a given set.
- Delete and the `*Exists` functions are not modelled. Delete delegates to `DeleteResource`, which is not part of this model. The `*Exists` functions only test whether SHOW returns a row.
- `log.Printf` warnings for unknown DESCRIBE properties are not modelled. Those rows are skipped.
- The `pType` and `unused` DESCRIBE columns are left out, because the handlers discard them.
- SecurityIntegration.SetKeySettings: `expandStringList` is not part of this model. It is taken to return the configured audience list unchanged, with no filtering or conversion of its entries, and this carries over to `ExternalOAuthSucceeds`.
- SecurityIntegration.AudienceSetting: the audience list is sent as configured, because `expandStringList` is taken to return it unchanged; this carries over to `SecurityAlterAudience`.
- SecurityIntegration.SetAudienceIfChanged: the audience list is appended as configured, because `expandStringList` is taken to return it unchanged.
- SecurityIntegration.SetSecurityProviderSettings runs the external OAuth branch as two helper methods, `SetIdentitySettings` and `SetKeySettings`. Each performs the handler's `GetOk`/`SetString` steps for one half of the field table, and together they keep the handler's order and early returns.
- SecurityIntegration.UpdateSecurityIntegration and NotificationIntegration.UpdateNotificationIntegration are split into a send step and the read-back. The security send step first builds the statement (`BuildSecurityAlter`), then executes it. The create handlers collect their settings in a helper method (`BuildSecurityCreate`, `BuildNotificationCreate`) and the notification create handler sends them in `SendNotificationCreate` before its read-back. The `HasChange` blocks are helper methods that run in the handler's order (`SetCommonAlterSettings`, `SetChangedTexts`, `SetAudienceIfChanged`, `SetRoleModeIfChanged`, `SetTextIfChanged`). The flag they return is `runSetStatement`.
