# Terraform AzureRM provider: validators, subnet overrides and resource lifecycles in Dafny

This project models a slice of the Terraform provider for Azure Resource Manager. Most of the provider is glue between the Terraform schema framework and the Azure SDK. The parts with logic of their own are modelled and proved:

- **Front Door name validators** (`azurerm/helpers/azure/frontdoor.go`). Each validator matches one fully anchored regular expression. It then returns no warnings and either no errors or the helper's errors plus its own message. The regular expressions are written as data: a sequence of quantified ASCII character classes, with a hand-written whole-string matcher (`Pattern.FullMatch`). Lemmas prove that each pattern accepts exactly the names described by a plain rule: length bounds, first and last character alphanumeric, every character alphanumeric or a hyphen.
- **DevTest virtual network** (`azurerm/resource_arm_dev_test_virtual_network.go`):
  - the name validator;
  - the expansion of `subnet` blocks into the API's subnet overrides, and their flattening back. Each is a loop method proved equal to a specification function. Round-trip lemmas connect the two directions;
  - Create, with its "must be imported" check, and Update, which both send the expanded blocks;
  - Read and Delete, including their 404 branches.
- **Data Lake Analytics account** (`azurerm/resource_arm_data_lake_analytics_account.go`):
  - the case-insensitive `tier` allow-list;
  - the create and update request bodies;
  - Create, with its "must be imported" check;
  - Read, Update and Delete.
- **Availability set data source** (`azurerm/data_source_availability_set.go`). One Get is projected into state:
  - the normalised location;
  - a `managed` flag that compares the SKU name with `Aligned`, ignoring ASCII case;
  - the two domain counts, rendered by `strconv.Itoa`. Each rendering is proved to parse back to the count.

The two collaborators of every adapter live in module `Arm`:
- `Arm.ResourceData` is the framework's resource state: an ID and a map of attribute values, updated by `SetId` and `Set`.
- `Arm.Store` is the management API: records keyed by resource; for each kind of request (Get, create/update, delete), the keys on which it fails with an error other than 404; a function saying how the service turns an accepted request body into its record; and a log of every request received.

Lifecycle methods are stated against these:
- the requests they send;
- the records afterwards;
- the ID and attributes they leave;
- the error they return.

How a wait on a long-running operation ends is a parameter (`awaited`). Helpers whose source is not part of this model are function-valued parameters with no contract: `ParseAzureResourceID` (`parseId`), `azure.NormalizeLocation` (`normalizeLocation`), and the regular-expression helper's own error list (`regexErrs`).

`ValidateBackendPoolRoutingRuleName` states "between 1 and 90 characters" in its message. Its pattern, `(^[\da-zA-Z])([-\da-zA-Z]{1,88})([\da-zA-Z]$)`, needs at least three characters. The model accepts what the pattern accepts (3 to 90 characters). The message's own bounds are kept in the error value. `FrontDoor.RoutingRuleMessageUnderstatesMinimum` exhibits a two-character name that is rejected.

## Model

| member | source | states |
|---|---|---|
| FrontDoor.AlnumClass | azurerm/helpers/azure/frontdoor.go:11 | the class `[\da-zA-Z]` holds exactly the ASCII letters and digits |
| FrontDoor.AlnumHyphenClass | azurerm/helpers/azure/frontdoor.go:11 | the class `[-\da-zA-Z]` holds exactly the letters, digits and the hyphen |
| FrontDoor.BracketedNamePattern | azurerm/helpers/azure/frontdoor.go:11 | a pattern of the form `(^[\da-zA-Z])([-\da-zA-Z]{lo,hi})([\da-zA-Z]$)` matches a string iff its length is in lo+2..hi+2, it begins and ends with a letter or digit, and it holds only letters, digits and hyphens |
| FrontDoor.FrontDoorNamePatternMeaning | azurerm/helpers/azure/frontdoor.go:11 | the Front Door pattern accepts exactly the 5 to 63 character names of that rule |
| FrontDoor.RoutingRuleNamePatternMeaning | azurerm/helpers/azure/frontdoor.go:19 | the routing-rule pattern accepts exactly the 3 to 90 character names of that rule |
| FrontDoor.ValidateFrontDoorName | azurerm/helpers/azure/frontdoor.go:10-16 | no warnings ever; no errors iff the name follows the 5..63 rule; otherwise the helper's errors followed by the validator's message, last |
| FrontDoor.ValidateBackendPoolRoutingRuleName | azurerm/helpers/azure/frontdoor.go:18-24 | no warnings ever; no errors iff the name follows the 3..90 rule; otherwise the helper's errors followed by the message that states 1..90 |
| FrontDoor.FrontDoorNamesAreRoutingRuleNames | azurerm/helpers/azure/frontdoor.go:10-24 | every name the Front Door validator accepts is accepted by the routing-rule validator |
| FrontDoor.RejectedCharacters | azurerm/helpers/azure/frontdoor.go:10-24 | a name that starts or ends with `-`, or holds any character other than a letter, digit or `-`, is rejected by both validators |
| FrontDoor.RoutingRuleMessageUnderstatesMinimum | azurerm/helpers/azure/frontdoor.go:19-20 | the two-character name `ab` is within the stated 1..90 yet is rejected, with exactly the validator's message |
| Pattern.FullMatchSingle | azurerm/resource_arm_dev_test_virtual_network.go:281 | a one-element pattern matches iff the whole string fits the repetition count and every character is in the class |
| Pattern.FullMatchOnceThen | azurerm/helpers/azure/frontdoor.go:11 | a pattern led by one character of a class matches iff the first character is in the class and the rest matches the rest |
| Pattern.FullMatchThenOnce | azurerm/helpers/azure/frontdoor.go:11 | a repetition followed by one character of a class matches iff the last character is in the class and the prefix fits the repetition |
| Pattern.FullMatchBracketed | azurerm/helpers/azure/frontdoor.go:11 | a repetition between two single characters of a class matches iff the ends are in that class and the middle fits the repetition |
| DevTestVirtualNetwork.NameClass | azurerm/resource_arm_dev_test_virtual_network.go:281 | the class `[A-Za-z0-9_-]` holds exactly the letters, digits, `_` and `-` |
| DevTestVirtualNetwork.NamePatternMeaning | azurerm/resource_arm_dev_test_virtual_network.go:281 | `^[A-Za-z0-9_-]+$` matches exactly the non-empty strings of those characters |
| DevTestVirtualNetwork.ValidateName | azurerm/resource_arm_dev_test_virtual_network.go:279-283 | a name is accepted iff it is non-empty and every character is a letter, digit, `_` or `-` |
| DevTestVirtualNetwork.Expanded | azurerm/resource_arm_dev_test_virtual_network.go:285-317 | max(1, \|input\|) overrides; each has subnet name `<vnet>Subnet` and the full subnet resource ID; the default one allows both uses; otherwise override j carries block j's two permissions |
| DevTestVirtualNetwork.ExpandSubnets | azurerm/resource_arm_dev_test_virtual_network.go:285-317 | the loop that appends override by override returns exactly `Expanded` |
| DevTestVirtualNetwork.FlattenedOverride | azurerm/resource_arm_dev_test_virtual_network.go:325-333 | the block has `name` iff the override has a subnet name, and it has that name; both permission keys are always present with the override's values; no other keys |
| DevTestVirtualNetwork.Flattened | azurerm/resource_arm_dev_test_virtual_network.go:319-337 | nil gives the empty list; otherwise one block per override, in order |
| DevTestVirtualNetwork.FlattenSubnets | azurerm/resource_arm_dev_test_virtual_network.go:319-337 | the loop that appends block by block returns exactly `Flattened` |
| DevTestVirtualNetwork.FlattenExpand | azurerm/resource_arm_dev_test_virtual_network.go:285-337 | for non-empty blocks, flattening the expansion gives, per block and in order, its two permissions and `name = <vnet>Subnet` |
| DevTestVirtualNetwork.FlattenExpandRestores | azurerm/resource_arm_dev_test_virtual_network.go:285-337 | blocks holding no other keys come back unchanged except that `name` is set to `<vnet>Subnet` |
| DevTestVirtualNetwork.FlattenExpandDefault | azurerm/resource_arm_dev_test_virtual_network.go:291-299 | with no blocks, what is read back is one block named `<vnet>Subnet` allowing both uses |
| DevTestVirtualNetwork.ExpandFlattenExpand | azurerm/resource_arm_dev_test_virtual_network.go:285-337 | expanding the flattened overrides reproduces the overrides that were sent |
| DevTestVirtualNetwork.IdentityAttributes | azurerm/resource_arm_dev_test_virtual_network.go:175-177 | a successful Read always writes `name` from the response, and `lab_name` and `resource_group_name` from the ID |
| DevTestVirtualNetwork.PropertyAttributes | azurerm/resource_arm_dev_test_virtual_network.go:179-189 | without properties nothing is written from them; with them exactly `description`, `subnet` and `unique_identifier`, holding the response's description, its flattened subnet overrides and its unique identifier |
| DevTestVirtualNetwork.ReadSpec | azurerm/resource_arm_dev_test_virtual_network.go:152-194 | a Read sends at most one request, a Get, and none for an unparsable ID; an unparsable ID or a failed Get is an error that leaves state alone; a 404 clears the ID without error; a found network keeps the ID and writes the identity and property attributes |
| DevTestVirtualNetwork.SetPropertyAttributes | azurerm/resource_arm_dev_test_virtual_network.go:179-189 | the source's `d.Set` calls under the properties check write exactly `PropertyAttributes` over the previous attributes |
| DevTestVirtualNetwork.SetReadAttributes | azurerm/resource_arm_dev_test_virtual_network.go:175-189 | the source's sequence of `d.Set` calls writes exactly the identity and property attributes |
| DevTestVirtualNetwork.Read | azurerm/resource_arm_dev_test_virtual_network.go:152-194 | the error, new ID, new attributes and requests sent are those of `ReadSpec` |
| DevTestVirtualNetwork.RequestBody | azurerm/resource_arm_dev_test_virtual_network.go:114-127 | the create-or-update body carries the configured description and the configured blocks expanded for this virtual network, so at least one override |
| DevTestVirtualNetwork.UpdateSpec | azurerm/resource_arm_dev_test_virtual_network.go:196-242 | an Update sends first one create-or-update request with `RequestBody` and only reads after it; its failure is an error that changes nothing; otherwise the record is what the service makes of that body; any failure leaves the attributes alone; success needs the wait to succeed |
| DevTestVirtualNetwork.Update | azurerm/resource_arm_dev_test_virtual_network.go:196-242 | the error, new ID, new attributes, new records and requests sent are those of `UpdateSpec`: request, wait, Get for the ID (a failure or a missing ID is an error), `SetId`, then Read |
| DevTestVirtualNetwork.CreateSpec | azurerm/resource_arm_dev_test_virtual_network.go:114-149 | after the import check a Create sends first one create-or-update request with `RequestBody`; its failure is an error that changes nothing; otherwise the network is in the records afterwards; any failure leaves the attributes alone; success needs both waits to succeed |
| DevTestVirtualNetwork.SubmitCreate | azurerm/resource_arm_dev_test_virtual_network.go:114-145 | the create request is sent with `RequestBody`'s body; a failed request, a failed wait, a failed Get or a missing ID is the matching error; otherwise the created record's ID is returned |
| DevTestVirtualNetwork.CreateAndUpdate | azurerm/resource_arm_dev_test_virtual_network.go:114-149 | the error, new ID, new attributes, new records and requests sent are those of `CreateSpec`: create, wait, Get for the ID, `SetId`, then Update |
| DevTestVirtualNetwork.Create | azurerm/resource_arm_dev_test_virtual_network.go:91-150 | when import is required: a Get whose non-404 failure is an error, and an existing network with a non-empty ID gives the import error with no write; otherwise the effect is `CreateSpec`, after the check's Get when there was one |
| DevTestVirtualNetwork.Delete | azurerm/resource_arm_dev_test_virtual_network.go:244-277 | a Get first; a 404 is success with no delete request and no record removed; another Get failure is an error with no delete request; otherwise one delete request: its failure is an error that removes nothing, else the record is removed and only a failed wait is an error |
| DataLakeAnalyticsAccount.StringInSlice | azurerm/resource_arm_data_lake_analytics_account.go:47-57 | a value is accepted iff it equals some element of the list, ignoring ASCII case when asked |
| DataLakeAnalyticsAccount.ValidateTier | azurerm/resource_arm_data_lake_analytics_account.go:42-57 | a tier is accepted iff it equals one of the nine tier names, ignoring case |
| DataLakeAnalyticsAccount.TierExamples | azurerm/resource_arm_data_lake_analytics_account.go:45-57 | the default `Consumption` is accepted, and so are tier names written in lower or upper case |
| DataLakeAnalyticsAccount.CreateRequest | azurerm/resource_arm_data_lake_analytics_account.go:92-111 | the create body asks for the configured tier at the normalised location; the default store account is the configured one and is also the single attached store account |
| DataLakeAnalyticsAccount.UpdateRequest | azurerm/resource_arm_data_lake_analytics_account.go:139-155 | the update body asks for the configured tier and attaches exactly one store account, the configured default |
| DataLakeAnalyticsAccount.CreateAndUpdateAgree | azurerm/resource_arm_data_lake_analytics_account.go:99-155 | create and update bodies ask for the same tier and attach the same single store account |
| Arm.ExistingId | azurerm/resource_arm_data_lake_analytics_account.go:79-90 | an existing record blocks a create iff it is present with a non-empty ID, and that ID is reported (used by both Create operations) |
| DataLakeAnalyticsAccount.ReadAttributes | azurerm/resource_arm_data_lake_analytics_account.go:191-200 | name and resource group always; location iff the account has one, normalised; `tier` and `default_store_account_name` iff the properties are present, from `CurrentTier` and `DefaultDataLakeStoreAccount` |
| DataLakeAnalyticsAccount.ReadSpec | azurerm/resource_arm_data_lake_analytics_account.go:169-205 | a Read sends at most one request, a Get, and none for an unparsable ID; an unparsable ID or failed Get is an error that leaves state alone; a 404 clears the ID without error; a found account keeps the ID and writes its attributes |
| DataLakeAnalyticsAccount.ReadIdempotent | azurerm/resource_arm_data_lake_analytics_account.go:169-205 | reading a found account a second time changes neither the result, the ID nor the attributes |
| DataLakeAnalyticsAccount.SetPropertyAttributes | azurerm/resource_arm_data_lake_analytics_account.go:197-200 | the source's two `d.Set` calls under the properties check write exactly the `tier` and `default_store_account_name` attributes, and nothing without properties |
| DataLakeAnalyticsAccount.SetReadAttributes | azurerm/resource_arm_data_lake_analytics_account.go:191-200 | the source's sequence of `d.Set` calls writes exactly `ReadAttributes` over the previous attributes |
| DataLakeAnalyticsAccount.Read | azurerm/resource_arm_data_lake_analytics_account.go:169-205 | the error, new ID, new attributes and requests sent are those of `ReadSpec` |
| DataLakeAnalyticsAccount.Update | azurerm/resource_arm_data_lake_analytics_account.go:135-167 | one update request with `UpdateRequest`'s body; its failure or the wait's failure is an error that leaves state alone; otherwise the store holds the updated record and the rest is a Read of it |
| DataLakeAnalyticsAccount.Create | azurerm/resource_arm_data_lake_analytics_account.go:72-133 | when import is required: a Get whose non-404 failure is an error, and an existing account with a non-empty ID gives the import error with no write request; otherwise one create request with `CreateRequest`'s body (its failure is an error that changes nothing), the wait, a Get for the ID (a failed Get or a missing ID is an error), and then a Read from that ID |
| DataLakeAnalyticsAccount.Delete | azurerm/resource_arm_data_lake_analytics_account.go:207-234 | one delete request; a 404 is success; another failure is an error that removes nothing; after a removed record only a wait that fails other than by 404 is an error |
| AvailabilitySet.CountAttribute | azurerm/data_source_availability_set.go:74-81 | a count attribute is written iff the count is present; it is the count's `strconv.Itoa` rendering (canonical: no leading zeros), and it parses back to the count |
| AvailabilitySet.Projection | azurerm/data_source_availability_set.go:67-81 | `location` iff present, normalised; `managed` iff SKU and SKU name are present, true iff the name equals `Aligned` ignoring case; each domain count iff the properties and that count are present, as its `strconv.Itoa` rendering, which parses back to the count |
| AvailabilitySet.SetProjection | azurerm/data_source_availability_set.go:68-81 | the source's conditional `d.Set` calls write exactly the projection over the previous attributes |
| AvailabilitySet.Read | azurerm/data_source_availability_set.go:51-85 | one Get; a 404 is an error that leaves state alone; another failure is an error too; on success the ID is the response's ID and the attributes gain the projection |
| Decimal.NatToString | azurerm/data_source_availability_set.go:76 | the rendering is non-empty, all digits, with no leading zero |
| Decimal.Itoa | azurerm/data_source_availability_set.go:76 | the rendering is non-empty and begins with `-` iff the number is negative |
| Decimal.DigitsValueOfNatToString | azurerm/data_source_availability_set.go:76 | the digits of a natural number's rendering are worth that number |
| Decimal.ParseItoa | azurerm/data_source_availability_set.go:76-79 | parsing the rendering of any integer gives back that integer |
| Decimal.ItoaInjective | azurerm/data_source_availability_set.go:76-79 | two different counts never render to the same string |

## Left out

- Tags: `expandTags`, `flattenAndSetTags` and the tags schema are not part of this model. Request bodies and read projections carry no tags.
- The Azure SDK clients are reduced to `Arm.Store`. It captures found, not-found and other-failure answers and the records a request leaves. The service side is only the `apply` function.
- Polling futures (`WaitForCompletionRef`) are reduced to how the wait ended, passed as `awaited`.
- `context`/`StopContext` and every `log.Printf` are left out. They have no effect on results.
- The Terraform schema framework is left out: `schema.ResourceData` internals, `ForceNew`, `Computed`, the `tier` `DiffSuppressFunc` (case-insensitive diffs), and importer passthrough. `d.Get` of the configuration is a `Config` value.
- These helpers are not part of this model and are parameters or attribute validators with no contract:
  - `ParseAzureResourceID`, including which parts of the path name the resource;
  - `azure.NormalizeLocation`;
  - `azure.ValidateDataLakeAccountName`;
  - `validate.DevTestLabName`;
  - `validate.DevTestVirtualNetworkUsagePermissionType`;
  - `tf.ImportAsExistsError`, whose message is the `ImportAsExists` error value.
- `validate.RegExHelper` is left out when given a value that is not a string. The validators take strings; its own error list is the parameter `regexErrs`.
- `strings.EqualFold` and `StringInSlice` are modelled over ASCII case only. Unicode simple case folding is not modelled.
- Error message wording and `fmt` verbs are left out. Errors are values of `Common.Error` naming the step that failed.
- DevTestVirtualNetwork.Read: does not model an error returned by `d.Set("subnet", …)`. The framework's rejection of a value is not part of this model.
- DevTestVirtualNetwork.Create: `d.IsNewResource()` is not a parameter. The framework calls Create only for a new resource, where it holds. The client's subscription ID is the parameter `subscriptionId`.
- In `Arm.Store` a key fails for a kind of request either on every such request or on none. A Get that fails transiently, and then succeeds on a later Get of the same run, is not modelled. So in `DataLakeAnalyticsAccount.Create` and `DevTestVirtualNetwork.Create` a Get for the ID after the create cannot fail when the import check's Get for the same key succeeded.
- AvailabilitySet.Read: requires a found record to carry an ID, because the source dereferences `*resp.ID` without a nil check. A nil ID would crash the provider rather than return an error.
- Integer widths: domain counts are `Decimal.Int32` values. `int(*v)` only widens them, so nothing wraps.
