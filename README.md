# Query projection and price-list status, in Dafny

This project models two small pieces of the Medusa commerce platform and proves
properties of them.

**The query-projection resolver** (`packages/medusa/src/utils/get-query-config.ts`).
An HTTP list or retrieve endpoint receives a validated request with optional
`fields`, `expand`, `order`, `limit` and `offset`. `prepareListQuery` combines it
with the route's configuration: default fields, allowed fields, allowed and
default relations, a default limit and whether the route lists. The result is
the database descriptor (`select`, `relations`, `skip`, `take`, `order`) and the
remote-query descriptor (`fields`, `pagination`), or one of two errors:
"Requested fields [..] are not valid" and "Order field .. is not valid".

The resolver works in these steps:

- The request's `fields` either replaces the default field set or edits it with
  `+x`, `-x` and `*x` tokens.
- `created_at` (for lists) and `id` are forced in when `fields` is given.
- Star fields (`*rel`) are moved out of the field set. They become relations
  unless `expand` is given (which replaces the whole relation set), and they
  become `rel.*` entries in the remote field list.
- The fields and star fields are checked against the allow-list. A field may
  also pass because an allowed name is a plain string prefix of it.
- Relations are derived, or taken from `expand`, and checked.
- The order key is checked against the configuration's own `allowedFields`.

`prepareRetrieveQuery` reuses the list resolution and drops pagination.
`pickByConfig` keeps only the configured keys of a record or of each record of
an array.

**The price-list status badge**
(`packages/admin-next/dashboard/src/routes/pricing/common/utils.ts`).
`getValues` derives three flags from a price list and the current time: expired,
scheduled and draft. `getPriceListStatus` starts from the green "active" badge.
It then lets the scheduled, draft and expired rules overwrite the colour and the
label in turn, so the last rule that applies wins.

Modelling choices:

- A JavaScript `Set` is an insertion-ordered sequence without duplicates
  (`OrderedSets`). `add` appends a missing element, `delete` removes one, and
  `new Set(xs)` keeps first occurrences in order.
- `limit` and `offset` are `Undefined`, `Null` or a number. This reproduces the
  destructuring defaults (`limit = 50`, `offset = 0`), which apply only to a
  value that was left out, and the later `limit ?? defaultLimit`.
- `stringToSelectRelationObject` and `getSetDifference` come from another
  package. The first is a parameter of the resolver, so every property holds
  for any implementation of it. The second is an order-preserving filter.
- Each stage of `prepareListQuery` is specified by a function in
  `GetQueryConfig`: `RequestedFields`, `Scalars`, `StarFields`, `Rejected`,
  `AllRelations`, `NotAllowedRelations`, `OrderBy`, `OrderError`, `Skip` and
  `Take`. `PreparedListQuery` composes them.
- The source's loops are methods with loop invariants, proved to compute those
  functions: the token edit, the star extraction and the allow-list scan.
  `PrepareListQuery` rebinds its locals in the source's order and is proved
  equal to `PreparedListQuery`.
- The clock is a parameter `now`, in milliseconds. A date is `Option<int>`.
  The badge label is returned as its translation key.

Files:

- `wrappers.dfy`: `Option` and `Result`.
- `strings.dfy`: `split`, `join`, `startsWith` and `filter(Boolean)`.
- `ordered_sets.dfy`: insertion-ordered sets.
- `get_query_config.dfy`: the resolver, `prepareRetrieveQuery` and `pickByConfig`.
- `get_query_config_properties.dfy`: the resolver's properties.
- `get_query_config_examples.dfy`: worked requests.
- `price_list_status.dfy`: the badge.

## Model

| member | source | states |
|---|---|---|
| GetQueryConfig.PrepareListQuery | packages/medusa/src/utils/get-query-config.ts:23-209 | The step-by-step resolution, with the source's early returns for the two field errors and the order error, returns exactly the result of the composed specification `PreparedListQuery`. |
| GetQueryConfig.ResolveRequestedFields | packages/medusa/src/utils/get-query-config.ts:47-79 | Building the field set (defaults, then replace or edit, then the forced fields) yields `RequestedFields`. |
| GetQueryConfig.RequestedFields | packages/medusa/src/utils/get-query-config.ts:47-79 | The field set holds each field once. It contains `id` whenever `fields` was given, and also `created_at` for a list. Without `fields` it holds exactly the default fields. |
| GetQueryConfig.StripSigns | packages/medusa/src/utils/get-query-config.ts:61 | Removing the leading sign keeps the number and order of the tokens, each with at most one leading `+` or `-` removed. |
| GetQueryConfig.ApplyModifiers | packages/medusa/src/utils/get-query-config.ts:62-71 | The token-by-token edit of a duplicate-free set stays duplicate-free. |
| GetQueryConfig.ApplyModifiersInOrder | packages/medusa/src/utils/get-query-config.ts:63-71 | The `forEach` loop over the tokens computes the token-by-token edit `ApplyModifiers`. |
| GetQueryConfigProperties.ReplacementSemantics | packages/medusa/src/utils/get-query-config.ts:50-78 | When some token has no modifier, the field set is the tokens with their sign removed plus the forced fields. The defaults play no part. |
| GetQueryConfigProperties.EmptyFieldListReplaces | packages/medusa/src/utils/get-query-config.ts:50-52 | A `fields` value with no non-empty piece (`","`) replaces the defaults, leaving only the forced fields. |
| GetQueryConfigProperties.IncrementalMembership | packages/medusa/src/utils/get-query-config.ts:63-71 | In an edit, a field is in the result exactly when the last token naming it adds it, or when no token names it and it was there before. |
| GetQueryConfigProperties.IncrementalSemantics | packages/medusa/src/utils/get-query-config.ts:49-79 | When every token has a modifier, a field is requested exactly when it is forced, added last by a token, or a default that no token names. |
| GetQueryConfig.Scalars | packages/medusa/src/utils/get-query-config.ts:81-86 | The fields left after extraction are exactly the non-star fields, without duplicates. |
| GetQueryConfig.StarFields | packages/medusa/src/utils/get-query-config.ts:81-86 | `y` is a star field exactly when `*y` was in the field set. The star fields hold no duplicates. |
| GetQueryConfig.ExtractStarFields | packages/medusa/src/utils/get-query-config.ts:81-86 | The loop that moves star fields out while iterating the same set yields `Scalars` and `StarFields` of the set it started with. |
| GetQueryConfig.VisitField | packages/medusa/src/utils/get-query-config.ts:81-85 | One call of the `forEach` callback takes both sets from describing the fields before the visited one to describing the fields up to and including it. |
| GetQueryConfigProperties.StarExtraction | packages/medusa/src/utils/get-query-config.ts:81-86 | No field left after extraction starts with `*`. Every star field is recorded without its `*`, and no field is lost. |
| GetQueryConfigProperties.ScalarsOfScalars | packages/medusa/src/utils/get-query-config.ts:81-86 | Extraction leaves a duplicate-free list without star fields unchanged and finds no star field in it. |
| GetQueryConfig.Rejected | packages/medusa/src/utils/get-query-config.ts:92-117 | A field is refused exactly when it is checked and not accepted. At most as many fields are refused as are checked. |
| GetQueryConfig.CollectNotAllowedFields | packages/medusa/src/utils/get-query-config.ts:88-118 | The scan over fields then star fields collects exactly `Rejected`, in visiting order. |
| GetQueryConfigProperties.RejectedExactly | packages/medusa/src/utils/get-query-config.ts:92-117 | The refused list names exactly the unaccepted fields. It is empty exactly when every checked field is accepted. |
| GetQueryConfigProperties.FieldValidation | packages/medusa/src/utils/get-query-config.ts:88-127 | Assume a non-empty allow-list and a non-empty remaining field set. Then the field check passes exactly when every field and star field is accepted, and the error lists exactly the refused ones. An empty allow-list or an empty remaining field set always passes. |
| GetQueryConfigProperties.PrefixMatchIsRaw | packages/medusa/src/utils/get-query-config.ts:109-111 | The prefix test is a raw string prefix: `variantsX` passes under `variants`, while `variants` does not pass under `variants.title`. |
| GetQueryConfigProperties.StarFieldsNeedExactMatch | packages/medusa/src/utils/get-query-config.ts:99-107 | A field named like a star field passes only on an exact allow-list entry. |
| GetQueryConfigProperties.FailureOrder | packages/medusa/src/utils/get-query-config.ts:120-184 | Resolution succeeds exactly when the field, relation and order checks all pass. When several fail, the field error wins, then the relation error. |
| GetQueryConfigProperties.AllRelationsElems | packages/medusa/src/utils/get-query-config.ts:134-142 | The relation set holds each relation once. With `expand` it is the `expand` tokens; otherwise it is the derived relations, the default relations and the star fields. |
| GetQueryConfig.ResolveRelations | packages/medusa/src/utils/get-query-config.ts:134-152 | The relation set built from the derived, default and star relations, replaced by the `expand` tokens when `expand` is given, and its difference against the allow-lists are exactly `AllRelations` and `NotAllowedRelations`, whose contents `AllRelationsElems` and `RelationCheckExactly` pin down. |
| GetQueryConfigProperties.RelationsWithinAllowList | packages/medusa/src/utils/get-query-config.ts:144-159 | When relations are restricted, a relation set that passes the check lies within the allowed fields and the allowed relations. |
| GetQueryConfigProperties.RelationsOutsideAllowList | packages/medusa/src/utils/get-query-config.ts:144-159 | When relations are restricted, a relation outside both lists makes the check fail, and the error lists exactly such relations. |
| GetQueryConfigProperties.RelationCheckExactly | packages/medusa/src/utils/get-query-config.ts:144-159 | With no allowed relations the relation check always passes, even under a restrictive field allow-list. Otherwise it passes exactly when every relation is an allowed field or an allowed relation. |
| GetQueryConfigProperties.RelationResolution | packages/medusa/src/utils/get-query-config.ts:129-189 | The relations of a successful resolution are duplicate-free, come from `expand` or from the derived, default and star relations, and respect the allow-lists when relations are restricted. |
| GetQueryConfig.ResolveOrder | packages/medusa/src/utils/get-query-config.ts:162-184 | The branchy order code yields the sort map `OrderBy` and the order error `OrderError`. |
| GetQueryConfigProperties.OrderResolution | packages/medusa/src/utils/get-query-config.ts:162-184 | The sort map has one key. It is `created_at` descending by default, the key ascending without a leading `-`, and the rest descending for `-f` when `f` holds no other dash. |
| GetQueryConfigProperties.OrderFieldStopsAtDash | packages/medusa/src/utils/get-query-config.ts:165-168 | A descending key keeps only the piece up to its next dash: `-a-b` sorts on `a`. |
| GetQueryConfigProperties.OrderValidation | packages/medusa/src/utils/get-query-config.ts:173-181 | The order key fails exactly when the configuration's own `allowedFields` is non-empty and lacks it. The legacy `allowed` list plays no part. |
| GetQueryConfigProperties.Descriptors | packages/medusa/src/utils/get-query-config.ts:186-208 | `skip` is the offset, 0 when left out. `take` is the limit: 50 when left out, the configured default only for `null`. `select` is omitted exactly when empty. The remote query is paginated exactly for lists, with the same skip, take and order. |
| GetQueryConfigProperties.MarkersLayout | packages/medusa/src/utils/get-query-config.ts:196-199 | The remote field list is the remaining fields, then one `rel.*` entry per star field, each traceable to the field set. |
| GetQueryConfig.StarMarkers | packages/medusa/src/utils/get-query-config.ts:198 | One `f.*` entry per star field `f`, in the star fields' order. |
| GetQueryConfigProperties.RemoteFieldsLayout | packages/medusa/src/utils/get-query-config.ts:194-199 | A successful resolution's remote fields have that layout. |
| GetQueryConfigProperties.PlainFieldsResolveToThemselves | packages/medusa/src/utils/get-query-config.ts:49-79 | Distinct, non-empty, unsigned, comma-free fields that already hold the forced fields resolve to themselves when sent back comma-joined. |
| GetQueryConfigProperties.ReplacementIsIdempotent | packages/medusa/src/utils/get-query-config.ts:49-86 | When the resolved fields (those left after the star fields move out) are all non-empty, comma-free and unsigned, sending them back comma-joined as `fields` resolves to the same fields and no star fields. |
| GetQueryConfigExamples.SignedFieldsAreNotIdempotent | packages/medusa/src/utils/get-query-config.ts:49-79 | Outside that condition the round trip fails: `++a` resolves to `+a, id`, and `+a,id` sent back resolves to `a, id`, because its plain `id` makes it a replacement whose signs are stripped. |
| GetQueryConfigExamples.EmptyFieldsAreNotIdempotent | packages/medusa/src/utils/get-query-config.ts:49-79 | Likewise `+` resolves to the empty field and `id`, and `,id` sent back resolves to `id` alone, because `filter(Boolean)` drops the empty piece. |
| GetQueryConfig.PrepareRetrieveQuery | packages/medusa/src/utils/get-query-config.ts:211-230 | Retrieval fails exactly when listing fails, with the same error. Otherwise it has the list's `select`, relations and remote fields and no pagination. |
| GetQueryConfig.Pick | packages/medusa/src/utils/get-query-config.ts:15-17 | Picking keeps exactly the record's keys that are listed, with their values. |
| GetQueryConfig.PickAll | packages/medusa/src/utils/get-query-config.ts:15 | `obj.map(...)`: the array keeps its length, and each record is picked on its own, at its own position. |
| GetQueryConfig.PickByConfig | packages/medusa/src/utils/get-query-config.ts:7-21 | With no configured keys the input comes back unchanged. Otherwise a record, or each record of an array, keeps exactly its configured keys with their values unchanged, and the shape and array length are preserved. |
| GetQueryConfigProperties.PickByConfigIdempotent | packages/medusa/src/utils/get-query-config.ts:7-21 | Picking twice with the same configuration gives the same as picking once. |
| GetQueryConfigExamples.IncrementalExample | packages/medusa/src/utils/get-query-config.ts:62-78 | `+c,-a` on defaults `a, b` gives `b, c, id`. |
| GetQueryConfigExamples.StarExample | packages/medusa/src/utils/get-query-config.ts:81-208 | `*variants` becomes the relation `variants` and the remote field `variants.*` after `id`. |
| GetQueryConfigExamples.RejectionExample | packages/medusa/src/utils/get-query-config.ts:88-127 | Under the allow-list `id, name`, `id,price` fails and names `price` alone, with the message `Requested fields [price] are not valid`. |
| GetQueryConfigExamples.ForcedCreatedAtIsChecked | packages/medusa/src/utils/get-query-config.ts:74-127 | On a list with defaults `id, sku` and allow-list `id, sku, title`, `+title` fails with the error `[created_at]`, because the forced `created_at` is itself refused. |
| GetQueryConfigProperties.ForcedCreatedAtRefused | packages/medusa/src/utils/get-query-config.ts:74-127 | On a list with a non-empty allow-list in which no entry is a prefix of `created_at`, every request with `fields` fails, and the error names `created_at`. |
| Strings.Split | packages/medusa/src/utils/get-query-config.ts:50 | `split` yields at least one piece, no piece holds the separator, and a string holding it yields two or more pieces. |
| Strings.JoinSplit | packages/medusa/src/utils/get-query-config.ts:50 | Joining the pieces of a split with the separator gives the string back. |
| Strings.SplitJoin | packages/medusa/src/utils/get-query-config.ts:50 | Splitting a join of separator-free pieces gives the pieces back. |
| Strings.NonEmpty | packages/medusa/src/utils/get-query-config.ts:50 | `filter(Boolean)` keeps exactly the non-empty pieces. |
| OrderedSets.Add | packages/medusa/src/utils/get-query-config.ts:65 | `add` adds exactly the element and keeps the set duplicate-free. It appends a new element and leaves the set as it is when the element is present. |
| OrderedSets.Delete | packages/medusa/src/utils/get-query-config.ts:67 | `delete` removes exactly the element and keeps the set duplicate-free. It changes nothing when the element is absent. |
| OrderedSets.FromSeq | packages/medusa/src/utils/get-query-config.ts:47 | `new Set(xs)` holds exactly the elements of `xs`, once each. |
| OrderedSets.FromSeqOfNoDups | packages/medusa/src/utils/get-query-config.ts:47 | `new Set(xs)` of a list without duplicates is that list, in the same order. |
| OrderedSets.Difference | packages/medusa/src/utils/get-query-config.ts:148-150 | The set difference keeps exactly the elements outside the second set, and keeps a duplicate-free set duplicate-free. |
| PriceListUtils.GetValues | packages/admin-next/dashboard/src/routes/pricing/common/utils.ts:5-18 | A list is expired exactly when it has an end before `now`, scheduled exactly when it has a start after `now`, and a draft exactly when its status is draft. |
| PriceListUtils.GetPriceListStatus | packages/admin-next/dashboard/src/routes/pricing/common/utils.ts:20-48 | The overwriting sequence of `if`s yields the colour and label of the badge chosen by precedence (`Shown`). An expired list is always red and labelled expired. |
| PriceListUtils.ShownExactly | packages/admin-next/dashboard/src/routes/pricing/common/utils.ts:26-42 | Each badge is shown exactly when its flag is set and no flag of higher precedence is. |
| PriceListUtils.ExpiredWins | packages/admin-next/dashboard/src/routes/pricing/common/utils.ts:39-42 | A list whose end lies before `now` is red and expired, whatever its status and start. |
| PriceListUtils.DraftBeatsScheduled | packages/admin-next/dashboard/src/routes/pricing/common/utils.ts:34-37 | A draft that has not expired is grey and draft, even when its start lies ahead. |
| PriceListUtils.LiveListIsActive | packages/admin-next/dashboard/src/routes/pricing/common/utils.ts:26-27 | An active list inside its window, or without one, is green and active. |
| PriceListUtils.ExpiryIsFinal | packages/admin-next/dashboard/src/routes/pricing/common/utils.ts:9 | A list expired at some time is expired, and shown so, at every later time. |
| PriceListUtils.WindowIsConsistent | packages/admin-next/dashboard/src/routes/pricing/common/utils.ts:9-10 | A list that starts no later than it ends is never expired and scheduled at once. |
| PriceListUtils.BadgesAreDistinct | packages/admin-next/dashboard/src/routes/pricing/common/utils.ts:26-42 | Two badges have the same colour, or the same label, only when they are the same badge. |

## Left out

- GetQueryConfig.Pick: lodash `pick` also follows dotted paths into nested objects. The model picks top-level keys only, so a configured key such as `variants.title` keeps nothing.
- `stringToSelectRelationObject` and `getSetDifference` belong to another package and are not part of this model. The first is a parameter; the second is modelled as an order-preserving filter.
- The thrown `MedusaError` is the `Failure` value of a `Result`. Its type, `INVALID_DATA`, is not modelled; `GetQueryConfig.Message` gives its text.
- The request is taken as already validated. `fields`, `expand` and `order` are strings or absent, and `limit` and `offset` are numbers, `null` or absent. A `null` `fields`, `expand` or `order`, and any other JavaScript value, is not modelled.
- An absent `queryConfig` is the configuration whose lists are all empty. An `isList` that is left out is `false`.
- The clock (`new Date()`) is the parameter `now`. Dates are whole milliseconds. Invalid date strings, which compare as `NaN`, are not modelled. A present but empty `starts_at` or `ends_at` string, which JavaScript treats as absent, is modelled as absent.
- The translation function `t` is left out. The badge label is its translation key.
- The resolver follows the code where a description of it differs:
  - On a list whose allow-list is non-empty and holds neither `created_at` nor any prefix of it, any request with `fields` fails, because the forced `created_at` is checked too (`GetQueryConfigProperties.ForcedCreatedAtRefused`, with the example `GetQueryConfigExamples.ForcedCreatedAtIsChecked`). The allow-list here is `allowed`, or `allowedFields` when `allowed` is empty.
  - `prepareRetrieveQuery` passes the configuration on unchanged; it does not force `isList` off, and only the pagination block is dropped.
  - The exact-match rule for star fields applies to every checked field whose name is also a star field.
  - Resolving the resolved fields again does not always give them back. A field that keeps a sign (`++a` adds `+a`) loses it when sent back among plain fields (`GetQueryConfigExamples.SignedFieldsAreNotIdempotent`). An empty field (`+` adds the empty string) is dropped when sent back (`GetQueryConfigExamples.EmptyFieldsAreNotIdempotent`). `GetQueryConfigProperties.ReplacementIsIdempotent` holds only for non-empty, comma-free, unsigned fields.
