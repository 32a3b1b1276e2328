# Batch registry of the agricultural traceability service, in Dafny

This project models the batch registry of a Django traceability service and
proves properties of it. The service tracks farmers, collection centres,
processing facilities, packaging centres and the batches of product that move
through them. The model covers four things:

- **The batch-number allocator** (`GenerateBatchNumberView.post`). It takes the
  batches of one `(doa, year)` group and picks the one whose `sequence` is
  greatest as a string. It parses that sequence, adds one and pads the result
  with zeros to three digits. It falls back to `"001"` when the group is empty
  or the sequence is not a number. It replies with `doa/year/sequence` and
  writes nothing.
- **The batch record and `Batch.save`**. `save` fills an empty batch number
  from `doa/year/sequence`. The number column is unique and 20 characters wide.
  The three facility references are `CASCADE` foreign keys. The contributing
  farmers are a many-to-many link.
- **The serializer rules**. `BatchSerializer.validate` is the compliance gate:
  child labour is checked first, deforestation second. `contributing_farmers`
  is a primary-key relation. The four entity serializers assign
  `<prefix><zfill3(max pk + 1)>` when the caller supplies no ID.
- **The registry state**. A class holds five tables. Each table maps Django's
  primary key to a record and has its own primary-key sequence. The class has
  create, update and delete operations that keep the database invariant
  `Valid()` (unique columns, resolvable foreign keys, fresh keys). Every batch
  written through the gate is compliant (`AllCompliant()`).

Files:

- `wrappers.dfy`: `Option` and `Result`.
- `text.dfy`: code-point string order, and Python's `int()`, `str()`,
  `zfill()` and `split()` on digit strings. Also the round-trip lemmas for
  these functions.
- `models.dfy`: the records, batch-number composition, `save`'s fill, and the
  cascade and unlink effects of deletes.
- `serializers.dfy`: the compliance gate, the farmer relation, and ID
  assignment.
- `views.dfy`: the allocator, its properties, the numeric-order variant, and
  the lookup by batch number.
- `registry.dfy`: the `Registry` class and the payload-to-row functions it
  uses.

Modelling choices:

- `order_by('-sequence')` is modelled as code-point order (`Text.LexLess`).
  That is the order of SQLite's default `BINARY` collation, Django's default
  database. Rows are visited lowest primary key first. The maximum does not
  depend on that order.
- `int()` is narrowed to non-empty strings of ASCII digits. Leading zeros are
  accepted. Every other string takes the `ValueError` branch (see "Left out").
- The allocator is a function of the batch table. So the table is unchanged
  afterwards by construction: nothing is persisted.
- A request field that is left out is `None`. `data.get(flag)` is true only
  for `Some(true)` (`Serializers.Confirmed`).
- `CreateBatch` takes an optional batch number, as `Batch.save` allows.
  Checks run in this order: required fields, then references, then a supplied
  number that another row already holds, then `validate`, then a number that
  `save` composed and that is already taken. The model reports the first
  failure only.

## Model

| member | source | states |
|---|---|---|
| `Text.LexOrder` | agri/views.py:135 | The string order used by `order_by('-sequence')` is a strict total order: transitive, irreflexive, and any two different strings are ordered one way or the other. |
| `Text.LexLessValue` | agri/views.py:135 | For digit strings of the same length, string order agrees with numeric order. |
| `Text.Decimal` | agri/views.py:139 | `str(n)` is a non-empty digit string with no leading zero unless `n` is 0. |
| `Text.DecimalRoundTrip` | agri/views.py:139 | Reading `str(n)` back as a number gives `n`. |
| `Text.ZFill` | agri/views.py:139 | `zfill(w)` on an unsigned digit string, which is all the view passes it. The result has length `max(w, len(s))` and ends with `s` unchanged, so it never cuts. Everything before `s` is `'0'`. |
| `Text.ValueLeadingZeros` | agri/views.py:139 | Leading zeros do not change the number a digit string denotes. |
| `Text.ParseDecimal` | agri/views.py:139 | `int(s)` on a sequence: it succeeds exactly on a non-empty string of ASCII digits, with a value below `10^len(s)`. Every other string is the `ValueError` branch. |
| `Text.ParseDecimalZFillInverse` | agri/views.py:139 | A string `int()` accepts is `str` of its value zero-filled to its own length, so parsing loses only leading zeros. It is the converse of `ParseZFillDecimal`. |
| `Text.ParseZFillDecimal` | agri/views.py:139 | `int(str(n).zfill(w)) == n` for every `n` and width. |
| `Text.DecimalBelow1000` | agri/views.py:139 | A number below 1000 prints in at most three digits, so `zfill(3)` gives exactly three. |
| `Models.ComposeBatchNumber` | agri/models.py:112 | The composed number is two characters longer than its three parts together. |
| `Models.ComposedNumberFitsColumn` | agri/models.py:91-94 | With `doa` ≤ 4, `year` ≤ 4 and `sequence` ≤ 10 characters, the composed number fits the 20-character `batch_number` column. |
| `Models.ComposedNumberSplits` | agri/models.py:112 | If no part contains `/`, splitting `doa/year/sequence` on `/` gives back exactly `[doa, year, sequence]`. |
| `Models.FillBatchNumber` | agri/models.py:109-112 | `save` sets an empty number to `doa/year/sequence` and changes nothing else. A non-empty number is kept. The result always has a number. |
| `Models.FillBatchNumberIdempotent` | agri/models.py:110 | Saving twice equals saving once. |
| `Models.CascadeDelete` | agri/models.py:95-97 | Deleting facility row `pk` removes exactly the batches whose column references `pk`. Every other batch stays, unchanged. |
| `Models.UnlinkFarmer` | agri/models.py:98 | Deleting farmer `pk` keeps every batch. It removes `pk` from each farmer set and changes nothing else. |
| `Models.WithoutNumber` | agri/views.py:111-117 | The batch table after a delete by number holds exactly the rows whose number differs, each unchanged. |
| `Models.WriteKeepsBatchTable` | agri/models.py:91-98 | Writing a saved row whose number no other row holds, and whose keys name existing rows, keeps the batch table valid: keys below the sequence, unique numbers, resolvable references. |
| `Models.RemoveKeepsBatchTable` | agri/views.py:111-117 | Deleting the rows that hold a number keeps the batch table valid. |
| `Models.CascadeKeepsBatchTable` | agri/models.py:95-97 | After a cascade delete, every remaining batch references only the facility rows that remain. |
| `Models.UnlinkKeepsBatchTable` | agri/models.py:98 | After a farmer is deleted and unlinked, every batch's farmer set names only the farmers that remain. |
| `Models.GreatestKey` | agri/serializers.py:14 | `order_by('-id').first()` is the row with the highest primary key. |
| `Serializers.Validate` | agri/serializers.py:76-88 | Accepts exactly when both flags are present and true, and then returns its input unchanged. A flag that is absent or false gives the child-labour message. A confirmed child-labour flag with a missing or false deforestation flag gives the deforestation message. |
| `Serializers.ValidateReportsChildLaborFirst` | agri/serializers.py:80-87 | When both flags fail, the child-labour message is reported, not the deforestation message. |
| `Serializers.UnknownFarmer` | agri/serializers.py:66-69 | It finds nothing exactly when every listed farmer key names a farmer row. Otherwise it returns the first listed key with no row. |
| `Serializers.NextNumber` | agri/serializers.py:14-15 | The running number is 1 for an empty table. Otherwise it is one more than the highest primary key, which is in the table. It exceeds every existing key. |
| `Serializers.NextEntityId` | agri/serializers.py:13-16 | An empty table gives exactly `prefix001`. Otherwise the ID is the prefix followed by `max(3, len(str(n)))` digits, where `n` is the running number, and those digits parse back to `n`. Together these fix the string as `prefix + str(n).zfill(3)`. |
| `Serializers.AssignedId` | agri/serializers.py:11-17 | A supplied ID is kept unchanged. Otherwise the ID is the prefix plus the running number, zero-padded to three digits (`prefix001` for an empty table), with the exact length and parse-back of `NextEntityId`. |
| `Views.LatestSequence` | agri/views.py:135 | It is `None` exactly when no batch has this `doa` and `year`. Otherwise it is the sequence of a batch in the group, and no batch in the group sorts after it. |
| `Views.LatestIsGreatest` | agri/views.py:135 | A group sequence that no other group sequence sorts after is exactly the one the view picks. |
| `Views.NextSequence` | agri/views.py:137-143 | A numeric latest sequence `n` gives a string that parses to `n + 1`. No latest batch, or a non-numeric sequence, gives `"001"`. The result is at least three characters. |
| `Views.GenerateBatchNumber` | agri/views.py:125-155 | A missing or empty `doa` or `year` gives the "DOA and year are required" error and no number. Otherwise `doa` and `year` are echoed unchanged, and the number is exactly `doa/year/sequence`. |
| `Views.FirstBatchOfGroup` | agri/views.py:135-145 | When no batch has this `doa` and `year`, the reply is sequence `"001"` and number `doa + "/" + year + "/001"`. |
| `Views.NextSequenceOfNumber` | agri/views.py:139 | For a numeric latest sequence `n`, the result is `str(n + 1)` padded with zeros to at least three characters. It is never cut, and it parses back to `n + 1`. |
| `Views.AllocationFreshBelow999` | agri/views.py:135-139 | If every sequence in the group is a three-digit string below `"999"`, the proposed sequence differs from all of them. |
| `Views.FallbackReissues001` | agri/views.py:140-141 | Take a group holding `"001"` and the non-numeric `"A01"`, in two independent rows, so the table may hold distinct numbers as the unique column requires. The string maximum is `"A01"`, which does not parse, so the allocator proposes `"001"` again. |
| `Views.AllocationReissues1000` | agri/views.py:135-139 | Take `"999"` and `"1000"` in a group of two independent rows, so the table may hold distinct numbers as the unique column requires. `"999"` sorts last as a string, so `"1000"` is proposed again. |
| `Views.NextAfter999` | agri/views.py:137-139 | The successor of `"999"` is `"1000"`, four digits that `zfill(3)` leaves alone. |
| `Views.HighestNumber` | agri/views.py:135 | It is `None` exactly when the group has no numeric sequence. Otherwise it is the largest number among the group's numeric sequences. |
| `Views.GenerateBatchNumberNumeric` | agri/views.py:125-155 | The allocator with sequences compared as numbers. It fails with the "DOA and year are required" message exactly when `doa` or `year` is missing or empty. It echoes `doa` and `year` and composes `doa/year/sequence` as the view does. The sequence has at least three characters and parses to one more than the highest numeric sequence in the group, or to 1. |
| `Views.NumericAllocationFresh` | agri/views.py:135-139 | Compared as numbers, the proposed sequence differs from every sequence of the group, whatever the group holds. |
| `Views.FindByNumber` | agri/views.py:117 | The lookup finds the unique row whose `batch_number` equals the key exactly, or reports that no row has it. |
| `Views.LookupFindsWrittenRow` | agri/models.py:91 | A row written under a unique number is the row the lookup by that number finds. |
| `Views.RemoveFoundRow` | agri/views.py:111-117 | With unique numbers, removing the row the lookup finds removes every row that holds that number, and only those. A number nobody holds leaves the table unchanged. |
| `Views.DetailUrl` | agri/urls.py:24 | The detail path for a number is `batches/` + number + `/`, one character longer than prefix and number together. |
| `Views.RouteBatchNumber` | agri/urls.py:24 | A number the route extracts is one whose detail path is the URL. It is non-empty, and it has no `/` under the `str` converter. |
| `Views.RouteFindsNumber` | agri/urls.py:24 | A non-empty number that fits the converter (for `str`, one without `/`) comes back unchanged from its own detail path. |
| `Views.StrRouteMissesComposedNumber` | agri/urls.py:24 | Under `<str:batch_number>`, no detail path of a composed `doa/year/sequence` number matches. |
| `Views.PathRouteFindsComposedNumber` | agri/urls.py:24 | Under a `path` converter, every composed number comes back from its detail path. |
| `Registry.MissingBatchField` | agri/models.py:92-100 | It finds nothing exactly when every required batch column is present. Otherwise it names the first missing column in declaration order: `doa`, `year`, `sequence`, the three facilities, `contributing_farmers`, `packaging_date`, `expiry_date`. |
| `Registry.NewBatch` | agri/models.py:90-102 | The row carries the payload's `doa`, `year`, `sequence`, facility keys, dates and exactly the listed farmers, plus a supplied number. A flag left out is stored as false, the column default. The number is empty exactly when none is supplied. |
| `Registry.CreatedBatchFoundByNumber` | agri/models.py:90-112 | Create then find: a row written under a unique number is found by that number. It carries every column of the payload, and its number is the one supplied or the one `save` composed. |
| `Registry.NewBatchWithoutFlagsNonCompliant` | agri/models.py:101-102 | A batch created without the flags starts non-compliant, and the gate rejects it with the child-labour message. |
| `Registry.ApplyPatch` | agri/views.py:111-117 | Every column the payload carries replaces the stored one, the farmer set by exactly the listed farmers. Every column it leaves out keeps its stored value, so an empty payload leaves the row unchanged. |
| `Registry.FullUpdateIsCreate` | agri/views.py:111-117 | A full update that carries every column, number and flags included, gives the same row a create makes from that payload, whatever was stored. |
| `Registry.ReferenceError` | agri/models.py:95-98 | It finds nothing exactly when every foreign key and farmer key in the payload names a row. Any error is an unknown-reference error. |
| `Registry.FieldError` | agri/models.py:91-98 | It finds nothing exactly when the references resolve and no other row holds a supplied batch number. References are checked first. |
| `Registry.Registry.constructor` | agri/models.py:90-104 | The tables start empty, valid and compliant. |
| `Registry.Registry.InsertFarmer` | agri/models.py:18 | The insert succeeds exactly when no farmer row holds the ID. The row then goes in under the next primary key. Otherwise it fails with a duplicate `farmer_id` and nothing changes. |
| `Registry.Registry.InsertCollectionCenter` | agri/models.py:41 | The same rule for `center_id` on the collection-centre table. |
| `Registry.Registry.InsertProcessingFacility` | agri/models.py:58 | The same rule for `facility_id` on the processing-facility table. |
| `Registry.Registry.InsertPackagingCenter` | agri/models.py:78 | The same rule for `center_id` on the packaging-centre table. |
| `Registry.Registry.CreateFarmer` | agri/serializers.py:11-17 | The row gets the supplied ID, or `F` plus the zero-padded running number. It is inserted under a fresh key exactly when no farmer holds that ID. Otherwise nothing changes. Only the farmer table changes. `Valid()` is kept. |
| `Registry.Registry.CreateCollectionCenter` | agri/serializers.py:26-32 | The same rule with prefix `CC` on the collection-centre table. |
| `Registry.Registry.CreateProcessingFacility` | agri/serializers.py:41-47 | The same rule with prefix `PF` on the processing-facility table. |
| `Registry.Registry.CreatePackagingCenter` | agri/serializers.py:56-62 | The same rule with prefix `PC` on the packaging-centre table. |
| `Registry.Registry.InsertBatch` | agri/models.py:91 | A new batch row is stored exactly when no row holds its number. It goes in under the next primary key. Otherwise the insert fails with a duplicate `batch_number` and nothing changes. |
| `Registry.Registry.ReplaceBatch` | agri/models.py:91 | A stored row is overwritten exactly when no other row holds the new number. Otherwise it fails with a duplicate `batch_number` and nothing changes. |
| `Registry.Registry.CreateBatch` | agri/serializers.py:65-88 | Errors come in order: missing field, unknown reference or supplied duplicate number, then the `validate` message, then a duplicate `batch_number` for the number `save` stores. The batch is inserted exactly when all checks pass. It is stored as `save` fills it and is compliant. `Valid()` and `AllCompliant()` are kept. |
| `Registry.Registry.UpdateBatch` | agri/views.py:111-117 | It finds the batch by its exact number; if none is found the result is `NotFound`. A full update (PUT, `partial` false) missing a required field fails with the first missing field. A partial update (PATCH) may carry any subset. Then the field checks run, then `validate` on the payload only, so a payload without the flags is rejected even when the stored row is compliant. On success only that row changes, to the patched and saved row. `Valid()` and `AllCompliant()` are kept. |
| `Registry.Registry.DeleteBatch` | agri/views.py:111-117 | It removes exactly the row with that number, with its farmer links. Nothing else changes. |
| `Registry.Registry.DeleteFarmer` | agri/models.py:98 | It removes the farmer and unlinks it from every batch. No batch is deleted. |
| `Registry.Registry.DeleteCollectionCenter` | agri/models.py:95 | It removes the centre and exactly the batches that reference it. `Valid()` is kept. |
| `Registry.Registry.DeleteProcessingFacility` | agri/models.py:96 | It removes the facility and exactly the batches that reference it. `Valid()` is kept. |
| `Registry.Registry.DeletePackagingCenter` | agri/models.py:97 | It removes the centre and exactly the batches that reference it. `Valid()` is kept. |

## Left out

- `Text.ParseDecimal`: it does not model the rest of what Python's `int()` accepts. That is surrounding whitespace, a sign, `_` between digits and non-ASCII decimal digits. Such a sequence takes the fallback branch here. In the service, `"-5"` would give `"-04"` instead. Batch sequences are meant to be digit strings.
- The allocator assumes code-point string order. A database using a locale collation could sort sequences differently.
- Concurrency is not modelled. That includes the race between previewing a number and creating the batch, and two creates that read the same highest primary key. Database transactions are left out too.
- These serializer parts are not modelled: `to_representation` (expanding related rows into nested JSON), `BatchNumberSearchSerializer`, and the search route. The search view is imported and routed but not defined in `agri/views.py`. Only the exact lookup by `batch_number` is modelled.
- Filtering, search and ordering settings of the list views are left out, along with pagination, HTTP status codes and the request machinery.
- The timestamps (`created_at`, `updated_at`) and the `__str__` methods are left out.
- The float columns `farm_size` and `capacity` and their `MinValueValidator(0)` are left out.
- Field-level validation of lengths and choices is not modelled. The model does not enforce the `max_length` of 10 on the ID columns. So a generated ID longer than 10 characters is not rejected. That happens once the highest primary key reaches 10⁹ − 1 for the `F` prefix, or 10⁸ − 1 for `CC`, `PF` and `PC`.
- Blank strings are not rejected. `doa`, `year`, `sequence` and `batch_number` are text columns without `blank=True`, so the framework turns `""` away for each of them. The model accepts `""`. `Registry.Registry.CreateBatch` accepts an empty `doa`, `year` or `sequence`, and can then store the number `"//"`. `Registry.Registry.UpdateBatch` accepts `batch_number` `""` and has `save` compose the number again.
- The framework would make `batch_number` a required field of the batch serializer. The model follows `Batch.save`, where the number may be empty.
- `Serializers.AssignedId`: the generated branch is modelled as the `create` methods write it. The framework, though, makes `farmer_id`, `center_id` and `facility_id` required (unique, no blank, no default, `fields = '__all__'`), so a request that omits the ID fails validation before `create` runs. The model does not capture this. It takes the ID as optional, as `create` does.
- The framework reports all field errors together. The model reports the first, in the order given above.
- `Registry.Registry.UpdateBatch`: PUT is modelled with the same required fields as a create. So `batch_number` is not required on a full update, though the framework would require it (see above).
- Retrieve, update and list for the four entity tables are left out. They are generic CRUD with no rule of their own. Their deletes are keyed by primary key. The detail views resolve `farmer_id` / `center_id` / `facility_id` to the row first.
- A failed insert does not advance the primary-key sequence here. In PostgreSQL it would.

## Findings

| source | as written | input that shows it | evidently intended | confidence | as-written member | corrected member |
|---|---|---|---|---|---|---|
| agri/views.py:135-139 | The latest batch is the one whose `sequence` is greatest as a string, and the next sequence is that number plus one. | A group holding sequences `"999"` and `"1000"`: `"999"` sorts last, so `"1000"` is proposed although a batch already holds it. Every later call proposes `"1000"` again. | The next sequence lies past every sequence already in the group, with sequences compared as numbers. | not executed | `Views.AllocationReissues1000` | `Views.NumericAllocationFresh` |
| agri/urls.py:24 | The detail route is `batches/<str:batch_number>/`. The `str` converter matches no `/`. | Any batch number `save` composes, such as `25A/2024/001`: its detail path `batches/25A/2024/001/` matches no route, so the batch cannot be read, updated or deleted by its number. | Every stored batch number is reachable, as with a `path` converter. | not executed | `Views.StrRouteMissesComposedNumber` | `Views.PathRouteFindsComposedNumber` |

`Views.GenerateBatchNumber` stays faithful to the view as written. `Views.GenerateBatchNumberNumeric` is the corrected allocator, and `Views.NumericAllocationFresh` proves that its proposal is always new to the group. `Views.RouteBatchNumber` models the detail route under both the `str` and the `path` converter.
