# Warehouse: a Dafny model of its core

Warehouse is a .NET library that stores runtime-defined entity types and their attributes,
dictionaries and entities in a relational database. This project models its core and proves
properties about that model:

- **Value types.**
  - The `WarehouseResult` envelope: success, or errors, or a captured exception.
  - The `WarehousePagination<T>` page view, with 32-bit page arithmetic.
  - The `AttributeTypes` wire codes.
- **In-place collections.** `AttributeCollection`, which keeps aliases unique, and the list-backed `WarehouseDictionary`.
- **The database layer.**
  - The `DatabaseConnector` and its tracked connections.
  - The fluent `DatabaseQueryBuilder` over one command record.
  - The `Query` and `StoredProcedure` factories.
  - The reader extensions `ReadString` and `Build`, and the `ExecuteAsync<T>` row loop.
- **The store bases.** `EntityStore`, `TypeStoreBase` and `DictionaryStoreBase`.
- **The PostgreSQL type store.** `PostgresTypeStore`, including the alias-matched write-back of database keys in `CreateAsync`.
- **The three managers.** `WarehouseManager`, `TypeManager` and `DictionaryManager`:
  - disposed guard and argument checks;
  - the validation pass, which does not short-circuit;
  - the save gate;
  - the unwrap convention for store results;
  - idempotent disposal.

Modelling conventions:

- **Exceptions.** A C# exception is a `Throw(Exception(kind, message))` outcome, and the message is the name the source passes.
- **Nulls.** A nullable value is an `Option`. A nullable object argument is a nullable class reference.
- **Things outside the core are parameters:**
  - the database server, as the result set or affected-row count of each command;
  - the JSON serializer and deserializers;
  - the validators;
  - the replies of a store's abstract members.
- **Call logs.** Store classes keep a ghost log of the calls they receive. This lets the managers' contracts say exactly when the store is or is not reached.

## Model

| member | source | states |
|---|---|---|
| WarehouseResults.FromFlag | src/Warehouse/WarehouseResult.cs:92-95 | only the flag is set; errors and exception are null, and a successful result is well formed |
| WarehouseResults.Success | src/Warehouse/WarehouseResult.cs:58-60 | the shared success: succeeded, no errors, no exception |
| WarehouseResults.Failed | src/Warehouse/WarehouseResult.cs:112-130 | not succeeded, errors exactly the given array (possibly empty, never null), no exception |
| WarehouseResults.FailedWith | src/Warehouse/WarehouseResult.cs:101-106 | not succeeded, the exception kept, exactly one error with empty code and the exception's message as description |
| WarehouseResults.WithValue | src/Warehouse/WarehouseResult.cs:28-32 | a well-formed success carrying the value, even a null one |
| WarehouseResults.WithException | src/Warehouse/WarehouseResult.cs:38-42 | the same failure shape as `Failed(exception)`, with no value |
| WarehouseResults.UnwrapInvertsConstructors | src/Warehouse/WarehouseManager.cs:154-157 | unwrapping a value result gives the value; an exception result rethrows its exception; a failure without exception gives null |
| WarehouseResults.UnwrapOutcomes | src/Warehouse/WarehouseManager.cs:154-157 | on a well-formed result, unwrapping throws exactly when an exception was captured, and rethrows that exception; a non-null value comes only from a success |
| WarehouseResults.Unwrap | src/Warehouse/WarehouseManager.cs:154-157 | the managers' unwrap of an envelope (definition only): the value of a success, a rethrow of a captured exception, otherwise null; `UnwrapInvertsConstructors` and `UnwrapOutcomes` state its properties |
| WarehouseResults.UnwrapReply | src/Warehouse/WarehouseManager.cs:152-157 | a store reply that throws propagates, one that returns is unwrapped (definition only); the managers' `Find`, `Get` and `FindBy*` contracts are stated through it |
| Paging.Pages | src/Warehouse/WarehousePagination.cs:39 | at least one page; one page for a zero count; otherwise the least page count covering `count` items of `size` |
| Paging.CeilingDivision | src/Warehouse/WarehousePagination.cs:39 | for positive `count` and `size`, the source's `(count + size - 1) / size` equals the rounded-up quotient `r`, and `r` is the least page count covering `count` items, `(r - 1) * size < count <= r * size`, with `1 <= r <= count` |
| Paging.New | src/Warehouse/WarehousePagination.cs:62-77 | the constructor succeeds exactly when every guard holds; the result stores the arguments and satisfies `1 <= page <= Pages` and `|items| <= size, count`; a failed guard throws its own exception, in source order |
| Paging.NewAsWritten | src/Warehouse/WarehousePagination.cs:39 | the constructor with the wrapping 32-bit page count: the same argument errors, and a success exactly when every argument guard holds and `page <= PagesAsWritten`, storing the arguments as given |
| Paging.NegativeCountRejected | src/Warehouse/WarehousePagination.cs:67-68 | a negative count is always rejected |
| Paging.PagesAsWrittenAgrees | src/Warehouse/WarehousePagination.cs:39 | without 32-bit overflow, the page count as written equals the intended one |
| Paging.PagesOverflowRejectsFirstPage | src/Warehouse/WarehousePagination.cs:39 | for `count = int.MaxValue` and `size = 2` the page count as written is negative, so page 1 of one item is rejected; the intended constructor accepts it |
| Paging.Wrap32 | src/Warehouse/WarehousePagination.cs:39 | C#'s unchecked `int` arithmetic: a result in the 32-bit range, congruent to the exact value modulo 2^32, and the exact value itself when that fits |
| Paging.PagesAsWritten | src/Warehouse/WarehousePagination.cs:39 | the page count as the source computes it (definition only): `PagesAsWrittenAgrees` ties it to `Pages` without overflow, `PagesOverflowRejectsFirstPage` exhibits the overflow |
| Paging.Pagination.HasPrevious | src/Warehouse/WarehousePagination.cs:44 | `Page > 1` (definition only); `HasPreviousIffItemsBefore` states what it means |
| Paging.Pagination.HasNext | src/Warehouse/WarehousePagination.cs:49 | `Page < Pages` (definition only); `HasNextIffItemsRemain` states what it means |
| Paging.HasNextIffItemsRemain | src/Warehouse/WarehousePagination.cs:49 | `HasNext` holds exactly when items exist beyond the current page |
| Paging.HasPreviousIffItemsBefore | src/Warehouse/WarehousePagination.cs:44 | `HasPrevious` holds exactly when items exist before the current page |
| Paging.At | src/Warehouse/WarehousePagination.cs:86 | the indexer returns the item at that position and throws outside the items |
| Paging.Elements | src/Warehouse/WarehousePagination.cs:95 | the enumerator's sequence, the items as given (definition only); `ElementsAgreeWithIndexer` relates it to `New` and the indexer |
| Paging.ElementsAgreeWithIndexer | src/Warehouse/WarehousePagination.cs:95 | the enumerator yields exactly the given items in their original order, and each agrees with the indexer |
| AttributeKinds.Code | src/Warehouse/AttributeTypes.cs:14-58 | every kind has a code between 1 and 12 |
| AttributeKinds.FromCode | src/Warehouse/AttributeTypes.cs:14-58 | a code decodes to a kind exactly when it is between 1 and 12 |
| AttributeKinds.AllKindsIndexedByCode | src/Warehouse/AttributeTypes.cs:9-59 | there are exactly twelve kinds, and the i-th has code i + 1 |
| AttributeKinds.DecodeEncode | src/Warehouse/WarehouseAttribute.cs:35-36 | decoding the code of a kind gives back the kind |
| AttributeKinds.EncodeDecode | src/Warehouse/AttributeTypes.cs:14-58 | encoding the kind of a valid code gives back the code |
| AttributeKinds.CodeInjective | src/Warehouse/AttributeTypes.cs:14-58 | distinct kinds have distinct codes |
| AttributeKinds.CodesCoverOneToTwelve | src/Warehouse/AttributeTypes.cs:14-58 | every code from 1 to 12 is used, with no gaps |
| Attributes.Attribute.constructor | src/Warehouse/WarehouseAttribute.cs:30-72 | the attribute carries exactly the given key, kind, alias, name, summary, default, required and unique flags |
| Attributes.FindAlias | src/Warehouse/AttributeCollection.cs:32 | the position of the first attribute with the alias, or none exactly when no attribute has it |
| Attributes.IndexOf | src/Warehouse/AttributeCollection.cs:91 | the position of the first occurrence of the item, or none exactly when it is absent |
| Attributes.RemoveFirst | src/Warehouse/AttributeCollection.cs:91 | removing an absent item changes nothing; removing a present one drops exactly one occurrence of it |
| Attributes.RemoveFirstKeepsDistinct | src/Warehouse/AttributeCollection.cs:89-92 | removal keeps aliases pairwise distinct |
| Attributes.AppendNewAliasKeepsDistinct | src/Warehouse/AttributeCollection.cs:41-48 | appending an attribute with an unused alias keeps aliases pairwise distinct |
| Attributes.AttributeCollection.constructor | src/Warehouse/AttributeCollection.cs:11-18 | a new collection is empty |
| Attributes.AttributeCollection.Count | src/Warehouse/AttributeCollection.cs:18 | the number of attributes held |
| Attributes.AttributeCollection.IsReadOnly | src/Warehouse/AttributeCollection.cs:23 | the backing list is never read-only |
| Attributes.AttributeCollection.Contains | src/Warehouse/AttributeCollection.cs:74 | true exactly when the item (by reference) is held |
| Attributes.AttributeCollection.Get | src/Warehouse/AttributeCollection.cs:28-34 | the indexer returns an attribute with the alias when one exists, and otherwise throws the no-match exception |
| Attributes.AttributeCollection.Elements | src/Warehouse/AttributeCollection.cs:84 | the enumerator's sequence, the attributes in insertion order (definition only) |
| Attributes.AttributeCollection.Add | src/Warehouse/AttributeCollection.cs:41-48 | a duplicate alias throws and leaves the list unchanged; otherwise the item is appended at the end and the count grows by one; aliases stay distinct |
| Attributes.AttributeCollection.AddNew | src/Warehouse/AttributeCollection.cs:53-63 | a null name, then a null alias, is rejected; otherwise an attribute carrying exactly those fields goes through the checked `Add` |
| Attributes.AttributeCollection.Clear | src/Warehouse/AttributeCollection.cs:69 | the collection is empty afterwards |
| Attributes.AttributeCollection.Remove | src/Warehouse/AttributeCollection.cs:89-92 | the first occurrence is removed, and the answer is true exactly when the item was present |
| Attributes.AttributeCollection.RemoveAlias | src/Warehouse/AttributeCollection.cs:97-101 | a missing alias throws and changes nothing; otherwise the attribute with that alias is removed and the answer is true |
| Attributes.RemoveAliasIsPositional | src/Warehouse/AttributeCollection.cs:97-101 | with distinct aliases, removing by alias drops exactly the matching position and no attribute with that alias remains |
| Dictionaries.DictionaryValue.constructor | src/Warehouse/DictionaryValue.cs:25-45 | the value carries exactly the given fields |
| Dictionaries.WarehouseDictionary.constructor | src/Warehouse/WarehouseDictionary.cs:62-65 | the default constructor gives an empty, list-backed dictionary |
| Dictionaries.WarehouseDictionary.FromArray | src/Warehouse/WarehouseDictionary.cs:71-74 | the array constructor wraps exactly the given values, so the count is their number |
| Dictionaries.WarehouseDictionary.Count | src/Warehouse/WarehouseDictionary.cs:100 | the number of items |
| Dictionaries.WarehouseDictionary.IsReadOnly | src/Warehouse/WarehouseDictionary.cs:105 | always false |
| Dictionaries.WarehouseDictionary.Get | src/Warehouse/WarehouseDictionary.cs:86-92 | the first item whatever the key, and a throw exactly when there are no items |
| Dictionaries.WarehouseDictionary.Contains | src/Warehouse/WarehouseDictionary.cs:136-139 | true exactly when the item is among the items |
| Dictionaries.WarehouseDictionary.Elements | src/Warehouse/WarehouseDictionary.cs:164 | the enumerator's sequence, the items in order (definition only) |
| Dictionaries.WarehouseDictionary.Add | src/Warehouse/WarehouseDictionary.cs:112-117 | always throws not-implemented |
| Dictionaries.WarehouseDictionary.Remove | src/Warehouse/WarehouseDictionary.cs:156-159 | always throws not-implemented |
| Dictionaries.WarehouseDictionary.Clear | src/Warehouse/WarehouseDictionary.cs:122-127 | a list-backed dictionary is emptied; a wrapped array refuses (fixed size) and keeps its items; no other field changes |
| Dictionaries.IndexerIgnoresKey | src/Warehouse/WarehouseDictionary.cs:86-92 | the indexer gives the same answer for any two keys |
| Dictionaries.AddRemoveAlwaysThrow | src/Warehouse/WarehouseDictionary.cs:112-117 | `Add` and `Remove` throw not-implemented on every dictionary and item |
| DatabaseConnections.Connection.constructor | src/Warehouse.Database/DatabaseConnector.cs:69 | a connection from the driver starts closed and undisposed |
| DatabaseConnections.Connection.Open | src/Warehouse.Database/DatabaseConnector.cs:73 | opening makes the connection Open, or throws the driver's error and leaves the state |
| DatabaseConnections.Connection.Dispose | src/Warehouse.Database/DatabaseConnector.cs:100 | the connection is disposed once more; its state is kept, as the repository's test connection does (see Left out) |
| DatabaseConnections.ConnectionStringError | src/Warehouse.Database/DatabaseConnector.cs:46-47 | a null string is an argument-null error; an empty or whitespace-only one is an argument error; any other is accepted |
| DatabaseConnections.ConnectionStringExamples | src/Warehouse.Database/DatabaseConnector.cs:46-47 | the empty and the blank string are rejected; a real connection string is accepted |
| DatabaseConnections.DatabaseConnector.constructor | src/Warehouse.Database/DatabaseConnector.cs:44-50 | the string is stored verbatim, with no tracked connection and not disposed |
| DatabaseConnections.DatabaseConnector.New | src/Warehouse.Database/DatabaseConnector.cs:44-50 | a bad connection string throws its error; otherwise a fresh connector with that string and a count of zero |
| DatabaseConnections.DatabaseConnector.Count | src/Warehouse.Database/DatabaseConnector.cs:34 | the number of tracked connections |
| DatabaseConnections.DatabaseConnector.ThrowIfDisposed | src/Warehouse.Database/DatabaseConnector.cs:109-112 | throws exactly when the connector has been disposed |
| DatabaseConnections.DatabaseConnector.InitializeConnection | src/Warehouse.Database/DatabaseConnector.cs:60 | the driver factory yields a fresh closed connection, or its own error |
| DatabaseConnections.DatabaseConnector.CreateConnection | src/Warehouse.Database/DatabaseConnector.cs:67-76 | each call appends exactly one fresh connection at the end, before it is opened, so a failed open still leaves it tracked; the connection is Open exactly when `open` is set and opening succeeds; other connections are kept |
| DatabaseConnections.DatabaseConnector.Dispose | src/Warehouse.Database/DatabaseConnector.cs:95-104 | the first call disposes every tracked connection once and sets the flag; later calls dispose nothing; the tracked list is never cleared |
| DataReaders.DataReader.constructor | src/Warehouse.Database/DataReader.cs:18-21 | a reader positioned before the first row |
| DataReaders.DataReader.Read | src/Warehouse.Database/DataReader.cs:21 | advances one row exactly when a row remains, and says whether it did |
| DataReaders.DataReader.GetString | src/Warehouse.Database/DataReader.cs:21 | column 0 of the current row, and a throw without a current row or without columns |
| DataReaders.ConcatAppend | src/Warehouse.Database/DataReader.cs:21 | concatenating two runs of rows is concatenating their concatenations |
| DataReaders.ConcatEmptyIff | src/Warehouse.Database/DataReader.cs:32-33 | the concatenation is empty exactly when every row's text is empty |
| DataReaders.ReadString | src/Warehouse.Database/DataReader.cs:18-24 | the in-order concatenation of column 0 of every remaining row (empty for an exhausted reader), leaving no row; without columns a remaining row makes it throw |
| DataReaders.BuildOf | src/Warehouse.Database/DataReader.cs:32-35 | an empty payload binds to null; any other is decoded |
| DataReaders.BuildRows | src/Warehouse.Database/DataReader.cs:30-36 | what `Build` gives for a reader's remaining rows: the column error when there are rows but no columns, otherwise the binding of their concatenation |
| DataReaders.Build | src/Warehouse.Database/DataReader.cs:30-36 | `ReadString`, then null for an empty payload and the decoder's answer otherwise; the column error propagates |
| DataReaders.EmptyRowsBuildNull | src/Warehouse.Database/DataReader.cs:32-33 | rows that all hold empty text bind to null |
| DataReaders.NonEmptyRowDecodes | src/Warehouse.Database/DataReader.cs:35 | one non-empty row is enough for the payload to be decoded |
| QueryBuilders.Command.constructor | src/Warehouse.Database/DatabaseQueryBuilder.cs:40-43 | a new command: no text, type Text, no parameters, the default timeout, no transaction |
| QueryBuilders.BuilderError | src/Warehouse.Database/DatabaseQueryBuilder.cs:37-62 | the constructor succeeds exactly when the connection is a `DbConnection` producing a `DbCommand`; a null connection is dereferenced; a failing `CreateCommand` passes its exception; otherwise invalid operation |
| QueryBuilders.DatabaseQueryBuilder.constructor | src/Warehouse.Database/DatabaseQueryBuilder.cs:37-44 | the builder holds the command and the connection |
| QueryBuilders.DatabaseQueryBuilder.New | src/Warehouse.Database/DatabaseQueryBuilder.cs:37-62 | a failed check throws its error; otherwise a fresh builder whose command has the given text and type and no parameters |
| QueryBuilders.DatabaseQueryBuilder.AddParameter | src/Warehouse.Database/DatabaseQueryBuilder.cs:73-83 | exactly one parameter with that name and value is appended after the others; nothing else changes; the same builder is returned |
| QueryBuilders.DatabaseQueryBuilder.Timeout | src/Warehouse.Database/DatabaseQueryBuilder.cs:88-93 | only the timeout is set; the same builder is returned |
| QueryBuilders.DatabaseQueryBuilder.Transaction | src/Warehouse.Database/DatabaseQueryBuilder.cs:98-103 | only the transaction is set; the same builder is returned |
| QueryBuilders.DatabaseQueryBuilder.Run | src/Warehouse.Database/DatabaseQueryBuilder.cs:108-111 | the server's affected-row count (or exception) for exactly this command |
| QueryBuilders.DatabaseQueryBuilder.Execute | src/Warehouse.Database/DatabaseQueryBuilder.cs:127-130 | a fresh reader before the first row of the server's result set for this command, or the server's exception |
| QueryBuilders.PerRowThrowPersists | src/Warehouse.Database/DatabaseQueryBuilder.cs:141-144 | in the per-row reading, once a row fails to bind, later rows do not change the outcome |
| QueryBuilders.ExecuteAsWrittenYieldsAtMostOne | src/Warehouse.Database/DatabaseQueryBuilder.cs:139-144 | as written, at most one element is yielded, and one exactly when there is a column and a row |
| QueryBuilders.ExecutePerRowIsOnePerRow | src/Warehouse.Database/DatabaseQueryBuilder.cs:141-144 | the per-row reading yields one element per row, the i-th bound from row i alone |
| QueryBuilders.ExecuteSkipsFirstRow | src/Warehouse.Database/DatabaseQueryBuilder.cs:141-144 | with rows "a" and "b", the loop as written yields only "b"; the per-row reading yields "a" then "b" |
| QueryBuilders.ExecuteAs | src/Warehouse.Database/DatabaseQueryBuilder.cs:135-145 | the loop as written: nothing without columns, otherwise its result equals `ExecuteAsWritten` of the remaining rows |
| QueryBuilders.ExecuteEachRow | src/Warehouse.Database/DatabaseQueryBuilder.cs:135-145 | the corrected loop: its result equals `ExecutePerRow` of the remaining rows |
| QueryBuilders.ExecuteAsWritten | src/Warehouse.Database/DatabaseQueryBuilder.cs:139-144 | the elements the loop yields as written (definition only): `ExecuteAsWrittenYieldsAtMostOne` and `ExecuteSkipsFirstRow` state what it does |
| QueryBuilders.ExecutePerRow | src/Warehouse.Database/DatabaseQueryBuilder.cs:139-144 | the intended elements, one per row from that row's own text (definition only): `ExecutePerRowIsOnePerRow` states it |
| ConnectionExtensions.Query | src/Warehouse.Database/Connection.cs:16-17 | a fresh builder with the text verbatim, the given command type (Text by default) and no parameters, or the constructor's error |
| ConnectionExtensions.StoredProcedure | src/Warehouse.Database/Connection.cs:22-23 | the same, with the command type always StoredProcedure |
| Records.BaseDescriber | src/Warehouse/WarehouseErrorDescriber.cs:15-18 | the default error has code and description "DefaultError" |
| Records.DefaultOptions | src/Warehouse/WarehouseManager.cs:101 | the fresh options used when none are given carry no settings |
| Records.Entity.constructor | src/Warehouse/Entity.cs:33 | the entity carries the given key |
| Records.WarehouseType.constructor | src/Warehouse/WarehouseType.cs:25-45 | the type carries exactly the given key, alias, display, class and summary; the publicly settable key and the attribute collection are the shape `PostgresTypeStore` uses (src/Warehouse.PostgreSQL/PostgresTypeStore.cs lines 66-69), which this class lacks |
| Validation.Validate | src/Warehouse/WarehouseManager.cs:216-229 | the foreach loop equals `Verdict`: every validator runs in order; the errors of the failing ones are collected; the shared success exactly when none were collected |
| Validation.Collected | src/Warehouse/WarehouseManager.cs:218-226 | the errors the foreach has gathered over a prefix of the validators (definition only): a throw ends the pass, a success adds nothing, a failure appends its errors, a null error array throws |
| Validation.Verdict | src/Warehouse/WarehouseManager.cs:218-228 | the pass's outcome (definition only): `Success` with nothing collected, otherwise `Failed` of the collected errors; `NoShortCircuit`, `EmptyFailuresDoNotBlock` and `FailureWithErrorsBlocks` state its properties |
| Validation.PrefixThrowPersists | src/Warehouse/WarehouseManager.cs:220-226 | a validator that throws ends the pass: later validators do not change the outcome |
| Validation.Verdicts | src/Warehouse/WarehouseManager.cs:222 | the verdicts of the validators, one per validator, in order |
| Validation.NoShortCircuit | src/Warehouse/WarehouseManager.cs:218-226 | the collected errors are the concatenation, in order, of the errors of every failing validator, not just the first |
| Validation.EmptyFailuresDoNotBlock | src/Warehouse/WarehouseManager.cs:228 | validators that fail with empty error lists leave nothing collected, so the pass is the shared success |
| Validation.FailureWithErrorsBlocks | src/Warehouse/WarehouseManager.cs:225-228 | one failing validator with at least one error makes the pass fail |
| Validation.FailureErrorsContains | src/Warehouse/WarehouseManager.cs:225 | the collected errors are at least as many as those of any one failure |
| Stores.StoreArgumentError | src/Warehouse.Stores/TypeStoreBase.cs:70-71 | the store constructors reject a null connector, then a null error describer, and accept anything else |
| Stores.EntityStore.constructor | src/Warehouse.Database/EntityStore.cs:54-55 | both arguments stored unchanged; not disposed |
| Stores.EntityStore.New | src/Warehouse.Database/EntityStore.cs:47-56 | a null connector, then a null describer, throws; otherwise a fresh store holding both |
| Stores.EntityStore.Delete | src/Warehouse.Database/EntityStore.cs:68 | the store's reply for that key; the call is logged |
| Stores.EntityStore.DeleteEntity | src/Warehouse.Database/EntityStore.cs:76-77 | exactly `Delete(entity.Key)`; a null entity is dereferenced before any call |
| Stores.EntityStore.Find | src/Warehouse.Database/EntityStore.cs:85 | the store's page reply; the call is logged |
| Stores.EntityStore.FindById | src/Warehouse.Database/EntityStore.cs:96 | the store's reply for that key; the call is logged |
| Stores.EntityStore.Save | src/Warehouse.Database/EntityStore.cs:104 | the store's reply for that entity; the call is logged |
| Stores.EntityStore.Dispose | src/Warehouse.Database/EntityStore.cs:123-131 | the disposed flag is set |
| Stores.EntityStore.ThrowIfDisposed | src/Warehouse.Database/EntityStore.cs:136-139 | throws exactly when disposed, naming the store's type |
| Stores.TypeStoreBase.constructor | src/Warehouse.Stores/TypeStoreBase.cs:73-74 | both arguments stored unchanged; not disposed |
| Stores.TypeStoreBase.New | src/Warehouse.Stores/TypeStoreBase.cs:66-75 | a null connector, then a null describer, throws; otherwise a fresh store holding both |
| Stores.TypeStoreBase.Delete | src/Warehouse.Stores/TypeStoreBase.cs:86 | the store's reply for that key; the call is logged |
| Stores.TypeStoreBase.DeleteType | src/Warehouse.Stores/TypeStoreBase.cs:93-94 | exactly `Delete(warehouseType.Key)`; a null type is dereferenced before any call |
| Stores.TypeStoreBase.FindByAlias | src/Warehouse.Stores/TypeStoreBase.cs:104 | the store's reply for that alias; the call is logged |
| Stores.TypeStoreBase.FindByClass | src/Warehouse.Stores/TypeStoreBase.cs:114 | the store's reply for that class name; the call is logged |
| Stores.TypeStoreBase.GetAll | src/Warehouse.Stores/TypeStoreBase.cs:121 | the store's reply; the call is logged |
| Stores.TypeStoreBase.Get | src/Warehouse.Stores/TypeStoreBase.cs:131 | the store's reply for that key; the call is logged |
| Stores.TypeStoreBase.Save | src/Warehouse.Stores/TypeStoreBase.cs:139 | the store's reply for that type; the call is logged |
| Stores.TypeStoreBase.Dispose | src/Warehouse.Stores/TypeStoreBase.cs:158-166 | the disposed flag is set |
| Stores.TypeStoreBase.ThrowIfDisposed | src/Warehouse.Stores/TypeStoreBase.cs:171-174 | throws exactly when disposed, naming the store's type |
| Stores.DictionaryStoreBase.constructor | src/Warehouse.Stores/DictionaryStoreBase.cs:75-76 | both arguments stored unchanged; not disposed |
| Stores.DictionaryStoreBase.New | src/Warehouse.Stores/DictionaryStoreBase.cs:68-77 | a null connector, then a null describer, throws; otherwise a fresh store holding both |
| Stores.DictionaryStoreBase.Delete | src/Warehouse.Stores/DictionaryStoreBase.cs:89 | the store's reply for that key; the call is logged |
| Stores.DictionaryStoreBase.FindByAlias | src/Warehouse.Stores/DictionaryStoreBase.cs:99 | the store's reply for that alias; the call is logged |
| Stores.DictionaryStoreBase.Get | src/Warehouse.Stores/DictionaryStoreBase.cs:109 | the store's reply for that key; the call is logged |
| Stores.DictionaryStoreBase.Save | src/Warehouse.Stores/DictionaryStoreBase.cs:117 | the store's reply for that dictionary; the call is logged |
| Stores.DictionaryStoreBase.Dispose | src/Warehouse.Stores/DictionaryStoreBase.cs:136-144 | the disposed flag is set |
| Stores.DictionaryStoreBase.ThrowIfDisposed | src/Warehouse.Stores/DictionaryStoreBase.cs:149-152 | throws exactly when disposed, naming the store's type |
| WarehouseManagers.WarehouseManager.constructor | src/Warehouse/WarehouseManager.cs:100-103 | the store and validators kept; missing options and describer replaced by fresh defaults |
| WarehouseManagers.WarehouseManager.New | src/Warehouse/WarehouseManager.cs:91-104 | a null store is rejected; otherwise a fresh manager as the constructor describes |
| WarehouseManagers.WarehouseManager.ThrowIfDisposed | src/Warehouse/WarehouseManager.cs:262-265 | throws exactly when the manager has been disposed |
| WarehouseManagers.WarehouseManager.DeleteKey | src/Warehouse/WarehouseManager.cs:133-140 | disposed, then a null key, throws without reaching the store; otherwise the store's delete reply, with one call logged |
| WarehouseManagers.WarehouseManager.Delete | src/Warehouse/WarehouseManager.cs:117-124 | a null entity is rejected; otherwise exactly `DeleteKey(entity.Key)`, with its null-key rejection |
| WarehouseManagers.WarehouseManager.Find | src/Warehouse/WarehouseManager.cs:147-158 | disposed throws; otherwise the store's page, unwrapped: the value, the captured exception rethrown, or null |
| WarehouseManagers.WarehouseManager.FindById | src/Warehouse/WarehouseManager.cs:168-179 | the key is passed on unchecked; the store's entity, unwrapped |
| WarehouseManagers.WarehouseManager.Validate | src/Warehouse/WarehouseManager.cs:216-229 | the validation pass over the registered validators |
| WarehouseManagers.WarehouseManager.Save | src/Warehouse/WarehouseManager.cs:200-209 | disposed, then a null entity, throws; the store is asked to save exactly when validation succeeds, and its reply is returned verbatim; otherwise the pass's own outcome is returned and the store is not touched |
| WarehouseManagers.WarehouseManager.Dispose | src/Warehouse/WarehouseManager.cs:249-257 | the first call disposes the store once and sets the flag; later calls do nothing |
| TypeManagers.TypeManager.constructor | src/Warehouse/TypeManager.cs:103-109 | the store and validators kept; missing options and describer replaced by fresh defaults |
| TypeManagers.TypeManager.New | src/Warehouse/TypeManager.cs:96-110 | a null store is rejected; otherwise a fresh manager as the constructor describes |
| TypeManagers.TypeManager.ThrowIfDisposed | src/Warehouse/TypeManager.cs:316-319 | throws exactly when the manager has been disposed |
| TypeManagers.TypeManager.DeleteKey | src/Warehouse/TypeManager.cs:139-146 | disposed, then a null key, throws without reaching the store; otherwise the store's delete reply |
| TypeManagers.TypeManager.Delete | src/Warehouse/TypeManager.cs:123-130 | a null type is rejected; otherwise exactly `DeleteKey(warehouseType.Key)` |
| TypeManagers.TypeManager.GetAll | src/Warehouse/TypeManager.cs:154-164 | disposed throws; otherwise every type, unwrapped |
| TypeManagers.TypeManager.Get | src/Warehouse/TypeManager.cs:173-185 | a null key is rejected; otherwise the store's type, unwrapped |
| TypeManagers.TypeManager.FindByAlias | src/Warehouse/TypeManager.cs:194-206 | a null alias is rejected; otherwise the store's type, unwrapped |
| TypeManagers.TypeManager.FindByType | src/Warehouse/TypeManager.cs:229-241 | a null type is rejected; otherwise the store is asked for the type's full name and its answer unwrapped |
| TypeManagers.TypeManager.FindByTypeOf | src/Warehouse/TypeManager.cs:215-220 | `FindByType` of `typeof(T)`, which is never null |
| TypeManagers.TypeManager.Validate | src/Warehouse/TypeManager.cs:270-283 | the validation pass over the registered validators |
| TypeManagers.TypeManager.Save | src/Warehouse/TypeManager.cs:250-259 | the store is asked to save exactly when validation succeeds; otherwise the pass's outcome, and the store is not touched |
| TypeManagers.TypeManager.Dispose | src/Warehouse/TypeManager.cs:303-311 | the first call disposes the store once; later calls do nothing |
| DictionaryManagers.DictionaryManager.constructor | src/Warehouse/DictionaryManager.cs:42 | the manager holds the given store and is not disposed |
| DictionaryManagers.DictionaryManager.ThrowIfDisposed | src/Warehouse/DictionaryManager.cs:190-193 | throws exactly when the manager has been disposed |
| DictionaryManagers.DictionaryManager.DeleteKey | src/Warehouse/DictionaryManager.cs:92-99 | disposed, then a null key, throws without reaching the store; otherwise the store's delete reply |
| DictionaryManagers.DictionaryManager.Delete | src/Warehouse/DictionaryManager.cs:76-83 | a null dictionary is rejected; otherwise exactly `DeleteKey(dictionary.Key)` |
| DictionaryManagers.DictionaryManager.Get | src/Warehouse/DictionaryManager.cs:108-120 | a null key is rejected; otherwise the store's dictionary, unwrapped |
| DictionaryManagers.DictionaryManager.FindByAlias | src/Warehouse/DictionaryManager.cs:129-141 | a null alias is rejected; otherwise the store's dictionary, unwrapped |
| DictionaryManagers.DictionaryManager.Save | src/Warehouse/DictionaryManager.cs:150-157 | a null dictionary is rejected; otherwise the store's reply, with no validation pass |
| DictionaryManagers.DictionaryManager.Dispose | src/Warehouse/DictionaryManager.cs:177-185 | the first call disposes the store once; later calls do nothing |
| PostgresTypeStores.AttributeRecords | src/Warehouse.PostgreSQL/PostgresTypeStore.cs:49 | the serialized attributes, one per attribute, in order |
| PostgresTypeStores.Snapshot | src/Warehouse.PostgreSQL/PostgresTypeStore.cs:49 | what the serializer sees of a type: its fields and its attributes' records, in order (definition only) |
| PostgresTypeStores.FirstWithAlias | src/Warehouse.PostgreSQL/PostgresTypeStore.cs:69 | the position of the first returned attribute with the alias, or none exactly when none has it |
| PostgresTypeStores.FirstUnmatched | src/Warehouse.PostgreSQL/PostgresTypeStore.cs:68-69 | the first submitted attribute whose alias is missing from the returned ones, or none exactly when every alias is found |
| PostgresTypeStores.MergeOf | src/Warehouse.PostgreSQL/PostgresTypeStore.cs:66-76 | how far the key merge gets: all attributes when every alias is found; a null returned array stops at the first attribute; a missing alias stops at that attribute with the no-match exception |
| PostgresTypeStores.FindIgnoresOrder | src/Warehouse.PostgreSQL/PostgresTypeStore.cs:69 | with distinct returned aliases, the key an alias finds does not depend on the order of the returned attributes |
| PostgresTypeStores.UnmatchedIgnoresOrder | src/Warehouse.PostgreSQL/PostgresTypeStore.cs:68-69 | the first unmatched attribute does not depend on that order either |
| PostgresTypeStores.MergeIgnoresOrder | src/Warehouse.PostgreSQL/PostgresTypeStore.cs:68-69 | matching is by alias, not by position: reordering the returned attributes changes neither the merge outcome nor any assigned key |
| PostgresTypeStores.AssignKeys | src/Warehouse.PostgreSQL/PostgresTypeStore.cs:68-69 | the foreach gives each attribute, in order, the key of the first returned attribute with its alias; it stops with `MergeOf`'s exception and leaves the later attributes as they were |
| PostgresTypeStores.TextValue | src/Warehouse.PostgreSQL/PostgresTypeStore.cs:119 | the parameter value of a string that may be null: the text, or null (definition only) |
| PostgresTypeStores.Fetched | src/Warehouse.PostgreSQL/PostgresTypeStore.cs:117-122 | what one command on a new builder binds to (definition only): the builder's error, else the server's error, else `Build` of the server's rows; `Read` is proved equal to it |
| PostgresTypeStores.ConnectionError | src/Warehouse.Database/DatabaseConnector.cs:67-76 | what `CreateConnectionAsync()` throws (definition only): the driver's creation error, else its open error |
| PostgresTypeStores.OneMoreTracked | src/Warehouse.Database/DatabaseConnector.cs:71 | the connector tracks one connection more, after the earlier ones, which are kept (definition only) |
| PostgresTypeStores.FailedOpenTracked | src/Warehouse.Database/DatabaseConnector.cs:69-73 | after a failing `CreateConnectionAsync()`: nothing new when creation fails; otherwise the new connection stays tracked, closed and undisposed (definition only) |
| PostgresTypeStores.PostgresTypeStore.constructor | src/Warehouse.Stores/TypeStoreBase.cs:73-74 | the connector, describer, server and codec are stored |
| PostgresTypeStores.PostgresTypeStore.New | src/Warehouse.Stores/TypeStoreBase.cs:70-71 | a null connector, then a null describer, throws; otherwise a fresh store |
| PostgresTypeStores.PostgresTypeStore.Read | src/Warehouse.PostgreSQL/PostgresTypeStore.cs:117-122 | one command on a connection: the builder's checks, the server's result set for exactly that command, then `Build` |
| PostgresTypeStores.PostgresTypeStore.CreateOn | src/Warehouse.PostgreSQL/PostgresTypeStore.cs:47-76 | the try block: a failure before the key is written leaves the type untouched; a null result is a null dereference; otherwise the type key is the returned key and the attributes' keys follow `MergeOf`, partially on a missing alias |
| PostgresTypeStores.PostgresTypeStore.Create | src/Warehouse.PostgreSQL/PostgresTypeStore.cs:40-77 | a null type, then a non-zero key, throws before any connection exists; a connection failure propagates; otherwise the try block's result on one new open connection, which is disposed afterwards; a rejected key, a throwing command and a null bound type leave every attribute key as it was; the earlier tracked connections are kept, and a failed open leaves the new one tracked, closed and undisposed |
| PostgresTypeStores.PostgresTypeStore.Update | src/Warehouse.PostgreSQL/PostgresTypeStore.cs:215-247 | a null type, then key zero, is rejected; the caller's type is never changed; success unless the command throws; the earlier tracked connections are kept and the new one stays tracked, open and undisposed (no `using`); a failed open leaves it tracked, closed and undisposed |
| PostgresTypeStores.PostgresTypeStore.Delete | src/Warehouse.PostgreSQL/PostgresTypeStore.cs:84-101 | the text command with the key parameter; success whatever the affected-row count; any exception becomes a failed result; the earlier tracked connections are kept and the new one stays tracked, open and undisposed (no `using`); a failed open leaves it tracked, closed and undisposed |
| PostgresTypeStores.PostgresTypeStore.Find | src/Warehouse.PostgreSQL/PostgresTypeStore.cs:113-129 | the shape shared by the lookups: a connection failure propagates; the bound value, even null, is a success; any exception becomes a failed result carrying it; the earlier tracked connections are kept and the new one stays tracked, open and undisposed (no `using`); a failed open leaves it tracked, closed and undisposed |
| PostgresTypeStores.PostgresTypeStore.FindByAlias | src/Warehouse.PostgreSQL/PostgresTypeStore.cs:111-130 | the lookup by the alias parameter, with `Find`'s result wrapping and connection frame |
| PostgresTypeStores.PostgresTypeStore.FindByClass | src/Warehouse.PostgreSQL/PostgresTypeStore.cs:140-157 | the lookup by the class parameter, with `Find`'s result wrapping and connection frame |
| PostgresTypeStores.PostgresTypeStore.FindById | src/Warehouse.PostgreSQL/PostgresTypeStore.cs:167-184 | the lookup by the entity-type id parameter, with `Find`'s result wrapping and connection frame |
| PostgresTypeStores.PostgresTypeStore.GetAll | src/Warehouse.PostgreSQL/PostgresTypeStore.cs:191-207 | every type, with no parameter, with `Find`'s result wrapping and connection frame |

## Left out

- Asynchronous execution, cancellation tokens and logging. Every operation runs sequentially.
- `WarehouseManager.NewAsync` is left out. It only calls `Activator.CreateInstance`.
- `CopyTo` of both collections is left out. It copies into a caller's array, which the model has no counterpart for.
- Null items are not modelled:
  - passing a null attribute to `AttributeCollection.Add`;
  - passing a null array to the `WarehouseDictionary` constructor.
- Attributes.AttributeCollection.Add: the alias invariant assumes aliases are not changed after insertion. The source's `Alias` has a public setter.
- Dictionaries.WarehouseDictionary.FromArray: wraps a copy of the values, so aliasing between the caller's array and the dictionary is not modelled.
- DataReaders.ReadString: a `DBNull` cell (where `GetString` throws an invalid-cast exception) is not modelled. Every row holds text.
- `RunAsync<T>` is not modelled. Its `Convert.ChangeType` is a foreign conversion.
- The database server, the drivers, the JSON serializer and deserializers, the validators and the store replies are parameters of the model. They are deterministic functions of the command they receive.
- Types are simplified:
  - keys are `Option` values of an arbitrary type or `int`, so the 16-bit width of `short` keys is not modelled;
  - a value-type key is never null in C#, which corresponds to the `Some` case here.
- The default command timeout is taken to be 30 seconds, the ADO.NET default.
- `GetType().Name` in the disposed exceptions is a `typeName` field.
- Validators are called with the subject only. The manager passed as their first argument is left out.
- A validator that returns a null result is not modelled.
- QueryBuilders.DatabaseQueryBuilder.AddParameter: the overload that takes a prepared `NpgsqlParameter` (the JSONB `item` parameter of `PostgresTypeStore`) is modelled as an append of that name and value. The provider cast, which can yield null, is not modelled.
- Source drift between interfaces and bases is not reconciled:
  - `ITypeStore` names `FindByTypeAsync` where `TypeStoreBase` declares `FindByClassAsync`; the model follows the base class;
  - `IEntityStore` lacks members that `EntityStore` and `WarehouseManager` use; the model follows `EntityStore`.
- DictionaryManagers.DictionaryManager.constructor: the class declares no constructor and never assigns `Store`; the model takes the store as a constructor argument.
  - Its `Options` and `ErrorDescriber` are never assigned either, and are left out.
- The null-connection test of the query builder expects an argument-null exception. The code dereferences the connection, and the model follows the code: a null-reference exception.
- PostgresTypeStores.PostgresTypeStore.New: the store is standalone.
  - Its `Dispose` and `ThrowIfDisposed` are `TypeStoreBase`'s and are modelled there.
  - Its results are the decoded records, not `WarehouseType` objects.
- PostgresTypeStores.PostgresTypeStore.Create: requires the collection's alias invariant.
  - `AttributeCollection.Add` maintains it.
  - It makes the attributes distinct objects, which the in-place key write relies on.
- DatabaseConnections.Connection.Dispose: a disposed connection keeps its state, as the repository's test connection does. Real providers close the connection when it is disposed, and the model does not capture that. So `DatabaseConnector.Dispose` keeping each connection's state, and `PostgresTypeStore.Create` ending with a connection that is open and disposed, hold of the test connection only.
- Records.WarehouseType.constructor: `WarehouseType<TKey>` in src/Warehouse/WarehouseType.cs has no `Attributes` property and a `protected` key setter. The model's settable key and attribute collection follow how `PostgresTypeStore` uses the type (lines 43, 66 and 68-69 of src/Warehouse.PostgreSQL/PostgresTypeStore.cs). That file does not compile against the class as given.
- More source drift in `PostgresTypeStore`:
  - it overrides `CreateAsync` and `UpdateAsync`, which `TypeStoreBase` does not declare;
  - it calls `ExecuteAsync(cancellationToken)`, but `DatabaseQueryBuilder` only has overloads with no parameters;
  - the model reads these calls as the reader overload `ExecuteAsync()` followed by `Build`, which is what the other operations of the file do, and drops the token.
- PostgresTypeStores.TextValue: a C# `null` parameter value and `DBNull.Value` are both modelled as SQL NULL. ADO.NET providers treat an unset (`null`) value differently from `DBNull.Value`, and that difference is not modelled.
- The null-command-text test of the query builder expects an argument-null exception. The constructor does not check its command text, and the model follows the code: the text is stored as given, null included.
- The schema builders, dependency-injection wiring, reflection attributes and the SQL Server connector are left out. They are I/O or metadata.

## Findings

| source | as written | input that shows it | evidently intended | confidence | as-written member | corrected member |
|---|---|---|---|---|---|---|
| src/Warehouse/WarehousePagination.cs:39 | `(Count + Size - 1) / Size` is computed in 32-bit arithmetic and wraps | `count = int.MaxValue`, `size = 2`, `page = 1`, one item: the sum wraps to a negative value, `Pages` is -1073741824, and page 1 is rejected | the ceiling of `Count / Size`, 1073741824 pages, so page 1 is accepted | not executed | Paging.PagesOverflowRejectsFirstPage | Paging.New |
| src/Warehouse.Database/DatabaseQueryBuilder.cs:141-144 | each loop step calls `ReadAsync` and then `Build`, whose `ReadString` (src/Warehouse.Database/DataReader.cs:21) drains every remaining row | two rows "a" and "b": one element is yielded, built from "b" alone, and "a" is lost | one element per row, each bound from its own row | not executed | QueryBuilders.ExecuteSkipsFirstRow | QueryBuilders.ExecutePerRowIsOnePerRow |
