# SQLite fluent datasource: partitioner, DSN schemes and asset overrides

This project models the SQLite-specific part of the fluent datasource in
`great_expectations/datasource/fluent/sqlite_datasource.py`. It covers three
pieces:

- **`PartitionerConvertedDateTime`**, the partitioner for engines that store
  datetimes as strings (module `ConvertedDateTimePartitioner`). It has a
  column name, a date format string and the fixed method name
  `partition_on_converted_datetime`. It names its single batch parameter
  `datetime`. It hands the partitioning method its two fields as keyword
  arguments. It turns batch-request options into the batch spec's identifier
  map `{column_name: options["datetime"]}` and fails with a `ValueError` when
  the options have no `datetime`. The options are a `map<string, V>`, where
  `V` is any value type, and the raised error is a `Result`. The subset type
  `DateTimePartitioner` admits only partitioners whose `method_name` is the
  literal. `Make` returns that type, and every operation takes it.
- **`SqliteDsn`** (module `SqliteDsn`) accepts a connection string only when
  its scheme, lower-cased, is one of `sqlite`, `sqlite+pysqlite`,
  `sqlite+aiosqlite` or `sqlite+pysqlcipher`. The lower-casing comes from the
  URL base class, which lower-cases the scheme before it tests membership, so
  `SQLite:///x.db` is accepted too. The URL does not need a host. Scheme names
  follow SQLAlchemy's `dialect+driver` convention. `Dialect`, `Driver` and
  `Compose` split and build scheme names that way. These functions give an
  independent description of the accepted set: the `sqlite` dialect with no
  driver, or with one of three drivers.
- **`SqliteTableAsset` and `SqliteQueryAsset`** (module `SqliteAssets`) are
  classes with a mutable partitioner-implementation map. Each constructor
  receives the map that the generic asset's initialiser built. It then updates
  that map in place so that the `PartitionerConvertedDatetime` key points at
  `SqlitePartitionerConvertedDateTime`, and leaves every other entry alone.
  Each asset's `type` tag is fixed: `"table"` for table assets and `"query"`
  for query assets.

## Model

| member | source | states |
|---|---|---|
| `ConvertedDateTimePartitioner.Make` | great_expectations/datasource/fluent/sqlite_datasource.py:68-70 | A partitioner is built exactly when `method_name` is left out or equals `partition_on_converted_datetime`. The built partitioner keeps the given column name and format string and always has the literal method name. Any other method name is refused. |
| `ConvertedDateTimePartitioner.ParamNames` | great_expectations/datasource/fluent/sqlite_datasource.py:72-77 | The parameter names are exactly one name, `datetime`. |
| `ConvertedDateTimePartitioner.IdentifiersNeedExactlyParamNames` | great_expectations/datasource/fluent/sqlite_datasource.py:72-94 | Building identifiers succeeds if and only if every declared parameter name is a key of the options. |
| `ConvertedDateTimePartitioner.PartitionerMethodKwargs` | great_expectations/datasource/fluent/sqlite_datasource.py:79-84 | The keyword arguments have exactly the keys `column_name` and `date_format_string`, bound to the partitioner's two fields. |
| `ConvertedDateTimePartitioner.KwargsDetermineFields` | great_expectations/datasource/fluent/sqlite_datasource.py:79-84 | Two partitioners with equal keyword arguments have equal column names and format strings, so nothing is lost. |
| `ConvertedDateTimePartitioner.BatchRequestOptionsToBatchSpecKwargIdentifiers` | great_expectations/datasource/fluent/sqlite_datasource.py:86-94 | The result is a `ValueError` with the source's message if and only if `datetime` is not an option key. Otherwise it is a one-entry map from the column name to the `datetime` option. |
| `ConvertedDateTimePartitioner.IdentifierKeyIsKwargsColumn` | great_expectations/datasource/fluent/sqlite_datasource.py:79-94 | When `datetime` is given, the identifier map's only key is the `column_name` that the keyword arguments pass to the partitioning method. |
| `ConvertedDateTimePartitioner.IdentifiersIgnoreOtherOptions` | great_expectations/datasource/fluent/sqlite_datasource.py:86-94 | Option maps that agree on `datetime` give the same result. No other option is copied or consulted. |
| `SqliteDsn.CheckSchemeAndHost` | great_expectations/datasource/fluent/sqlite_datasource.py:97-104 | A URL passes if and only if its lower-cased scheme is one of the four allowed schemes. A refusal lists the allowed set. |
| `SqliteDsn.CheckIgnoresCase` | great_expectations/datasource/fluent/sqlite_datasource.py:97-103 | The verdict for a scheme is the same as for its lower-cased form. |
| `SqliteDsn.MixedCaseSchemeAccepted` | great_expectations/datasource/fluent/sqlite_datasource.py:97-103 | The mixed-case scheme `SQLite` is accepted. |
| `SqliteDsn.HostNeverRequired` | great_expectations/datasource/fluent/sqlite_datasource.py:104 | Whether a host is present never changes the verdict. |
| `SqliteDsn.SplitCompose` | great_expectations/datasource/fluent/sqlite_datasource.py:98-103 | Splitting a `dialect+driver` scheme gives back the dialect and driver it was built from. |
| `SqliteDsn.SchemeAcceptedIffSqliteDialect` | great_expectations/datasource/fluent/sqlite_datasource.py:98-103 | A scheme is accepted if and only if, lower-cased, its dialect is `sqlite` and its driver is none, `pysqlite`, `aiosqlite` or `pysqlcipher`. |
| `SqliteAssets.WithSqlitePartitioner` | great_expectations/datasource/fluent/sqlite_datasource.py:110-113 | After the override, the keys are the old keys plus `PartitionerConvertedDatetime`. That key maps to `SqlitePartitionerConvertedDateTime`, and every other entry is unchanged. |
| `SqliteAssets.WithSqlitePartitionerIdempotent` | great_expectations/datasource/fluent/sqlite_datasource.py:110-113 | Applying the override twice gives the same map as applying it once. |
| `SqliteAssets.WithSqlitePartitionerIgnoresInheritedEntry` | great_expectations/datasource/fluent/sqlite_datasource.py:110-113 | Inherited maps that differ only at `PartitionerConvertedDatetime` give the same map after the override. |
| `SqliteAssets.SqliteTableAsset.constructor` | great_expectations/datasource/fluent/sqlite_datasource.py:107-115 | A new table asset has type `"table"`. Its partitioner map is the inherited map with the override applied. |
| `SqliteAssets.SqliteTableAsset.UseSqlitePartitioner` | great_expectations/datasource/fluent/sqlite_datasource.py:110-113 | Updates the asset's map in place: the new map is the old map with the override applied, and no other field changes. |
| `SqliteAssets.SqliteQueryAsset.constructor` | great_expectations/datasource/fluent/sqlite_datasource.py:118-126 | A new query asset has type `"query"`. Its partitioner map is the inherited map with the override applied. |
| `SqliteAssets.SqliteQueryAsset.UseSqlitePartitioner` | great_expectations/datasource/fluent/sqlite_datasource.py:121-124 | Updates the asset's map in place: the new map is the old map with the override applied, and no other field changes. |
| `SqliteAssets.BuildBothAssets` | great_expectations/datasource/fluent/sqlite_datasource.py:107-126 | A table asset and a query asset built from the same inherited map end with the same partitioner map, the inherited map with the SQLite override applied. Their type tags are `"table"` and `"query"`. |

## Left out

- `SqliteDatasource._create_engine` (lines 159-176) is left out. It performs config substitution, pydantic serialisation and a call into SQLAlchemy's engine factory with a static connection pool. These are foreign calls with no local logic.
- `SqliteDatasource.add_table_asset` and `add_query_asset` (lines 178-217) are left out. They only narrow the type of what the generic SQL datasource returns.
- The class-level settings of `SqliteDatasource` (lines 143-157) are left out: its `type` tag `"sqlite"`, its list of asset types, its pool class and its asset factories. They only register the classes above with the generic framework.
- The generic SQL datasource, its `TableAsset`/`QueryAsset` initialisers and its partitioner classes are not part of this model. The asset constructors take the map that the generic initialiser built as a parameter. The partitioner classes are opaque references told apart by name.
- `SqliteDsn.CheckSchemeAndHost` receives a URL that has already been split. Parsing a URL belongs to the URL library and is not modelled. The check lower-cases the scheme before the membership test, as the URL base class does.
- `SqliteDsn.Lower` folds only the ASCII letters `A`-`Z`. Python's `str.lower` also folds non-ASCII letters, so for a scheme containing such letters the model can give a different verdict than the program. Unicode case mapping is not modelled.
- `ConvertedDateTimePartitioner.Make` stands for the field validation that the pydantic model base performs. Only the literal-typed `method_name` field is checked. The format string is free text, and the source checks it only at conversion time.
- `tests/integration/cloud/rest_contracts/test_datasource.py` is left out. It is an HTTP contract test against a remote endpoint and has no local logic.
