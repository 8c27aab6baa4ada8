/**
 * The partitioner for SQL engines that store datetimes as strings
 * (`PartitionerConvertedDateTime` in sqlite_datasource.py).
 *
 * A partitioner has a column name and a strftime-style format string; the
 * format string is free text, so nothing about it is checked here, just as the
 * source defers its validation to conversion time.
 */
module ConvertedDateTimePartitioner {
  import opened Wrappers

  /** The only value the `method_name` field may hold. */
  const MethodNameLiteral: string := "partition_on_converted_datetime"

  /** The single batch parameter this partitioner understands. */
  const DatetimeParam: string := "datetime"

  /** Keys of the keyword arguments handed to the partitioning method. */
  const ColumnNameKey: string := "column_name"
  const DateFormatStringKey: string := "date_format_string"

  /** The message of the ValueError raised when the datetime option is missing. */
  const MissingDatetimeMessage: string :=
    "'datetime' must be specified in the batch request options to create a batch identifier"

  datatype Error =
    | ValueError(message: string)
      /** A `method_name` other than the literal the field is typed with. */
    | LiteralMismatch(field: string, given: string)

  /** The partitioner's fields. */
  datatype Partitioner = Partitioner(
    date_format_string: string,
    column_name: string,
    method_name: string)

  /** A partitioner whose `method_name` holds the one value its literal type admits. */
  type DateTimePartitioner = p: Partitioner | p.method_name == MethodNameLiteral
    witness Partitioner("", "", MethodNameLiteral)

  /**
   * Builds a partitioner from its fields. `method_name` is typed as a one-value
   * literal with that value as its default: leaving it out picks the default,
   * and any other value is refused.
   */
  function Make(column_name: string, date_format_string: string, method_name: Option<string>)
    : (r: Result<DateTimePartitioner, Error>)
    ensures r.Ok? <==> (method_name.None? || method_name.value == MethodNameLiteral)
    ensures r.Ok? ==>
              && r.value.column_name == column_name
              && r.value.date_format_string == date_format_string
              && r.value.method_name == MethodNameLiteral
    ensures r.Err? ==> r.error == LiteralMismatch("method_name", method_name.value)
  {
    match method_name
    case None => Ok(Partitioner(date_format_string, column_name, MethodNameLiteral))
    case Some(m) =>
      if m == MethodNameLiteral then Ok(Partitioner(date_format_string, column_name, m))
      else Err(LiteralMismatch("method_name", m))
  }

  /** The names of the batch parameters: the datetime string, in the partitioner's format. */
  function ParamNames(p: DateTimePartitioner): (names: seq<string>)
    ensures |names| == 1 && names[0] == DatetimeParam
  {
    [DatetimeParam]
  }

  /** Keyword arguments for the partitioning method, taken from the two fields. */
  function PartitionerMethodKwargs(p: DateTimePartitioner): (kwargs: map<string, string>)
    ensures kwargs.Keys == {ColumnNameKey, DateFormatStringKey}
    ensures kwargs[ColumnNameKey] == p.column_name
    ensures kwargs[DateFormatStringKey] == p.date_format_string
  {
    map[ColumnNameKey := p.column_name, DateFormatStringKey := p.date_format_string]
  }

  /**
   * Turns batch-request options into the batch spec's identifier map: the
   * partitioner's column bound to the datetime option. Fails when the options
   * carry no datetime.
   */
  function BatchRequestOptionsToBatchSpecKwargIdentifiers<V>(p: DateTimePartitioner, options: map<string, V>)
    : (r: Result<map<string, V>, Error>)
    ensures r.Err? <==> DatetimeParam !in options
    ensures r.Err? ==> r.error == ValueError(MissingDatetimeMessage)
    ensures r.Ok? ==>
              && r.value.Keys == {p.column_name}
              && r.value[p.column_name] == options[DatetimeParam]
  {
    if DatetimeParam !in options then Err(ValueError(MissingDatetimeMessage))
    else Ok(map[p.column_name := options[DatetimeParam]])
  }

  /** The identifiers succeed exactly when every declared parameter name is among the options. */
  lemma IdentifiersNeedExactlyParamNames<V>(p: DateTimePartitioner, options: map<string, V>)
    ensures BatchRequestOptionsToBatchSpecKwargIdentifiers(p, options).Ok?
            <==> (forall i :: 0 <= i < |ParamNames(p)| ==> ParamNames(p)[i] in options)
  {
    var names := ParamNames(p);
    if DatetimeParam in options {
      assert forall i :: 0 <= i < |names| ==> names[i] in options;
    } else {
      assert names[0] !in options;
    }
  }

  /** The identifier map is keyed by the same column the partitioning method is told about. */
  lemma IdentifierKeyIsKwargsColumn<V>(p: DateTimePartitioner, options: map<string, V>)
    requires DatetimeParam in options
    ensures BatchRequestOptionsToBatchSpecKwargIdentifiers(p, options).Ok?
    ensures BatchRequestOptionsToBatchSpecKwargIdentifiers(p, options).value.Keys
            == {PartitionerMethodKwargs(p)[ColumnNameKey]}
  {
  }

  /**
   * Only the datetime option matters: options that agree on it give the same
   * identifiers, whatever else they hold. No other option is copied.
   */
  lemma IdentifiersIgnoreOtherOptions<V>(p: DateTimePartitioner, o1: map<string, V>, o2: map<string, V>)
    requires (DatetimeParam in o1) == (DatetimeParam in o2)
    requires DatetimeParam in o1 ==> o1[DatetimeParam] == o2[DatetimeParam]
    ensures BatchRequestOptionsToBatchSpecKwargIdentifiers(p, o1)
            == BatchRequestOptionsToBatchSpecKwargIdentifiers(p, o2)
  {
  }

  /** The keyword arguments determine the fields they were built from. */
  lemma KwargsDetermineFields(p: DateTimePartitioner, q: DateTimePartitioner)
    requires PartitionerMethodKwargs(p) == PartitionerMethodKwargs(q)
    ensures p.column_name == q.column_name && p.date_format_string == q.date_format_string
  {
  }
}
