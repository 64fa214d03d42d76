/** `ConnectionExtensions`: the two shorthands for starting a query on a connection. */
module ConnectionExtensions {
  import opened Wrappers
  import opened DatabaseConnections
  import opened QueryBuilders

  /**
   * `connection.Query(text, type)`: a new builder with the text verbatim, the
   * given command type (Text by default) and no parameters.
   */
  method Query(connection: Connection?, commandText: Option<string>, commandType: CommandType := Text)
    returns (r: Outcome<DatabaseQueryBuilder>)
    ensures BuilderError(connection).Some? ==> r == Throw(BuilderError(connection).value)
    ensures BuilderError(connection).None? ==>
      && r.Return? && fresh(r.value) && fresh(r.value.command) && r.value.connection == connection
      && r.value.command.commandText == commandText && r.value.command.commandType == commandType
      && r.value.command.parameters == []
  {
    r := DatabaseQueryBuilder.New(connection, commandText, commandType);
  }

  /** `connection.StoredProcedure(text)`: the same, with the command type always StoredProcedure. */
  method StoredProcedure(connection: Connection?, commandText: Option<string>)
    returns (r: Outcome<DatabaseQueryBuilder>)
    ensures BuilderError(connection).Some? ==> r == Throw(BuilderError(connection).value)
    ensures BuilderError(connection).None? ==>
      && r.Return? && fresh(r.value) && fresh(r.value.command) && r.value.connection == connection
      && r.value.command.commandText == commandText && r.value.command.commandType == CommandType.StoredProcedure
      && r.value.command.parameters == []
  {
    r := DatabaseQueryBuilder.New(connection, commandText, CommandType.StoredProcedure);
  }
}
