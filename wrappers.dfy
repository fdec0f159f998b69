// Option, the error values the library throws, and a Result datatype that
// carries them. Every `throw new Error(...)` of the library becomes an `Err`.

module Wrappers {

  datatype Option<T> = None | Some(value: T)

  /** The errors the library raises, one variant per message. `TypeError`
      stands for a JavaScript runtime failure (a method call on `null` or
      `undefined`) that the library does not guard against. */
  datatype Error =
    | MissingDialect
    | MissingName
    | MissingColumnName
    | UnknownColumnType(typeName: string)
    | UnknownOperator(operator: string)
    | UnknownFormatter(formatter: string)
    | InvalidConstraintTemplate(constraint: string)
    | MissingConstraintType
    | DuplicateCte(cte: string)
    | EmptyFrom
    | MissingClause(statement: string, clause: string)
    | CreateTableMissing(what: string)
    | InvalidLockMode(vendor: string, mode: string)
    | UnsupportedStatement(statementName: string)
    | TypeError(reason: string)
  {
    /** The text of the thrown `Error`. */
    function Message(): string
    {
      match this
      case MissingDialect => "Missing SQL dialect adapter."
      case MissingName => "Missing name argument."
      case MissingColumnName => "Missing column name."
      case UnknownColumnType(t) => "Column type `'" + t + "'` does not exist."
      case UnknownOperator(op) => "Unexisting operator `'" + op + "'`."
      case UnknownFormatter(f) => "Unexisting formatter `'" + f + "'`."
      case InvalidConstraintTemplate(n) => "Invalid constraint template `'" + n + "'`."
      case MissingConstraintType => "Missing contraint type."
      case DuplicateCte(n) => "Common table expression " + n + " specified more than once"
      case EmptyFrom => "A `FROM` clause requires a non empty table."
      case MissingClause(s, c) => "Invalid `" + s + "` statement, missing `" + c + "` clause."
      case CreateTableMissing(w) => "Invalid `CREATE TABLE` statement missing " + w + "."
      case InvalidLockMode(v, m) => "Invalid " + v + " lock mode `'" + m + "'`."
      case UnsupportedStatement(n) => "Unsupported statement `'" + n + "'`."
      case TypeError(r) => "TypeError: " + r
    }
  }

  datatype Result<T> = Ok(value: T) | Err(error: Error)
  {
    predicate IsFailure() { Err? }

    function PropagateFailure<U>(): Result<U>
      requires Err?
    {
      Err(error)
    }

    function Extract(): T
      requires Ok?
    {
      value
    }
  }
}
