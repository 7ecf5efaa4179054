/** The exceptions the modelled code can end with: Python's built-in ones and the
    repository's own. Warnings are not exceptions here; operations that warn return them. */
module Errors {
  datatype Error =
    | SQLException
    | IntegrityError
    | ProgrammingError
    | TypeError
    | IndexError
    | ValueError
    | KeyError
    | AttributeError
    | ZeroDivisionError
    | TableNotExist(table: string)
    | ColumnNameAlreadyExist(table: string, column: string)
    | AlterActionNotExist(action: string)
    | ColumnNameTypeNotNumber(column: string)
    | RSNotInstantiated
}
