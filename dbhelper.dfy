/** The database-engine capability the copier consumes (src/DbHelper.php).
    The table listing and the row counts are answers of the read database,
    taken as given; the command builders are uninterpreted functions to the copier. */
module DbHelper {

  datatype DbHelper = DbHelper(
    tables: seq<string>,
    rowCount: string -> nat,
    createDatabaseCommand: string,
    copySchemaCommand: string -> string,
    copyChunkedDataCommand: (string, int, int) -> string,
    copyDataCommand: string -> string,
    copyTriggersCommand: string -> string)
}
