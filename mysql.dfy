/** The MySQL command source of src/Helpers/MySql.php: shell pipelines built by
    string interpolation over a read and a write configuration.  Database
    access (the table listing, row counts, character set and collation) is
    not modelled here: those answers are parameters. */
module MySql {
  import opened Config
  import DbHelper

  // ---------------------------------------------------------------------
  // Decimal rendering of integers, as PHP interpolates an int into a string
  // ---------------------------------------------------------------------

  predicate IsDigit(c: char) {
    '0' <= c <= '9'
  }

  predicate IsDigits(s: string) {
    forall i | 0 <= i < |s| :: IsDigit(s[i])
  }

  function DigitChar(d: nat): (c: char)
    requires d < 10
    ensures IsDigit(c) && c as int - '0' as int == d
  {
    (48 + d) as char
  }

  /** The decimal digits of n, most significant first, without leading zeros. */
  function NatToString(n: nat): (s: string)
    ensures |s| >= 1 && IsDigits(s)
    ensures s[0] == '0' ==> n == 0
    decreases n
  {
    if n < 10 then [DigitChar(n)] else NatToString(n / 10) + [DigitChar(n % 10)]
  }

  /** The value of a string of decimal digits. */
  function ParseNat(s: string): nat
    requires IsDigits(s)
    decreases |s|
  {
    if s == [] then 0 else ParseNat(s[..|s| - 1]) * 10 + (s[|s| - 1] as int - '0' as int)
  }

  /** PHP's rendering of an int: a minus sign for negative values. */
  function IntToString(i: int): (s: string)
    ensures |s| >= 1 && forall k | 0 <= k < |s| :: s[k] != ' ' && s[k] != '\''
  {
    if i < 0 then "-" + NatToString(-i) else NatToString(i)
  }

  function ParseInt(s: string): int
    requires s != [] && (s[0] == '-' ==> IsDigits(s[1..])) && (s[0] != '-' ==> IsDigits(s))
  {
    if s[0] == '-' then -(ParseNat(s[1..]) as int) else ParseNat(s)
  }

  /** Reading the rendered digits back gives the number. */
  lemma {:induction false} ParseNatToString(n: nat)
    ensures ParseNat(NatToString(n)) == n
    decreases n
  {
    if n >= 10 {
      var s := NatToString(n);
      ParseNatToString(n / 10);
      assert s[..|s| - 1] == NatToString(n / 10);
    }
  }

  lemma ParseIntToString(i: int)
    ensures var s := IntToString(i); s != [] && (s[0] == '-' ==> IsDigits(s[1..])) && (s[0] != '-' ==> IsDigits(s))
    ensures ParseInt(IntToString(i)) == i
  {
    if i < 0 {
      ParseNatToString(-i);
      assert IntToString(i)[1..] == NatToString(-i);
    } else {
      ParseNatToString(i);
    }
  }

  /** Distinct integers are rendered as distinct strings. */
  lemma IntToStringInjective(i: int, j: int)
    requires IntToString(i) == IntToString(j)
    ensures i == j
  {
    ParseIntToString(i);
    ParseIntToString(j);
  }

  // ---------------------------------------------------------------------
  // Pieces of a command line
  // ---------------------------------------------------------------------

  /** A word wrapped in single quotes, with no escaping of its contents. */
  function Quoted(s: string): string {
    "'" + s + "'"
  }

  const SchemaOptions: string := "--add-drop-table --create-options --set-charset --compress --skip-triggers --no-data"

  /** The dump options shared by the full and the chunked data copy. */
  const TransferOptions: string := "--single-transaction --extended-insert --disable-keys --quick --no-create-info --compress --set-gtid-purged=OFF"

  const DataOptions: string := "--add-locks " + TransferOptions

  const TriggerOptions: string := "--compress --no-data --no-create-info --triggers"

  /** The sed stage that drops every DEFINER=`user`@`host` clause. */
  const StripDefiner: string := "sed 's/\\sDEFINER=`[^`]*`@`[^`]*`//g'"

  /** The row window of one chunk, as a mysqldump `--where` option. */
  function WhereClause(limit: int, offset: int): string {
    "--where='1 limit " + IntToString(limit) + " offset " + IntToString(offset) + "'"
  }

  // ---------------------------------------------------------------------
  // The command builders
  // ---------------------------------------------------------------------

  /** The connection flags of a configuration: port, host, user, and the
      password in single quotes. */
  function GetConnectionString(c: Config): string {
    "--port=" + IntToString(c.port) + " --host=" + c.host + " --user=" + c.username + " --password='" + c.password + "'"
  }

  /** The SQL statement that creates the write database when it is missing. */
  function CreateDatabaseStatement(database: string, characterSet: string, collation: string): string {
    "CREATE DATABASE IF NOT EXISTS `" + database + "` CHARACTER SET " + characterSet + " COLLATE " + collation + ";"
  }

  /** Create the write database, with the read database's character set and collation. */
  function CreateDatabaseCommand(write: Config, characterSet: string, collation: string): string {
    "mysql " + GetConnectionString(write) + " -e " + Quoted(CreateDatabaseStatement(write.database, characterSet, collation))
  }

  /** Copy a table's definition. */
  function CreateCopySchemaCommand(read: Config, write: Config, table: string): string {
    "mysqldump " + GetConnectionString(read) + " " + SchemaOptions + " " + read.database + " " + "'" + table + "'" +
      " | " + "mysql " + GetConnectionString(write) + " " + write.database
  }

  /** Copy one window of a table's rows. */
  function CreateCopyChunkedDataCommand(read: Config, write: Config, table: string, limit: int, offset: int): string {
    "mysqldump " + GetConnectionString(read) + " " + (TransferOptions + " " + WhereClause(limit, offset)) + " " +
      read.database + " " + "'" + table + "'" + " | " + "mysql " + GetConnectionString(write) + " " + write.database
  }

  /** Copy all of a table's rows. */
  function CreateCopyDataCommand(read: Config, write: Config, table: string): string {
    "mysqldump " + GetConnectionString(read) + " " + DataOptions + " " + read.database + " " + "'" + table + "'" +
      " | " + "mysql " + GetConnectionString(write) + " " + write.database
  }

  /** Copy a table's triggers. */
  function CreateCopyTriggersCommand(read: Config, write: Config, table: string): string {
    "mysqldump " + GetConnectionString(read) + " " + TriggerOptions + " " + read.database + " " + "'" + table + "'" +
      (" | " + StripDefiner + " | ") + "mysql " + GetConnectionString(write) + " " + write.database
  }

  // ---------------------------------------------------------------------
  // Properties of the builders
  // ---------------------------------------------------------------------

  /** When two strings agree after a space-free word followed by a space,
      the words agree. */
  lemma SplitAtSpace(a1: string, r1: string, a2: string, r2: string)
    requires forall k | 0 <= k < |a1| :: a1[k] != ' '
    requires forall k | 0 <= k < |a2| :: a2[k] != ' '
    requires |r1| > 0 && r1[0] == ' ' && |r2| > 0 && r2[0] == ' '
    requires a1 + r1 == a2 + r2
    ensures a1 == a2 && r1 == r2
  {
    var s := a1 + r1;
    assert forall j | 0 <= j < |a1| :: s[j] != ' ';
    assert forall j | 0 <= j < |a2| :: s[j] != ' ';
    assert s[|a1|] == ' ' && s[|a2|] == ' ';
    assert a1 == s[..|a1|] == a2;
    assert r1 == s[|a1|..] == r2;
  }

  /** Two strings that agree outside one middle part agree in the middle. */
  lemma MiddleDetermined(x: string, w1: string, w2: string, y: string)
    requires x + w1 + y == x + w2 + y
    ensures w1 == w2
  {
    var s1, s2 := x + w1 + y, x + w2 + y;
    assert w1 == s1[|x|..|x| + |w1|];
    assert w2 == s2[|x|..|x| + |w2|];
  }

  /** Two windows agree when their space-free numbers, separated by a word
      starting with a space, agree. */
  lemma WindowSplit(p: string, a1: string, m: string, b1: string, q: string, a2: string, b2: string)
    requires forall k | 0 <= k < |a1| :: a1[k] != ' '
    requires forall k | 0 <= k < |a2| :: a2[k] != ' '
    requires |m| > 0 && m[0] == ' '
    requires p + a1 + m + b1 + q == p + a2 + m + b2 + q
    ensures a1 == a2 && b1 == b2
  {
    assert p + (a1 + m + b1) + q == p + a1 + m + b1 + q;
    assert p + (a2 + m + b2) + q == p + a2 + m + b2 + q;
    MiddleDetermined(p, a1 + m + b1, a2 + m + b2, q);
    assert a1 + (m + b1) == a1 + m + b1;
    assert a2 + (m + b2) == a2 + m + b2;
    assert (m + b1)[0] == ' ' && (m + b2)[0] == ' ';
    SplitAtSpace(a1, m + b1, a2, m + b2);
    MiddleDetermined(m, b1, b2, []);
  }

  /** Different row windows give different `--where` options. */
  lemma WhereClauseInjective(limit1: int, offset1: int, limit2: int, offset2: int)
    requires WhereClause(limit1, offset1) == WhereClause(limit2, offset2)
    ensures limit1 == limit2 && offset1 == offset2
  {
    var m := " offset ";
    assert m[0] == ' ';
    WindowSplit("--where='1 limit ", IntToString(limit1), m, IntToString(offset1), "'",
                IntToString(limit2), IntToString(offset2));
    IntToStringInjective(limit1, limit2);
    IntToStringInjective(offset1, offset2);
  }

  /** Moves the row window of a chunked pipeline into the middle. */
  lemma WindowRegroup(m: string, c: string, sp: string, o: string, w: string, d: string, q: string, t: string,
                      bar: string, my: string, c2: string, e: string)
    ensures m + c + sp + (o + sp + w) + sp + d + sp + q + t + q + bar + my + c2 + sp + e
         == (m + c + sp + o + sp) + w + (sp + d + sp + q + t + q + bar + my + c2 + sp + e)
  {
  }

  /** Distinct chunks of one table get distinct commands: the chunked data
      command determines its limit and offset. */
  lemma ChunkedCommandInjective(read: Config, write: Config, table: string,
                                limit1: int, offset1: int, limit2: int, offset2: int)
    ensures CreateCopyChunkedDataCommand(read, write, table, limit1, offset1)
         == CreateCopyChunkedDataCommand(read, write, table, limit2, offset2)
        ==> limit1 == limit2 && offset1 == offset2
  {
    if CreateCopyChunkedDataCommand(read, write, table, limit1, offset1)
       == CreateCopyChunkedDataCommand(read, write, table, limit2, offset2) {
      ChunkedWindowsEqual(read, write, table, limit1, offset1, limit2, offset2);
    }
  }

  lemma ChunkedWindowsEqual(read: Config, write: Config, table: string,
                            limit1: int, offset1: int, limit2: int, offset2: int)
    requires CreateCopyChunkedDataCommand(read, write, table, limit1, offset1)
          == CreateCopyChunkedDataCommand(read, write, table, limit2, offset2)
    ensures limit1 == limit2 && offset1 == offset2
  {
    var x := "mysqldump " + GetConnectionString(read) + " " + TransferOptions + " ";
    var y := " " + read.database + " " + "'" + table + "'" + " | " + "mysql " + GetConnectionString(write) + " " + write.database;
    var w1, w2 := WhereClause(limit1, offset1), WhereClause(limit2, offset2);
    WindowRegroup("mysqldump ", GetConnectionString(read), " ", TransferOptions, w1, read.database, "'", table,
                  " | ", "mysql ", GetConnectionString(write), write.database);
    WindowRegroup("mysqldump ", GetConnectionString(read), " ", TransferOptions, w2, read.database, "'", table,
                  " | ", "mysql ", GetConnectionString(write), write.database);
    MiddleDetermined(x, w1, w2, y);
    WhereClauseInjective(limit1, offset1, limit2, offset2);
  }

  /** A pipeline with fixed stages determines the table name between its quotes. */
  lemma TableDetermined(c: string, o: string, d: string, mid: string, c2: string, e: string, table1: string, table2: string)
    requires "mysqldump " + c + " " + o + " " + d + " " + "'" + table1 + "'" + mid + "mysql " + c2 + " " + e
          == "mysqldump " + c + " " + o + " " + d + " " + "'" + table2 + "'" + mid + "mysql " + c2 + " " + e
    ensures table1 == table2
  {
    var m, sp, q, my := "mysqldump ", " ", "'", "mysql ";
    assert m + c + sp + o + sp + d + sp + q + table1 + q + mid + my + c2 + sp + e
        == (m + c + sp + o + sp + d + sp + q) + table1 + (q + mid + my + c2 + sp + e);
    assert m + c + sp + o + sp + d + sp + q + table2 + q + mid + my + c2 + sp + e
        == (m + c + sp + o + sp + d + sp + q) + table2 + (q + mid + my + c2 + sp + e);
    MiddleDetermined(m + c + sp + o + sp + d + sp + q, table1, table2, q + mid + my + c2 + sp + e);
  }

  /** The schema, data and triggers commands each determine their table:
      distinct tables give distinct commands. */
  lemma CommandsDetermineTable(read: Config, write: Config, table1: string, table2: string)
    ensures CreateCopySchemaCommand(read, write, table1) == CreateCopySchemaCommand(read, write, table2) ==> table1 == table2
    ensures CreateCopyDataCommand(read, write, table1) == CreateCopyDataCommand(read, write, table2) ==> table1 == table2
    ensures CreateCopyTriggersCommand(read, write, table1) == CreateCopyTriggersCommand(read, write, table2) ==> table1 == table2
  {
    var c, c2 := GetConnectionString(read), GetConnectionString(write);
    if CreateCopySchemaCommand(read, write, table1) == CreateCopySchemaCommand(read, write, table2) {
      TableDetermined(c, SchemaOptions, read.database, " | ", c2, write.database, table1, table2);
    }
    if CreateCopyDataCommand(read, write, table1) == CreateCopyDataCommand(read, write, table2) {
      TableDetermined(c, DataOptions, read.database, " | ", c2, write.database, table1, table2);
    }
    if CreateCopyTriggersCommand(read, write, table1) == CreateCopyTriggersCommand(read, write, table2) {
      TableDetermined(c, TriggerOptions, read.database, " | " + StripDefiner + " | ", c2, write.database, table1, table2);
    }
  }

  // ---------------------------------------------------------------------
  // The commands of the tests' configurations
  // ---------------------------------------------------------------------

  /** The tests' read configuration: it is built without a port, so it gets the default one. */
  const TestRead: Config := Config("127.0.0.1", "test_database", "test_username", "test_password", DefaultPort)

  /** The tests' write configuration. */
  const TestWrite: Config := Config("127.0.0.2", "test_write_database", "test_write_username", "test_write_password", 3307)

  /** The decimal renderings that the tests' configurations and chunk use. */
  lemma RenderedTestNumbers()
    ensures IntToString(3306) == "3306" && IntToString(3307) == "3307"
    ensures IntToString(1000) == "1000" && IntToString(3000) == "3000"
  {
    assert NatToString(3) == "3";
    assert NatToString(33) == "33";
    assert NatToString(330) == "330";
    assert NatToString(1) == "1";
    assert NatToString(10) == "10";
    assert NatToString(100) == "100";
    assert NatToString(30) == "30";
    assert NatToString(300) == "300";
  }

  /** The chunk window of the tests' chunked command. */
  lemma TestWhereClause()
    ensures WhereClause(1000, 3000) == "--where='1 limit 1000 offset 3000'"
  {
    RenderedTestNumbers();
  }

  lemma ReadFlagsHost()
    ensures "--port=" + "3306" + " --host=" + "127.0.0.1" == "--port=3306 --host=127.0.0.1"
  {
  }

  lemma ReadFlagsUser()
    ensures "--port=3306 --host=127.0.0.1" + " --user=" + "test_username" == "--port=3306 --host=127.0.0.1 --user=test_username"
  {
  }

  lemma ReadFlagsPassword()
    ensures "--port=3306 --host=127.0.0.1 --user=test_username" + " --password='" + "test_password" + "'"
         == "--port=3306 --host=127.0.0.1 --user=test_username --password='test_password'"
  {
  }

  lemma WriteFlagsHost()
    ensures "--port=" + "3307" + " --host=" + "127.0.0.2" == "--port=3307 --host=127.0.0.2"
  {
  }

  lemma WriteFlagsUser()
    ensures "--port=3307 --host=127.0.0.2" + " --user=" + "test_write_username"
         == "--port=3307 --host=127.0.0.2 --user=test_write_username"
  {
  }

  lemma WriteFlagsPassword()
    ensures "--port=3307 --host=127.0.0.2 --user=test_write_username" + " --password='" + "test_write_password" + "'"
         == "--port=3307 --host=127.0.0.2 --user=test_write_username --password='test_write_password'"
  {
  }

  /** The connection flags of the tests' configurations, as the tests spell them out. */
  lemma TestConnectionStrings()
    ensures GetConnectionString(TestRead) == "--port=3306 --host=127.0.0.1 --user=test_username --password='test_password'"
    ensures GetConnectionString(TestWrite)
         == "--port=3307 --host=127.0.0.2 --user=test_write_username --password='test_write_password'"
  {
    RenderedTestNumbers();
    ReadFlagsHost();
    ReadFlagsUser();
    ReadFlagsPassword();
    WriteFlagsHost();
    WriteFlagsUser();
    WriteFlagsPassword();
  }

  /** Flattening a parenthesised group of two or three pieces inside a command. */
  lemma Flatten2(x: string, a: string, b: string)
    ensures x + (a + b) == x + a + b
  {
  }

  lemma Flatten3(x: string, a: string, b: string, c: string)
    ensures x + (a + b + c) == x + a + b + c
  {
  }

  /** The create-database command once its pieces are known. */
  lemma CreateDatabaseOf(write: Config, characterSet: string, collation: string, wc: string, wd: string)
    requires GetConnectionString(write) == wc && write.database == wd
    ensures CreateDatabaseCommand(write, characterSet, collation)
         == "mysql " + wc + " -e " + "'" + "CREATE DATABASE IF NOT EXISTS `" + wd + "` CHARACTER SET " + characterSet +
            " COLLATE " + collation + ";" + "'"
  {
    Flatten3("mysql " + wc + " -e ", "'", CreateDatabaseStatement(wd, characterSet, collation), "'");
  }

  /** The schema command once its pieces are known. */
  lemma SchemaCommandOf(read: Config, write: Config, table: string, rc: string, wc: string, rd: string, wd: string, qt: string)
    requires GetConnectionString(read) == rc && GetConnectionString(write) == wc
    requires read.database == rd && write.database == wd && Quoted(table) == qt
    ensures CreateCopySchemaCommand(read, write, table)
         == "mysqldump " + rc + " " + SchemaOptions + " " + rd + " " + qt + " | " + "mysql " + wc + " " + wd
  {
  }

  /** The chunked data command once its pieces are known. */
  lemma ChunkedDataCommandOf(read: Config, write: Config, table: string, limit: int, offset: int,
                             rc: string, wc: string, rd: string, wd: string, qt: string, where: string)
    requires GetConnectionString(read) == rc && GetConnectionString(write) == wc
    requires read.database == rd && write.database == wd && Quoted(table) == qt && WhereClause(limit, offset) == where
    ensures CreateCopyChunkedDataCommand(read, write, table, limit, offset)
         == "mysqldump " + rc + " " + TransferOptions + " " + where + " " + rd + " " + qt + " | " + "mysql " + wc + " " + wd
  {
    Flatten3("mysqldump " + rc + " ", TransferOptions, " ", where);
  }

  /** The full data command once its pieces are known. */
  lemma DataCommandOf(read: Config, write: Config, table: string, rc: string, wc: string, rd: string, wd: string, qt: string)
    requires GetConnectionString(read) == rc && GetConnectionString(write) == wc
    requires read.database == rd && write.database == wd && Quoted(table) == qt
    ensures CreateCopyDataCommand(read, write, table)
         == "mysqldump " + rc + " " + "--add-locks " + TransferOptions + " " + rd + " " + qt + " | " + "mysql " + wc + " " + wd
  {
    Flatten2("mysqldump " + rc + " ", "--add-locks ", TransferOptions);
  }

  /** The triggers command once its pieces are known. */
  lemma TriggersCommandOf(read: Config, write: Config, table: string, rc: string, wc: string, rd: string, wd: string, qt: string)
    requires GetConnectionString(read) == rc && GetConnectionString(write) == wc
    requires read.database == rd && write.database == wd && Quoted(table) == qt
    ensures CreateCopyTriggersCommand(read, write, table)
         == "mysqldump " + rc + " " + TriggerOptions + " " + rd + " " + qt + " | " + StripDefiner + " | " +
            "mysql " + wc + " " + wd
  {
  }

  /** The tests' create-database command: the write server's flags, then the
      creation statement of the write database in single quotes. */
  lemma TestCreateDatabaseCommand()
    ensures CreateDatabaseCommand(TestWrite, "test_character_set", "test_collation")
         == "mysql " + "--port=3307 --host=127.0.0.2 --user=test_write_username --password='test_write_password'" + " -e " +
            "'" + "CREATE DATABASE IF NOT EXISTS `" + "test_write_database" + "` CHARACTER SET " + "test_character_set" +
            " COLLATE " + "test_collation" + ";" + "'"
  {
    TestConnectionStrings();
    CreateDatabaseOf(TestWrite, "test_character_set", "test_collation",
                     "--port=3307 --host=127.0.0.2 --user=test_write_username --password='test_write_password'",
                     "test_write_database");
  }

  /** The tests' schema command. */
  lemma TestSchemaCommand()
    ensures CreateCopySchemaCommand(TestRead, TestWrite, "test_table")
         == "mysqldump " + "--port=3306 --host=127.0.0.1 --user=test_username --password='test_password'" + " " +
            "--add-drop-table --create-options --set-charset --compress --skip-triggers --no-data" + " " +
            "test_database" + " " + "'test_table'" + " | " +
            "mysql " + "--port=3307 --host=127.0.0.2 --user=test_write_username --password='test_write_password'" + " " +
            "test_write_database"
  {
    TestConnectionStrings();
    SchemaCommandOf(TestRead, TestWrite, "test_table",
                    "--port=3306 --host=127.0.0.1 --user=test_username --password='test_password'",
                    "--port=3307 --host=127.0.0.2 --user=test_write_username --password='test_write_password'",
                    "test_database", "test_write_database", "'test_table'");
  }

  /** The tests' chunked data command: rows 3000 to 3999 of the table. */
  lemma TestChunkedDataCommand()
    ensures CreateCopyChunkedDataCommand(TestRead, TestWrite, "test_table", 1000, 3000)
         == "mysqldump " + "--port=3306 --host=127.0.0.1 --user=test_username --password='test_password'" + " " +
            "--single-transaction --extended-insert --disable-keys --quick --no-create-info --compress --set-gtid-purged=OFF" +
            " " + "--where='1 limit 1000 offset 3000'" + " " + "test_database" + " " + "'test_table'" + " | " +
            "mysql " + "--port=3307 --host=127.0.0.2 --user=test_write_username --password='test_write_password'" + " " +
            "test_write_database"
  {
    TestConnectionStrings();
    TestWhereClause();
    ChunkedDataCommandOf(TestRead, TestWrite, "test_table", 1000, 3000,
                         "--port=3306 --host=127.0.0.1 --user=test_username --password='test_password'",
                         "--port=3307 --host=127.0.0.2 --user=test_write_username --password='test_write_password'",
                         "test_database", "test_write_database", "'test_table'", "--where='1 limit 1000 offset 3000'");
  }

  /** The tests' full data command: the chunked command's options with table
      locks in front and no row window. */
  lemma TestDataCommand()
    ensures CreateCopyDataCommand(TestRead, TestWrite, "test_table")
         == "mysqldump " + "--port=3306 --host=127.0.0.1 --user=test_username --password='test_password'" + " " +
            "--add-locks " +
            "--single-transaction --extended-insert --disable-keys --quick --no-create-info --compress --set-gtid-purged=OFF" +
            " " + "test_database" + " " + "'test_table'" + " | " +
            "mysql " + "--port=3307 --host=127.0.0.2 --user=test_write_username --password='test_write_password'" + " " +
            "test_write_database"
  {
    TestConnectionStrings();
    DataCommandOf(TestRead, TestWrite, "test_table",
                  "--port=3306 --host=127.0.0.1 --user=test_username --password='test_password'",
                  "--port=3307 --host=127.0.0.2 --user=test_write_username --password='test_write_password'",
                  "test_database", "test_write_database", "'test_table'");
  }

  /** The tests' triggers command, with the definer-stripping stage between the two servers. */
  lemma TestTriggersCommand()
    ensures CreateCopyTriggersCommand(TestRead, TestWrite, "test_table")
         == "mysqldump " + "--port=3306 --host=127.0.0.1 --user=test_username --password='test_password'" + " " +
            "--compress --no-data --no-create-info --triggers" + " " + "test_database" + " " + "'test_table'" + " | " +
            "sed 's/\\sDEFINER=`[^`]*`@`[^`]*`//g'" + " | " +
            "mysql " + "--port=3307 --host=127.0.0.2 --user=test_write_username --password='test_write_password'" + " " +
            "test_write_database"
  {
    TestConnectionStrings();
    TriggersCommandOf(TestRead, TestWrite, "test_table",
                      "--port=3306 --host=127.0.0.1 --user=test_username --password='test_password'",
                      "--port=3307 --host=127.0.0.2 --user=test_write_username --password='test_write_password'",
                      "test_database", "test_write_database", "'test_table'");
  }
}
