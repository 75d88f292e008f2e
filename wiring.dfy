/** The copier wired to the MySQL helper: the DbHelper value whose command
    builders are those of src/Helpers/MySql.php for one read and one write
    configuration, and what the copier's phases then hand to the shell. */
module Wiring {
  import Config
  import DbHelper
  import MySql
  import Processor
  import Copier

  /** The MySQL helper of a read and a write configuration.  The table
      listing, the row counts, the character set and the collation are
      answers of the read server, taken as given. */
  function Helper(read: Config.Config, write: Config.Config, tables: seq<string>, rowCount: string -> nat,
                  characterSet: string, collation: string): DbHelper.DbHelper
  {
    DbHelper.DbHelper(
      tables,
      rowCount,
      MySql.CreateDatabaseCommand(write, characterSet, collation),
      t => MySql.CreateCopySchemaCommand(read, write, t),
      (t, limit, offset) => MySql.CreateCopyChunkedDataCommand(read, write, t, limit, offset),
      t => MySql.CreateCopyDataCommand(read, write, t),
      t => MySql.CreateCopyTriggersCommand(read, write, t))
  }

  /** With the MySQL helper, the schema phase first queues the write
      database's CREATE DATABASE command, then each table's schema dump,
      and distinct tables queue distinct commands. */
  lemma HelperSchemaPhase(read: Config.Config, write: Config.Config, tables: seq<string>, rowCount: string -> nat,
                          characterSet: string, collation: string)
    ensures var es := Copier.SchemaEvents(Helper(read, write, tables, rowCount, characterSet, collation), tables);
            && |es| == 2 + 2 * |tables|
            && es[0] == Processor.Added(MySql.CreateDatabaseCommand(write, characterSet, collation))
            && (forall i | 0 <= i < |tables| ::
                  es[2 + 2 * i] == Processor.Added(MySql.CreateCopySchemaCommand(read, write, tables[i])))
            && (forall i, j | 0 <= i < |tables| && 0 <= j < |tables| && tables[i] != tables[j] ::
                  es[2 + 2 * i] != es[2 + 2 * j])
  {
    var h := Helper(read, write, tables, rowCount, characterSet, collation);
    var es := Copier.SchemaEvents(h, tables);
    Copier.SchemaEventsShape(h, tables);
    forall i, j | 0 <= i < |tables| && 0 <= j < |tables| && tables[i] != tables[j]
      ensures es[2 + 2 * i] != es[2 + 2 * j]
    {
      MySql.CommandsDetermineTable(read, write, tables[i], tables[j]);
    }
  }

  /** With the MySQL helper, the triggers phase queues one triggers dump per
      table, distinct for distinct tables. */
  lemma HelperTriggerCommands(read: Config.Config, write: Config.Config, tables: seq<string>, rowCount: string -> nat,
                              characterSet: string, collation: string)
    ensures var cs := Copier.TriggerCommands(Helper(read, write, tables, rowCount, characterSet, collation), tables);
            && (forall i | 0 <= i < |tables| :: cs[i] == MySql.CreateCopyTriggersCommand(read, write, tables[i]))
            && (forall i, j | 0 <= i < |tables| && 0 <= j < |tables| && tables[i] != tables[j] :: cs[i] != cs[j])
  {
    var h := Helper(read, write, tables, rowCount, characterSet, collation);
    forall t1, t2 | h.copyTriggersCommand(t1) == h.copyTriggersCommand(t2) ensures t1 == t2 {
      MySql.CommandsDetermineTable(read, write, t1, t2);
    }
    TriggerCommandsDistinct(h, tables);
  }

  /** A helper whose triggers command determines its table queues distinct
      triggers commands for distinct tables. */
  lemma TriggerCommandsDistinct(h: DbHelper.DbHelper, tables: seq<string>)
    requires forall t1, t2 :: h.copyTriggersCommand(t1) == h.copyTriggersCommand(t2) ==> t1 == t2
    ensures var cs := Copier.TriggerCommands(h, tables);
            forall i, j | 0 <= i < |tables| && 0 <= j < |tables| && tables[i] != tables[j] :: cs[i] != cs[j]
  {
  }

  /** With the MySQL helper and a positive limit, the chunk loop queues the
      chunked dump of each window of `limit` rows, at offsets offset,
      offset + limit, ... */
  lemma HelperChunkCommands(read: Config.Config, write: Config.Config, tables: seq<string>, rowCount: string -> nat,
                            characterSet: string, collation: string, table: string, limit: int, offset: int, rows: nat)
    requires limit > 0
    ensures var cs := Copier.ChunkCommandsFrom(Helper(read, write, tables, rowCount, characterSet, collation),
                                               table, limit, offset, rows);
            forall i | 0 <= i < |cs| ::
              cs[i] == MySql.CreateCopyChunkedDataCommand(read, write, table, limit, offset + i * limit)
  {
    Copier.ChunkPlan(Helper(read, write, tables, rowCount, characterSet, collation), table, limit, offset, rows);
  }

  /** ... and those commands are pairwise distinct: no window of rows is copied twice. */
  lemma HelperChunksDistinct(read: Config.Config, write: Config.Config, tables: seq<string>, rowCount: string -> nat,
                             characterSet: string, collation: string, table: string, limit: int, offset: int, rows: nat)
    requires limit > 0
    ensures var cs := Copier.ChunkCommandsFrom(Helper(read, write, tables, rowCount, characterSet, collation),
                                               table, limit, offset, rows);
            forall i, j | 0 <= i < j < |cs| :: cs[i] != cs[j]
  {
    var h := Helper(read, write, tables, rowCount, characterSet, collation);
    forall o1: int, o2: int | h.copyChunkedDataCommand(table, limit, o1) == h.copyChunkedDataCommand(table, limit, o2)
      ensures o1 == o2
    {
      MySql.ChunkedCommandInjective(read, write, table, limit, o1, limit, o2);
    }
    ChunksDistinct(h, table, limit, offset, rows);
  }

  /** A helper whose chunked command determines its offset queues pairwise
      distinct chunk commands. */
  lemma ChunksDistinct(h: DbHelper.DbHelper, table: string, limit: int, offset: int, rows: nat)
    requires limit > 0
    requires forall o1: int, o2: int ::
               h.copyChunkedDataCommand(table, limit, o1) == h.copyChunkedDataCommand(table, limit, o2) ==> o1 == o2
    ensures var cs := Copier.ChunkCommandsFrom(h, table, limit, offset, rows);
            forall i, j | 0 <= i < j < |cs| :: cs[i] != cs[j]
  {
    var cs := Copier.ChunkCommandsFrom(h, table, limit, offset, rows);
    Copier.ChunkPlan(h, table, limit, offset, rows);
    forall i, j | 0 <= i < j < |cs| ensures cs[i] != cs[j] {
      MultipleBelow(i, j, limit);
    }
  }

  lemma MultipleBelow(i: int, j: int, limit: int)
    requires i < j && limit > 0
    ensures i * limit < j * limit
  {
    assert j * limit == i * limit + (j - i) * limit;
  }
}
