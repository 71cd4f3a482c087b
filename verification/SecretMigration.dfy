/** The script that encrypts the merchants' plain-text secrets, verifies that none is left, or rolls the change back. */
module SecretMigration {
  import opened JsText
  import opened Secrets

  datatype BackupEntry = BackupEntry(merchantId: string, fields: map<Field, string>)

  type Rows = map<string, Row>

  /** An entry for each merchant that has something in plain text, in the order of the table. */
  function BackupEntries(order: seq<string>, rows: Rows): seq<BackupEntry>
    requires forall id :: id in order ==> id in rows
  {
    if order == [] then []
    else
      var n := |order| - 1;
      var fields := Backup(rows[order[n]]);
      BackupEntries(order[..n], rows) + if fields == map[] then [] else [BackupEntry(order[n], fields)]
  }

  function MigratedRows(c: Cipher, nonces: Nonces, rows: Rows): Rows {
    map id | id in rows :: Migrated(c, nonces, id, rows[id])
  }

  /** The rows after the entries were written back one by one; a merchant that is gone stops it. */
  function Restored(rows: Rows, backup: seq<BackupEntry>): Rows
    decreases |backup|
  {
    if backup == [] || backup[0].merchantId !in rows then rows
    else Restored(rows[backup[0].merchantId := rows[backup[0].merchantId] + backup[0].fields], backup[1..])
  }

  predicate Distinct(order: seq<string>) {
    forall i, j :: 0 <= i < j < |order| ==> order[i] != order[j]
  }

  class MerchantTable {
    const order: seq<string>
    var rows: Rows

    ghost predicate Valid()
      reads this
    {
      Distinct(order) && forall id :: id in order <==> id in rows
    }

    constructor (order: seq<string>, rows: Rows)
      requires Distinct(order) && forall id :: id in order <==> id in rows
      ensures Valid() && this.order == order && this.rows == rows
    {
      this.order, this.rows := order, rows;
    }

    method Update(id: string, data: map<Field, string>)
      requires id in rows
      modifies this
      ensures rows == old(rows)[id := old(rows)[id] + data]
    {
      rows := rows[id := rows[id] + data];
    }

    method CollectBackups() returns (entries: seq<BackupEntry>)
      requires Valid()
      ensures entries == BackupEntries(order, rows)
    {
      entries := [];
      for i := 0 to |order|
        invariant entries == BackupEntries(order[..i], rows)
      {
        assert order[..i + 1][..i] == order[..i];
        var fields := Backup(rows[order[i]]);
        if fields != map[] {
          entries := entries + [BackupEntry(order[i], fields)];
        }
      }
      assert order[..|order|] == order;
    }

    method Verify() returns (ok: bool)
      requires Valid()
      ensures ok <==> forall id, f :: id in rows ==> !Exposed(rows[id], f)
    {
      var entries := CollectBackups();
      ok := entries == [];
      NoEntryIffNoPlainText(order, rows);
      NothingExposedIff(rows);
    }

    /** Writes the encrypted fields of each merchant that has anything in plain text. */
    method EncryptAll(c: Cipher, nonces: Nonces) returns (updatedMerchants: nat)
      requires Valid()
      modifies this
      ensures Valid() && rows == MigratedOnly(c, nonces, order, old(rows))
      ensures updatedMerchants == |BackupEntries(order, old(rows))|
    {
      hide Backup, Encrypted, Migrated, MigratedOnly, Distinct;
      ghost var before := rows;
      var merchants := rows;
      updatedMerchants := 0;
      NoneMigrated(c, nonces, before);
      for i := 0 to |order|
        invariant updatedMerchants == |BackupEntries(order[..i], before)|
        invariant rows == MigratedOnly(c, nonces, order[..i], before)
      {
        assert order[..i + 1][..i] == order[..i];
        var id := order[i];
        var fields := Backup(merchants[id]);
        OneMoreMigrated(c, nonces, order, i, before);
        if fields != map[] {
          Update(id, Encrypted(c, nonces, id, fields));
          updatedMerchants := updatedMerchants + 1;
        }
      }
      assert order[..|order|] == order;
      SameKeys(c, nonces, order, before);
    }

    /** The backup is written first; after the update the table is searched for what remains. */
    method Apply(c: Cipher, nonces: Nonces)
      returns (backup: seq<BackupEntry>, updatedMerchants: nat, remaining: seq<BackupEntry>)
      requires Valid() && Lawful(c)
      modifies this
      ensures Valid() && rows == MigratedRows(c, nonces, old(rows))
      ensures backup == BackupEntries(order, old(rows)) && updatedMerchants == |backup| && remaining == []
      ensures forall id, f :: id in rows ==> !Exposed(rows[id], f)
    {
      hide Lawful, Backup, Encrypted, Migrated, BackupEntries;
      ghost var before := rows;
      backup := CollectBackups();
      updatedMerchants := EncryptAll(c, nonces);
      assert rows == MigratedRows(c, nonces, before);
      remaining := CollectBackups();
      NothingRemains(c, nonces, order, before);
      NothingIsExposed(c, nonces, before);
    }

    method Rollback(backup: seq<BackupEntry>) returns (done: bool)
      modifies this
      ensures rows == Restored(old(rows), backup)
      ensures done <==> forall i :: 0 <= i < |backup| ==> backup[i].merchantId in old(rows)
    {
      for i := 0 to |backup|
        invariant Restored(rows, backup[i..]) == Restored(old(rows), backup)
        invariant rows.Keys == old(rows).Keys
        invariant forall j :: 0 <= j < i ==> backup[j].merchantId in old(rows)
      {
        assert backup[i..][1..] == backup[i + 1..];
        if backup[i].merchantId !in rows {
          return false;
        }
        Update(backup[i].merchantId, backup[i].fields);
      }
      return true;
    }
  }

  lemma UpdateIsMigration(c: Cipher, nonces: Nonces, id: string, row: Row)
    ensures Migrated(c, nonces, id, row) == row + Encrypted(c, nonces, id, Backup(row))
    ensures Backup(row) == map[] ==> Migrated(c, nonces, id, row) == row
  {
    if Backup(row) == map[] {
      assert Encrypted(c, nonces, id, map[]) == map[];
    }
  }

  /** The rows once the merchants listed have been migrated. */
  function MigratedOnly(c: Cipher, nonces: Nonces, ids: seq<string>, rows: Rows): Rows {
    map id | id in rows :: if id in ids then Migrated(c, nonces, id, rows[id]) else rows[id]
  }

  lemma NoneMigrated(c: Cipher, nonces: Nonces, rows: Rows)
    ensures MigratedOnly(c, nonces, [], rows) == rows
  {
    hide Migrated;
  }

  lemma SameKeys(c: Cipher, nonces: Nonces, ids: seq<string>, rows: Rows)
    ensures MigratedOnly(c, nonces, ids, rows).Keys == rows.Keys
  {
    hide Migrated;
  }

  lemma MigratedOneMore(c: Cipher, nonces: Nonces, ids: seq<string>, id: string, rows: Rows)
    requires id in rows && id !in ids
    ensures var current := MigratedOnly(c, nonces, ids, rows);
      && id in current && current[id] == rows[id]
      && MigratedOnly(c, nonces, ids + [id], rows) == current[id := Migrated(c, nonces, id, rows[id])]
  {
    hide Migrated;
    assert forall x :: x in ids + [id] <==> x in ids || x == id;
  }

  lemma OneMoreMigrated(c: Cipher, nonces: Nonces, order: seq<string>, i: nat, rows: Rows)
    requires i < |order| && order[i] in rows && Distinct(order)
    ensures var id, current := order[i], MigratedOnly(c, nonces, order[..i], rows);
      var next := MigratedOnly(c, nonces, order[..i + 1], rows);
      && id in current
      && (Backup(rows[id]) == map[] ==> next == current)
      && next == current[id := current[id] + Encrypted(c, nonces, id, Backup(rows[id]))]
  {
    hide Migrated, Backup, Encrypted, MigratedOnly;
    var id := order[i];
    UpdateIsMigration(c, nonces, id, rows[id]);
    assert order[..i + 1] == order[..i] + [id];
    MigratedOneMore(c, nonces, order[..i], id, rows);
    var current := MigratedOnly(c, nonces, order[..i], rows);
    assert current[id := current[id]] == current;
  }

  lemma {:induction false} NoEntryIffNoPlainText(order: seq<string>, rows: Rows)
    requires forall id :: id in order ==> id in rows
    ensures BackupEntries(order, rows) == [] <==> forall id :: id in order ==> Backup(rows[id]) == map[]
  {
    hide Backup;
    if order != [] {
      var n := |order| - 1;
      NoEntryIffNoPlainText(order[..n], rows);
      assert forall id :: id in order <==> id in order[..n] || id == order[n];
    }
  }

  lemma NothingExposedIff(rows: Rows)
    ensures (forall id, f :: id in rows ==> !Exposed(rows[id], f))
         <==> forall id :: id in rows ==> Backup(rows[id]) == map[]
  {
    hide Backup, Exposed;
    forall id, f | id in rows
      ensures f in Backup(rows[id]) <==> Exposed(rows[id], f)
    {
      BackupHoldsExposed(rows[id], f);
    }
    forall id | id in rows && Backup(rows[id]) != map[]
      ensures exists f :: Exposed(rows[id], f)
    {
      var f :| f in Backup(rows[id]);
    }
  }

  predicate SameField(a: Row, b: Row, f: Field) {
    (f in a <==> f in b) && (f in b ==> a[f] == b[f])
  }

  /** After an apply no secret of any merchant is exposed; those that were not are stored as they were. */
  lemma NothingIsExposed(c: Cipher, nonces: Nonces, rows: Rows)
    requires Lawful(c)
    ensures var after := MigratedRows(c, nonces, rows);
      forall id, f :: id in rows ==>
        !Exposed(after[id], f) && (!Exposed(rows[id], f) ==> SameField(after[id], rows[id], f))
  {
    hide Lawful, Migrated, Exposed;
    forall id, f | id in rows
      ensures var after := Migrated(c, nonces, id, rows[id]);
        !Exposed(after, f) && (!Exposed(rows[id], f) ==> SameField(after, rows[id], f))
    {
      MigratedIsNotExposed(c, nonces, id, rows[id], f);
    }
  }

  /** The entry of a merchant in the backup. */
  ghost predicate EntryFor(backup: seq<BackupEntry>, id: string, fields: map<Field, string>) {
    exists i :: 0 <= i < |backup| && backup[i] == BackupEntry(id, fields)
  }

  lemma {:induction false} EntriesAreBackups(order: seq<string>, rows: Rows, id: string, fields: map<Field, string>)
    requires forall x :: x in order ==> x in rows
    ensures EntryFor(BackupEntries(order, rows), id, fields)
      <==> id in order && fields == Backup(rows[id]) && fields != map[]
  {
    hide Backup;
    if order != [] {
      var n := |order| - 1;
      EntriesAreBackups(order[..n], rows, id, fields);
      var front, all := BackupEntries(order[..n], rows), BackupEntries(order, rows);
      assert id in order <==> id in order[..n] || id == order[n];
      assert forall i :: 0 <= i < |front| ==> all[i] == front[i];
      if Backup(rows[order[n]]) != map[] {
        assert all[|front|] == BackupEntry(order[n], Backup(rows[order[n]]));
      }
    }
  }

  /** The exposed fields of the row and no others, each trimmed. */
  ghost predicate Holds(fields: map<Field, string>, row: Row) {
    && (forall f :: f in fields <==> Exposed(row, f))
    && (forall f :: f in fields ==> fields[f] == Trim(row[f]))
  }

  lemma BackupIs(row: Row, fields: map<Field, string>)
    ensures fields == Backup(row) <==> Holds(fields, row)
  {
    hide Backup, Trim;
    forall f
      ensures f in Backup(row) <==> Exposed(row, f)
      ensures f in Backup(row) ==> Backup(row)[f] == Trim(row[f])
    {
      BackupHoldsExposed(row, f);
    }
    if Holds(fields, row) {
      assert fields.Keys == Backup(row).Keys by {
        assert forall f :: f in fields <==> f in Backup(row);
      }
    }
  }

  /**
   * What the backup holds: a merchant has an entry exactly if some secret of it is exposed, and of each of the seven
   * fields the entry keeps the trimmed text exactly if that one is.
   */
  lemma BackupIsComplete(order: seq<string>, rows: Rows, id: string, fields: map<Field, string>)
    requires forall x :: x in order <==> x in rows
    ensures EntryFor(BackupEntries(order, rows), id, fields) <==>
      id in rows && fields != map[] && Holds(fields, rows[id])
  {
    EntriesAreBackups(order, rows, id, fields);
    hide Backup, EntryFor, Holds, BackupEntries;
    if id in rows {
      BackupIs(rows[id], fields);
    }
  }

  /** What the verification after an apply finds: nothing. */
  lemma NothingRemains(c: Cipher, nonces: Nonces, order: seq<string>, rows: Rows)
    requires Lawful(c) && forall id :: id in order <==> id in rows
    ensures BackupEntries(order, MigratedRows(c, nonces, rows)) == []
  {
    hide Lawful, Backup, Migrated;
    var after := MigratedRows(c, nonces, rows);
    forall id | id in order
      ensures Backup(after[id]) == map[]
    {
      MigratedHasNoPlainText(c, nonces, id, rows[id]);
    }
    NoEntryIffNoPlainText(order, after);
  }

  /** A second apply writes nothing: there is no entry to write, and the rows are as they were. */
  lemma SecondApplyWritesNothing(c: Cipher, nonces: Nonces, again: Nonces, order: seq<string>, rows: Rows)
    requires Lawful(c) && forall id :: id in order <==> id in rows
    ensures var after := MigratedRows(c, nonces, rows);
      BackupEntries(order, after) == [] && MigratedRows(c, again, after) == after
  {
    hide Lawful, Migrated;
    NothingRemains(c, nonces, order, rows);
    forall id | id in rows
      ensures Migrated(c, again, id, Migrated(c, nonces, id, rows[id])) == Migrated(c, nonces, id, rows[id])
    {
      MigratedTwice(c, nonces, again, id, rows[id]);
    }
  }

  /** Every secret of every merchant reads the same after an apply. */
  lemma ApplyPreservesMeaning(c: Cipher, nonces: Nonces, rows: Rows, id: string, f: Field)
    requires Lawful(c) && id in rows
    ensures DecryptStoredSecret(c, Column(MigratedRows(c, nonces, rows)[id], f))
         == DecryptStoredSecret(c, Column(rows[id], f))
  {
    hide Lawful, Migrated, DecryptStoredSecret;
    MigrationPreservesMeaning(c, nonces, id, rows[id], f);
  }

  lemma {:induction false} RestoredPrefix(rows: Rows, a: seq<BackupEntry>, b: seq<BackupEntry>)
    requires forall i :: 0 <= i < |a| ==> a[i].merchantId in rows
    ensures Restored(rows, a + b) == Restored(Restored(rows, a), b)
    decreases |a|
  {
    if a == [] {
      assert a + b == b;
    } else {
      assert (a + b)[1..] == a[1..] + b;
      RestoredPrefix(rows[a[0].merchantId := rows[a[0].merchantId] + a[0].fields], a[1..], b);
    }
  }

  lemma {:induction false} EntriesComeFromOrder(order: seq<string>, rows: Rows)
    requires forall id :: id in order ==> id in rows
    ensures forall i :: 0 <= i < |BackupEntries(order, rows)| ==> BackupEntries(order, rows)[i].merchantId in order
  {
    hide Backup;
    if order != [] {
      EntriesComeFromOrder(order[..|order| - 1], rows);
    }
  }

  /** Every merchant listed has the fields of its backup written over its row; the others are as they were. */
  ghost predicate WrittenBack(current: Rows, ids: seq<string>, rows: Rows, after: Rows)
    requires forall id :: id in ids ==> id in rows
  {
    && after.Keys == current.Keys
    && forall id :: id in current ==> after[id] == if id in ids then current[id] + Backup(rows[id]) else current[id]
  }

  lemma WriteBackOneMore(current: Rows, ids: seq<string>, id: string, rows: Rows, after: Rows)
    requires forall x :: x in ids + [id] ==> x in rows
    requires WrittenBack(current, ids, rows, after) && id !in ids && id in current
    ensures WrittenBack(current, ids + [id], rows, after[id := after[id] + Backup(rows[id])])
    ensures Backup(rows[id]) == map[] ==> WrittenBack(current, ids + [id], rows, after)
  {
    hide Backup;
    assert forall x :: x in ids + [id] <==> x in ids || x == id;
    assert current[id] + map[] == current[id];
  }

  /** Writing back a backup gives every merchant in it the fields it lists, and touches nothing else. */
  lemma {:induction false} RestoredRows(current: Rows, order: seq<string>, rows: Rows)
    requires Distinct(order) && forall id :: id in order ==> id in rows && id in current
    ensures WrittenBack(current, order, rows, Restored(current, BackupEntries(order, rows)))
  {
    hide Backup;
    if order != [] {
      var n := |order| - 1;
      var id := order[n];
      assert order == order[..n] + [id] && id !in order[..n];
      RestoredRows(current, order[..n], rows);
      EntriesComeFromOrder(order[..n], rows);
      hide WrittenBack;
      var front := BackupEntries(order[..n], rows);
      var middle := Restored(current, front);
      WrittenBackKeys(current, order[..n], rows, middle);
      WriteBackOneMore(current, order[..n], id, rows, middle);
      if Backup(rows[id]) == map[] {
        assert front + [] == front;
      } else {
        var last := BackupEntry(id, Backup(rows[id]));
        RestoredPrefix(current, front, [last]);
        assert [last][1..] == [];
      }
    }
  }

  lemma WrittenBackKeys(current: Rows, ids: seq<string>, rows: Rows, after: Rows)
    requires forall id :: id in ids ==> id in rows
    requires WrittenBack(current, ids, rows, after)
    ensures after.Keys == current.Keys
  {
  }

  /** Rolling back an apply with the backup it wrote leaves each row as it was, its plain-text fields trimmed. */
  lemma RollbackUndoesApply(c: Cipher, nonces: Nonces, order: seq<string>, rows: Rows)
    requires Lawful(c) && Distinct(order) && forall id :: id in order <==> id in rows
    ensures Restored(MigratedRows(c, nonces, rows), BackupEntries(order, rows))
         == map id | id in rows :: rows[id] + Backup(rows[id])
  {
    hide Lawful, Migrated, Backup;
    RestoredRows(MigratedRows(c, nonces, rows), order, rows);
    forall id | id in rows
      ensures Migrated(c, nonces, id, rows[id]) + Backup(rows[id]) == rows[id] + Backup(rows[id])
    {
      RestoredRow(c, nonces, id, rows[id]);
    }
  }

  lemma RestoredRow(c: Cipher, nonces: Nonces, id: string, row: Row)
    ensures Migrated(c, nonces, id, row) + Backup(row) == row + Backup(row)
  {
    hide Backup;
  }
}
