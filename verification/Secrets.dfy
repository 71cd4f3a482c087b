/** Merchant secrets at rest: how they are encrypted, and the migration of those still stored in plain text. */
module Secrets {
  import opened JsText

  // ---------- One secret ----------

  const PREFIX: string := "enc:v1:"

  datatype Sealed = Sealed(iv: string, tag: string, payload: string)

  /** The cipher under the configured key, its parts in base64url; the nonce stands for the random initial vector. */
  datatype Cipher = Cipher(seal: (nat, string) -> Sealed, unseal: Sealed -> Option<string>)

  /** Base64url text of at least one byte. */
  predicate Plain(s: string) {
    s != "" && ':' !in s && forall i :: 0 <= i < |s| ==> !IsSpace(s[i])
  }

  /** What is relied on: a sealed non-empty text opens to itself, and its parts are non-empty base64url text. */
  ghost predicate Lawful(c: Cipher) {
    forall nonce, text :: text != "" ==>
      var s := c.seal(nonce, text);
      c.unseal(s) == Some(text) && Plain(s.iv) && Plain(s.tag) && Plain(s.payload)
  }

  predicate IsEncryptedSecret(value: Option<string>) {
    var trimmed := TrimToNull(value);
    trimmed.Some? && StartsWith(trimmed.value, PREFIX)
  }

  function Render(s: Sealed): string {
    Join(["enc", "v1", s.iv, s.tag, s.payload], ':')
  }

  function EncryptStoredSecret(c: Cipher, nonce: nat, value: Option<string>): Option<string> {
    var trimmed := TrimToNull(value);
    if trimmed.None? || IsEncryptedSecret(trimmed) then trimmed
    else Some(Render(c.seal(nonce, trimmed.value)))
  }

  /** Err stands for an error thrown: a malformed secret, or one that does not open. */
  function DecryptStoredSecret(c: Cipher, value: Option<string>): Result<Option<string>> {
    var trimmed := TrimToNull(value);
    if trimmed.None? || !IsEncryptedSecret(trimmed) then Ok(trimmed)
    else
      var parts := Split(trimmed.value, ':');
      if |parts| != 5 || parts[0] + ":" + parts[1] != "enc:v1" || parts[2] == "" || parts[3] == "" || parts[4] == ""
      then Err("Stored secret is malformed")
      else
        var text := c.unseal(Sealed(parts[2], parts[3], parts[4]));
        if text.None? then Err("Unsupported state or unable to authenticate data") else Ok(TrimToNull(text))
  }

  lemma RenderSplits(s: Sealed)
    requires ':' !in s.iv && ':' !in s.tag && ':' !in s.payload
    ensures Split(Render(s), ':') == ["enc", "v1", s.iv, s.tag, s.payload]
  {
    SplitJoin(["enc", "v1", s.iv, s.tag, s.payload], ':');
  }

  lemma JoinTwo(a: string, b: string, rest: seq<string>)
    requires rest != []
    ensures Join([a, b] + rest, ':') == a + ":" + b + ":" + Join(rest, ':')
  {
    assert ([a, b] + rest)[1..] == [b] + rest && ([b] + rest)[1..] == rest;
  }

  lemma RenderStarts(s: Sealed)
    ensures StartsWith(Render(s), PREFIX)
  {
    var rest := [s.iv, s.tag, s.payload];
    assert ["enc", "v1", s.iv, s.tag, s.payload] == ["enc", "v1"] + rest;
    JoinTwo("enc", "v1", rest);
    assert PREFIX == "enc" + ":" + "v1" + ":";
    assert Render(s)[..7] == PREFIX;
  }

  lemma RenderEnds(s: Sealed)
    requires Plain(s.payload)
    ensures |Render(s)| > 0 && Render(s)[|Render(s)| - 1] == s.payload[|s.payload| - 1]
  {
    var front := ["enc", "v1", s.iv, s.tag];
    JoinEnds(front, s.payload);
    assert front + [s.payload] == ["enc", "v1", s.iv, s.tag, s.payload];
  }

  lemma {:induction false} JoinEnds(front: seq<string>, last: string)
    requires last != ""
    ensures var t := Join(front + [last], ':'); t != "" && t[|t| - 1] == last[|last| - 1]
  {
    if front != [] {
      JoinEnds(front[1..], last);
      assert (front + [last])[1..] == front[1..] + [last];
    }
  }

  lemma TrimmedText(t: string)
    requires t != "" && !IsSpace(t[0]) && !IsSpace(t[|t| - 1])
    ensures TrimToNull(Some(t)) == Some(t)
  {
    TrimKeepsTrimmed(t);
  }

  lemma RenderIsTrimmed(s: Sealed)
    requires Plain(s.payload)
    ensures TrimToNull(Some(Render(s))) == Some(Render(s))
  {
    RenderStarts(s);
    RenderEnds(s);
    hide Render, TrimToNull, Trim;
    assert Render(s)[0] == PREFIX[0] == 'e';
    TrimmedText(Render(s));
  }

  /** What was plain text opens to its trimmed text once encrypted, under any nonce, and is recognised as encrypted. */
  lemma EncryptedOpens(c: Cipher, nonce: nat, value: Option<string>)
    requires Lawful(c) && TrimToNull(value).Some? && !IsEncryptedSecret(value)
    ensures IsEncryptedSecret(EncryptStoredSecret(c, nonce, value))
    ensures DecryptStoredSecret(c, EncryptStoredSecret(c, nonce, value)) == Ok(TrimToNull(value))
  {
    hide Render, Trim, Trimmed, Split, Plain;
    TrimToNullIdempotent(value);
    var text := TrimToNull(value).value;
    var s := c.seal(nonce, text);
    assert c.unseal(s) == Some(text) && Plain(s.iv) && Plain(s.tag) && Plain(s.payload);
    RenderIsTrimmed(s);
    RenderStarts(s);
    PlainIsNotEmpty(s);
    RenderSplits(s);
    assert "enc" + ":" + "v1" == "enc:v1";
  }

  lemma PlainIsNotEmpty(s: Sealed)
    requires Plain(s.iv) && Plain(s.tag) && Plain(s.payload)
    ensures s.iv != "" && s.tag != "" && s.payload != "" && ':' !in s.iv && ':' !in s.tag && ':' !in s.payload
  {
  }

  /** What was sealed under another key or tampered with is refused, never read as something else. */
  lemma SealedOpensOrFails(c: Cipher, s: Sealed)
    requires Plain(s.iv) && Plain(s.tag) && Plain(s.payload)
    ensures DecryptStoredSecret(c, Some(Render(s))).Ok? <==> c.unseal(s).Some?
    ensures c.unseal(s).Some? ==> DecryptStoredSecret(c, Some(Render(s))) == Ok(TrimToNull(c.unseal(s)))
  {
    hide Render, Trim, Trimmed, Split, TrimToNull, Plain;
    RenderIsTrimmed(s);
    RenderStarts(s);
    PlainIsNotEmpty(s);
    RenderSplits(s);
    assert "enc" + ":" + "v1" == "enc:v1";
  }

  lemma {:induction false} JoinEndsEmpty(front: seq<string>)
    requires front != []
    ensures var t := Join(front + [""], ':'); t != "" && t[|t| - 1] == ':'
  {
    if |front| == 1 {
      assert (front + [""])[1..] == [""];
    } else {
      JoinEndsEmpty(front[1..]);
      assert (front + [""])[1..] == front[1..] + [""];
    }
  }

  lemma RenderOfAnyIsTrimmed(s: Sealed)
    requires s.payload == "" || !IsSpace(s.payload[|s.payload| - 1])
    ensures TrimToNull(Some(Render(s))) == Some(Render(s))
  {
    var front := ["enc", "v1", s.iv, s.tag];
    assert front + [s.payload] == ["enc", "v1", s.iv, s.tag, s.payload];
    if s.payload == "" { JoinEndsEmpty(front); } else { JoinEnds(front, s.payload); }
    RenderStarts(s);
    hide Join, TrimToNull, Trim;
    assert Render(s)[0] == PREFIX[0] == 'e';
    TrimmedText(Render(s));
  }

  /** A secret of which a part is missing is malformed. */
  lemma EmptyPartIsRefused(c: Cipher, s: Sealed)
    requires ':' !in s.iv && ':' !in s.tag && ':' !in s.payload
    requires s.iv == "" || s.tag == "" || s.payload == ""
    requires s.payload == "" || !IsSpace(s.payload[|s.payload| - 1])
    ensures DecryptStoredSecret(c, Some(Render(s))).Err?
  {
    hide Render, Trim, Trimmed, Split, TrimToNull;
    RenderOfAnyIsTrimmed(s);
    RenderStarts(s);
    RenderSplits(s);
  }

  // ---------- One merchant ----------

  datatype Field = PayfastMerchantKey | PayfastPassphrase | OzowPrivateKey | OzowApiKey | YocoSecretKey
    | YocoWebhookSecret | PaystackSecretKey

  /** The secret columns of a row; a column that is null is absent. */
  type Row = map<Field, string>

  function Column(row: Row, f: Field): Option<string> {
    if f in row then Some(row[f]) else None
  }

  predicate InPlainText(row: Row, f: Field) {
    TrimToNull(Column(row, f)).Some? && !IsEncryptedSecret(Column(row, f))
  }

  /** A stored secret that is neither blank nor marked as encrypted. */
  ghost predicate Exposed(row: Row, f: Field) {
    f in row && Trim(row[f]) != "" && !("enc:v1:" <= Trim(row[f]))
  }

  /** The fields still in plain text, trimmed: what the backup keeps of the row. */
  function Backup(row: Row): map<Field, string> {
    map f | f in row && InPlainText(row, f) :: TrimToNull(Column(row, f)).value
  }

  /** The nonce drawn for a merchant's field in one run of the script. */
  type Nonces = (string, Field) -> nat

  function Encrypted(c: Cipher, nonces: Nonces, id: string, backup: map<Field, string>): map<Field, string> {
    map f | f in backup && EncryptStoredSecret(c, nonces(id, f), Some(backup[f])).Some?
      :: EncryptStoredSecret(c, nonces(id, f), Some(backup[f])).value
  }

  function Migrated(c: Cipher, nonces: Nonces, id: string, row: Row): Row {
    row + Encrypted(c, nonces, id, Backup(row))
  }

  lemma TrimOnceMore(value: Option<string>)
    ensures TrimToNull(TrimToNull(value)) == TrimToNull(value)
    ensures IsEncryptedSecret(TrimToNull(value)) <==> IsEncryptedSecret(value)
  {
    TrimToNullIdempotent(value);
  }

  lemma MigratedField(c: Cipher, nonces: Nonces, id: string, row: Row, f: Field)
    requires Lawful(c)
    ensures var migrated := Migrated(c, nonces, id, row);
      if InPlainText(row, f)
      then f in row && Column(migrated, f) == EncryptStoredSecret(c, nonces(id, f), Some(Backup(row)[f]))
        && Column(migrated, f).Some? && Backup(row)[f] == TrimToNull(Column(row, f)).value
      else Column(migrated, f) == Column(row, f) && f !in Encrypted(c, nonces, id, Backup(row))
  {
    assert InPlainText(row, f) ==> f in row;
    hide EncryptStoredSecret, IsEncryptedSecret, TrimToNull, Lawful;
    if InPlainText(row, f) {
      TrimOnceMore(Column(row, f));
      EncryptedOpens(c, nonces(id, f), Some(Backup(row)[f]));
      EncryptedIsSome(c, nonces(id, f), Some(Backup(row)[f]));
    }
  }

  lemma EncryptedIsSome(c: Cipher, nonce: nat, value: Option<string>)
    ensures TrimToNull(value).Some? ==> EncryptStoredSecret(c, nonce, value).Some?
  {
  }

  /** Every field reads the same before and after the migration, an error included. */
  lemma MigrationPreservesMeaning(c: Cipher, nonces: Nonces, id: string, row: Row, f: Field)
    requires Lawful(c)
    ensures DecryptStoredSecret(c, Column(Migrated(c, nonces, id, row), f)) == DecryptStoredSecret(c, Column(row, f))
  {
    MigratedField(c, nonces, id, row, f);
    if InPlainText(row, f) {
      TrimOnceMore(Column(row, f));
      EncryptedOpens(c, nonces(id, f), Some(Backup(row)[f]));
      hide EncryptStoredSecret, IsEncryptedSecret, TrimToNull, Lawful, Migrated, Backup;
    }
  }

  /** Of every one of the seven fields the backup keeps the trimmed text exactly if it is exposed. */
  lemma BackupHoldsExposed(row: Row, f: Field)
    ensures f in Backup(row) <==> Exposed(row, f)
    ensures f in Backup(row) ==> Backup(row)[f] == Trim(row[f])
  {
    hide Trim;
  }

  /** Afterwards no field is exposed, and one that was not exposed is as it was. */
  lemma MigratedIsNotExposed(c: Cipher, nonces: Nonces, id: string, row: Row, f: Field)
    requires Lawful(c)
    ensures var migrated := Migrated(c, nonces, id, row);
      && !Exposed(migrated, f)
      && (!Exposed(row, f) ==> (f in migrated <==> f in row) && (f in row ==> migrated[f] == row[f]))
  {
    BackupHoldsExposed(row, f);
    BackupHoldsExposed(Migrated(c, nonces, id, row), f);
    MigratedField(c, nonces, id, row, f);
    MigratedHasNoPlainText(c, nonces, id, row);
    hide Exposed, EncryptStoredSecret, IsEncryptedSecret, TrimToNull, Lawful, Migrated;
  }

  function Colons(s: string): nat {
    if s == "" then 0 else Colons(s[..|s| - 1]) + if s[|s| - 1] == ':' then 1 else 0
  }

  lemma {:induction false} NoColons(s: string)
    requires ':' !in s
    ensures Colons(s) == 0
  {
    if s != "" { NoColons(s[..|s| - 1]); }
  }

  lemma {:induction false} ColonsAfter(a: string, b: string)
    ensures Colons(a + b) == Colons(a) + Colons(b)
  {
    if b == "" {
      assert a + b == a;
    } else {
      assert (a + b)[..|a + b| - 1] == a + b[..|b| - 1];
      ColonsAfter(a, b[..|b| - 1]);
    }
  }

  lemma {:induction false} PartsByColons(s: string)
    ensures |Split(s, ':')| == Colons(s) + 1
    decreases |s|
  {
    var i := IndexOf(s, ':');
    if i == |s| {
      assert s[..i] == s;
      NoColons(s);
    } else {
      PartsByColons(s[i + 1..]);
      NoColons(s[..i]);
      ColonsAfter(s[..i], [':']);
      ColonsAfter(s[..i] + [':'], s[i + 1..]);
      assert s == s[..i] + [':'] + s[i + 1..];
      assert Colons([':']) == 1;
    }
  }

  lemma MarkedIffEncrypted(value: Option<string>)
    ensures IsEncryptedSecret(value) <==> value.Some? && "enc:v1:" <= Trim(value.value)
    ensures TrimToNull(value) == if value.Some? && Trim(value.value) != "" then Some(Trim(value.value)) else None
  {
    hide Trim;
  }

  /** Plain text reads as its trimmed self; what is marked as encrypted but has not its five parts is refused. */
  lemma ReadingRefuses(c: Cipher, value: Option<string>)
    ensures var marked := value.Some? && "enc:v1:" <= Trim(value.value);
      && (!marked ==>
            DecryptStoredSecret(c, value)
              == Ok(if value.Some? && Trim(value.value) != "" then Some(Trim(value.value)) else None))
      && (marked && Colons(Trim(value.value)) != 4 ==> DecryptStoredSecret(c, value).Err?)
  {
    hide Split, Trim, TrimToNull, IsEncryptedSecret;
    MarkedIffEncrypted(value);
    TrimOnceMore(value);
    if value.Some? { PartsByColons(Trim(value.value)); }
  }

  /** Nothing is left in plain text. */
  lemma MigratedHasNoPlainText(c: Cipher, nonces: Nonces, id: string, row: Row)
    requires Lawful(c)
    ensures Backup(Migrated(c, nonces, id, row)) == map[]
  {
    hide EncryptStoredSecret, IsEncryptedSecret, TrimToNull, Lawful, Migrated;
    forall f
      ensures !InPlainText(Migrated(c, nonces, id, row), f)
    {
      MigratedField(c, nonces, id, row, f);
      if InPlainText(row, f) {
        TrimOnceMore(Column(row, f));
        EncryptedOpens(c, nonces(id, f), Some(Backup(row)[f]));
      }
    }
  }

  /** So migrating again changes nothing, whatever nonces are drawn. */
  lemma MigratedTwice(c: Cipher, nonces: Nonces, again: Nonces, id: string, row: Row)
    requires Lawful(c)
    ensures Migrated(c, again, id, Migrated(c, nonces, id, row)) == Migrated(c, nonces, id, row)
  {
    hide Backup;
    MigratedHasNoPlainText(c, nonces, id, row);
    assert Encrypted(c, again, id, map[]) == map[];
  }

  /** Rolling back restores the trimmed original of every field that was changed and leaves the others alone. */
  lemma RollbackRestores(c: Cipher, nonces: Nonces, id: string, row: Row, f: Field)
    requires Lawful(c)
    ensures var restored := Migrated(c, nonces, id, row) + Backup(row);
      Column(restored, f) == if InPlainText(row, f) then TrimToNull(Column(row, f)) else Column(row, f)
  {
    hide EncryptStoredSecret, IsEncryptedSecret, TrimToNull, Lawful;
    MigratedField(c, nonces, id, row, f);
  }
}
