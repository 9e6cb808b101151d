/**
 * crypto.service.ts and key-rotation.service.ts: a versioned ring of keys, and the job that moves
 * every stored blob to the current key. AES-GCM is any cipher that opens what it sealed.
 */
module KeyRotation {
  import opened Core

  type Key = string

  /** seal(key, iv, plaintext) is a ciphertext and its tag; open gives None when the tag does not fit. */
  datatype Cipher = Cipher(
    seal: (Key, string, string) -> (string, string),
    open: (Key, string, string, string) -> Option<string>)

  ghost predicate IsCipher(c: Cipher) {
    forall key, iv, plain :: c.open(key, iv, c.seal(key, iv, plain).0, c.seal(key, iv, plain).1) == Some(plain)
  }

  /** The configuration: current version and key, and the retired keys by version. */
  datatype Keys = Keys(cipher: Cipher, version: int, key: Key, ring: map<int, Key>)

  // ---------- The text of the ring ----------

  function Split(s: string, sep: char): (r: seq<string>)
    ensures |r| >= 1
  {
    if s == "" then [""]
    else
      var rest := Split(s[1..], sep);
      if s[0] == sep then [""] + rest else [[s[0]] + rest[0]] + rest[1..]
  }

  function Join(pieces: seq<string>, sep: char): string
    requires pieces != []
  {
    if |pieces| == 1 then pieces[0] else pieces[0] + [sep] + Join(pieces[1..], sep)
  }

  predicate IsSpace(c: char) { c in [' ', '\t', '\n', '\r', '\U{0B}', '\U{0C}', '\U{A0}', '\U{FEFF}'] }

  function TrimStart(s: string): string { if s != "" && IsSpace(s[0]) then TrimStart(s[1..]) else s }
  function TrimEnd(s: string): string { if s != "" && IsSpace(s[|s| - 1]) then TrimEnd(s[..|s| - 1]) else s }
  function Trim(s: string): string { TrimEnd(TrimStart(s)) }

  predicate IsHexDigit(c: char) { '0' <= c <= '9' || 'a' <= c <= 'f' || 'A' <= c <= 'F' }

  predicate IsHexKey(s: string) { |s| == 64 && forall i :: 0 <= i < 64 ==> IsHexDigit(s[i]) }

  function LowerDigit(c: char): char { if 'A' <= c <= 'F' then c - 'A' + 'a' else c }

  /** The bytes of a hex text, written as lower-case hex. */
  function FromHex(s: string): Key { seq(|s|, i requires 0 <= i < |s| => LowerDigit(s[i])) }

  /** One "version:hexkey" entry: None for an empty version, and for a key that is not 64 hex digits. */
  datatype RingEntry = RingEntry(version: Option<int>, key: Option<Key>)

  /** `num` is Number; None stands for everything that is not an integer, which no stored version equals. */
  function EntryOf(pair: string, num: string -> Option<int>): RingEntry {
    var parts := Split(pair, ':');
    var v, hex := Trim(parts[0]), if |parts| > 1 then Trim(parts[1]) else "";
    RingEntry(if v == "" then None else num(v), if IsHexKey(hex) then Some(FromHex(hex)) else None)
  }

  function EntriesOf(pairs: seq<string>, num: string -> Option<int>): seq<RingEntry> {
    seq(|pairs|, i requires 0 <= i < |pairs| => EntryOf(pairs[i], num))
  }

  predicate Without(s: string, c: char) { c !in s }

  lemma {:induction false} SplitPiece(a: string, rest: string, sep: char)
    requires Without(a, sep)
    ensures Split(a, sep) == [a] && Split(a + [sep] + rest, sep) == [a] + Split(rest, sep)
    decreases |a|
  {
    var s := a + [sep] + rest;
    if a == "" {
      assert s[1..] == rest;
    } else {
      SplitPiece(a[1..], rest, sep);
      assert s[1..] == a[1..] + [sep] + rest && a == [a[0]] + a[1..];
    }
  }

  /** Splitting undoes joining pieces that do not hold the separator. */
  lemma {:induction false} SplitJoins(pieces: seq<string>, sep: char)
    requires pieces != [] && forall i :: 0 <= i < |pieces| ==> Without(pieces[i], sep)
    ensures Split(Join(pieces, sep), sep) == pieces
    decreases |pieces|
  {
    if |pieces| == 1 {
      SplitPiece(pieces[0], "", sep);
    } else {
      SplitPiece(pieces[0], Join(pieces[1..], sep), sep);
      SplitJoins(pieces[1..], sep);
    }
  }

  predicate AllSpaces(s: string) { forall i :: 0 <= i < |s| ==> IsSpace(s[i]) }

  predicate IsWord(s: string) { s != "" && !IsSpace(s[0]) && !IsSpace(s[|s| - 1]) }

  lemma {:induction false} TrimStartOf(a: string, s: string)
    requires AllSpaces(a) && (s == "" || !IsSpace(s[0]))
    ensures TrimStart(a + s) == s
    decreases |a|
  {
    if a == "" {
      assert a + s == s;
    } else {
      assert (a + s)[1..] == a[1..] + s;
      TrimStartOf(a[1..], s);
    }
  }

  lemma {:induction false} TrimEndOf(s: string, b: string)
    requires AllSpaces(b) && IsWord(s)
    ensures TrimEnd(s + b) == s
    decreases |b|
  {
    if b == "" {
      assert s + b == s;
    } else {
      assert (s + b)[..|s + b| - 1] == s + b[..|b| - 1];
      TrimEndOf(s, b[..|b| - 1]);
    }
  }

  /** Trimming takes away the space on both sides and nothing else. */
  lemma TrimOf(a: string, s: string, b: string)
    requires AllSpaces(a) && AllSpaces(b) && IsWord(s)
    ensures Trim(a + s + b) == s
  {
    assert a + s + b == a + (s + b);
    TrimStartOf(a, s + b);
    TrimEndOf(s, b);
  }

  /** An entry written as it should be, with any space around its parts, is read as it was meant. */
  lemma EntryReads(version: string, hex: string, pad: seq<string>, num: string -> Option<int>)
    requires IsWord(version) && Without(version, ':') && IsHexKey(hex)
    requires |pad| == 4 && AllSpaces(pad[0]) && AllSpaces(pad[1]) && AllSpaces(pad[2]) && AllSpaces(pad[3])
    ensures EntryOf(pad[0] + version + pad[1] + ":" + (pad[2] + hex + pad[3]), num) == RingEntry(num(version), Some(FromHex(hex)))
  {
    hide Trim;
    var left, right := pad[0] + version + pad[1], pad[2] + hex + pad[3];
    assert Without(left, ':') && Without(right, ':') && IsWord(hex);
    SplitPiece(left, right, ':');
    SplitPiece(right, "", ':');
    TrimOf(pad[0], version, pad[1]);
    TrimOf(pad[2], hex, pad[3]);
  }

  /** The value of a hex digit, 16 for other characters. */
  function DigitValue(c: char): int {
    if '0' <= c <= '9' then c as int - '0' as int
    else if 'a' <= c <= 'f' then c as int - 'a' as int + 10
    else if 'A' <= c <= 'F' then c as int - 'A' as int + 10
    else 16
  }

  /** Keys are 64 hex digits in either case, and two texts are the same key exactly when their digits have the same values. */
  lemma KeysAreBytes(x: string, y: string)
    ensures IsHexKey(x) <==> |x| == 64 && forall i :: 0 <= i < 64 ==> DigitValue(x[i]) < 16
    ensures IsHexKey(x) && IsHexKey(y) ==> (FromHex(x) == FromHex(y) <==> forall i :: 0 <= i < 64 ==> DigitValue(x[i]) == DigitValue(y[i]))
  {
    if IsHexKey(x) && IsHexKey(y) {
      forall i | 0 <= i < 64 ensures FromHex(x)[i] == FromHex(y)[i] <==> DigitValue(x[i]) == DigitValue(y[i]) {
        SameDigit(x[i], y[i]);
      }
    }
  }

  lemma SameDigit(c: char, d: char)
    requires IsHexDigit(c) && IsHexDigit(d)
    ensures LowerDigit(c) == LowerDigit(d) <==> DigitValue(c) == DigitValue(d)
  {
  }

  // ---------- The ring of retired keys ----------

  predicate IsUsable(e: RingEntry) { e.version.Some? && e.key.Some? }

  /** Malformed entries are skipped, and the last usable entry of a version counts. */
  ghost predicate IsRingOf(ring: map<int, Key>, entries: seq<RingEntry>) {
    && (forall v :: v in ring ==> exists i :: LastFor(entries, i, v) && entries[i].key == Some(ring[v]))
    && (forall i :: 0 <= i < |entries| && IsUsable(entries[i]) ==> entries[i].version.value in ring)
  }

  ghost predicate LastFor(entries: seq<RingEntry>, i: int, v: int) {
    && 0 <= i < |entries| && IsUsable(entries[i]) && entries[i].version == Some(v)
    && forall j :: i < j < |entries| && IsUsable(entries[j]) ==> entries[j].version != Some(v)
  }

  function RingWith(ring: map<int, Key>, e: RingEntry): map<int, Key> {
    if IsUsable(e) then ring[e.version.value := e.key.value] else ring
  }

  lemma RingGrows(ring: map<int, Key>, seen: seq<RingEntry>, e: RingEntry)
    requires IsRingOf(ring, seen)
    ensures IsRingOf(RingWith(ring, e), seen + [e])
  {
    var grown, all := RingWith(ring, e), seen + [e];
    forall v | v in grown ensures exists i :: LastFor(all, i, v) && all[i].key == Some(grown[v]) {
      if IsUsable(e) && e.version == Some(v) {
        assert LastFor(all, |seen|, v);
      } else {
        var i :| LastFor(seen, i, v) && seen[i].key == Some(ring[v]);
        assert LastFor(all, i, v);
      }
    }
  }

  method PreviousKeys(setting: Option<string>, num: string -> Option<int>) returns (ring: map<int, Key>)
    ensures IsRingOf(ring, if setting.Some? then EntriesOf(Split(Trim(setting.value), ','), num) else [])
  {
    hide EntryOf, Split, Trim, IsRingOf;
    ring := map[];
    assert IsRingOf(ring, []) by { EmptyRing(); }
    if setting.None? { return; }
    var pairs := Split(Trim(setting.value), ',');
    ghost var entries := EntriesOf(pairs, num);
    for n := 0 to |pairs|
      invariant IsRingOf(ring, entries[..n])
    {
      var e := EntryOf(pairs[n], num);
      RingGrows(ring, entries[..n], e);
      assert entries[..n + 1] == entries[..n] + [e];
      if e.version.Some? && e.key.Some? {
        ring := ring[e.version.value := e.key.value];
      }
    }
    assert entries[..|pairs|] == entries;
  }

  lemma EmptyRing()
    ensures IsRingOf(map[], [])
  {
  }

  // ---------- Encrypting and decrypting ----------

  function KeyFor(k: Keys, version: int): Option<Key> {
    if version == k.version then Some(k.key) else if version in k.ring then Some(k.ring[version]) else None
  }

  datatype Blob = Blob(ciphertext: string, iv: string, authTag: string, keyVersion: int)

  function Encrypt(k: Keys, iv: string, plain: string): Blob {
    var sealed := k.cipher.seal(k.key, iv, plain);
    Blob(sealed.0, iv, sealed.1, k.version)
  }

  /** None when there is no key for the version or the tag does not fit. */
  function Decrypt(k: Keys, b: Blob): Option<string> {
    match KeyFor(k, b.keyVersion)
    case None => None
    case Some(key) => k.cipher.open(key, b.iv, b.ciphertext, b.authTag)
  }

  // ---------- The rows ----------

  /** A stored blob. The columns of credentials are never null; those of leads may be. */
  datatype Row = Row(ciphertext: Option<string>, iv: Option<string>, authTag: Option<string>, keyVersion: Option<int>)

  datatype Table = Credentials | Leads

  predicate HasBlob(r: Row) { r.ciphertext.Some? && r.iv.Some? && r.authTag.Some? && r.keyVersion.Some? }

  function BlobOf(r: Row): Blob
    requires HasBlob(r)
  {
    Blob(r.ciphertext.value, r.iv.value, r.authTag.value, r.keyVersion.value)
  }

  function RowOf(b: Blob): Row { Row(Some(b.ciphertext), Some(b.iv), Some(b.authTag), Some(b.keyVersion)) }

  /** Leads with an empty column are passed over, credentials never. */
  predicate IsComplete(table: Table, r: Row) {
    HasBlob(r) && (table == Leads ==> r.ciphertext.value != "" && r.iv.value != "" && r.authTag.value != "")
  }

  /** The rows the job rewrites. */
  predicate Needs(k: Keys, table: Table, r: Row) { IsComplete(table, r) && r.keyVersion != Some(k.version) }

  /** What a row decrypts to. */
  function Plain(k: Keys, r: Row): Option<string> { if HasBlob(r) then Decrypt(k, BlobOf(r)) else None }

  // ---------- One pass over a table ----------

  datatype Pass = Pass(rows: seq<Row>, left: nat, done: nat, ok: bool)

  function Moved(k: Keys, iv: string, plain: string): Row { RowOf(Encrypt(k, iv, plain)) }

  /**
   * `left` is how many more row updates the database takes before it fails; a row that does not
   * decrypt, or an update that fails, ends the pass with the rows before it rewritten.
   */
  function Rotate(k: Keys, table: Table, ivs: nat -> string, rows: seq<Row>, left: nat): Pass
    decreases |rows|
  {
    if rows == [] then Pass([], left, 0, true)
    else if !Needs(k, table, rows[0]) then
      var rest := Rotate(k, table, ivs, rows[1..], left);
      rest.(rows := [rows[0]] + rest.rows)
    else if Plain(k, rows[0]).None? || left == 0 then Pass(rows, left, 0, false)
    else
      var rest := Rotate(k, table, ivs, rows[1..], left - 1);
      Pass([Moved(k, ivs(left), Plain(k, rows[0]).value)] + rest.rows, rest.left, rest.done + 1, rest.ok)
  }

  function NeedCount(k: Keys, table: Table, rows: seq<Row>): nat {
    if rows == [] then 0 else NeedCount(k, table, rows[1..]) + if Needs(k, table, rows[0]) then 1 else 0
  }

  /** A rewritten row is on the current version and decrypts to the same text, whatever ring is left. */
  lemma MovedReads(k: Keys, table: Table, iv: string, r: Row, ring: map<int, Key>)
    requires IsCipher(k.cipher) && Plain(k, r).Some?
    ensures var r' := Moved(k, iv, Plain(k, r).value);
      r'.keyVersion == Some(k.version) && !Needs(k, table, r') && Plain(k.(ring := ring), r') == Plain(k, r)
  {
  }

  /** Wherever a pass stops, every row still decrypts to what it did, under the same ring. */
  lemma {:induction false} RotateKeepsPlaintexts(k: Keys, table: Table, ivs: nat -> string, rows: seq<Row>, left: nat)
    requires IsCipher(k.cipher)
    ensures var p := Rotate(k, table, ivs, rows, left);
      |p.rows| == |rows| && forall i :: 0 <= i < |rows| ==> Plain(k, p.rows[i]) == Plain(k, rows[i])
    decreases |rows|
  {
    if rows != [] {
      RotateKeepsPlaintexts(k, table, ivs, rows[1..], left);
      if Needs(k, table, rows[0]) && Plain(k, rows[0]).Some? && left > 0 {
        RotateKeepsPlaintexts(k, table, ivs, rows[1..], left - 1);
        MovedReads(k, table, ivs(left), rows[0], k.ring);
      }
    }
  }

  ghost predicate AllReadable(k: Keys, table: Table, rows: seq<Row>) {
    forall i :: 0 <= i < |rows| && Needs(k, table, rows[i]) ==> Plain(k, rows[i]).Some?
  }

  /** A pass completes exactly when every row it has to move decrypts and the database takes them all. */
  lemma {:induction false} RotateCompletesIff(k: Keys, table: Table, ivs: nat -> string, rows: seq<Row>, left: nat)
    ensures Rotate(k, table, ivs, rows, left).ok <==> AllReadable(k, table, rows) && NeedCount(k, table, rows) <= left
    ensures Rotate(k, table, ivs, rows, left).ok ==>
      Rotate(k, table, ivs, rows, left).done == NeedCount(k, table, rows)
      && Rotate(k, table, ivs, rows, left).left + NeedCount(k, table, rows) == left
    decreases |rows|
  {
    if rows != [] {
      assert AllReadable(k, table, rows) <==>
        (Needs(k, table, rows[0]) ==> Plain(k, rows[0]).Some?) && AllReadable(k, table, rows[1..]) by {
        assert forall i :: 0 <= i < |rows[1..]| ==> rows[1..][i] == rows[i + 1];
        assert forall i :: 1 <= i < |rows| ==> rows[i] == rows[1..][i - 1];
      }
      if !Needs(k, table, rows[0]) {
        RotateCompletesIff(k, table, ivs, rows[1..], left);
      } else if left > 0 {
        RotateCompletesIff(k, table, ivs, rows[1..], left - 1);
      }
    }
  }

  /** After a completed pass no row needs moving, and each decrypts to what it did with the ring emptied. */
  lemma {:induction false} RotateMovesAll(k: Keys, table: Table, ivs: nat -> string, rows: seq<Row>, left: nat)
    requires IsCipher(k.cipher) && Rotate(k, table, ivs, rows, left).ok
    ensures var p := Rotate(k, table, ivs, rows, left);
      && |p.rows| == |rows|
      && forall i :: 0 <= i < |rows| ==>
           && !Needs(k, table, p.rows[i])
           && (Needs(k, table, rows[i]) ==> p.rows[i].keyVersion == Some(k.version))
           && (IsComplete(table, rows[i]) ==> Plain(k.(ring := map[]), p.rows[i]) == Plain(k, rows[i]))
           && (!Needs(k, table, rows[i]) ==> p.rows[i] == rows[i])
    decreases |rows|
  {
    if rows != [] {
      if !Needs(k, table, rows[0]) {
        RotateMovesAll(k, table, ivs, rows[1..], left);
      } else {
        RotateMovesAll(k, table, ivs, rows[1..], left - 1);
        MovedReads(k, table, ivs(left), rows[0], map[]);
      }
    }
  }

  /** A pass over rows that need nothing changes nothing. */
  lemma {:induction false} RotateAgain(k: Keys, table: Table, ivs: nat -> string, rows: seq<Row>, left: nat)
    requires forall i :: 0 <= i < |rows| ==> !Needs(k, table, rows[i])
    ensures Rotate(k, table, ivs, rows, left) == Pass(rows, left, 0, true)
    decreases |rows|
  {
    if rows != [] { RotateAgain(k, table, ivs, rows[1..], left); }
  }

  // ---------- The job ----------

  datatype RotationResult = RotationResult(currentVersion: int, credentials: nat, leads: nat)

  datatype Job = Job(credentials: seq<Row>, leads: seq<Row>, result: Option<RotationResult>)

  /** Credentials first, then leads; None when an error ended the job. */
  function ReEncrypted(k: Keys, ivs: nat -> string, credentials: seq<Row>, leads: seq<Row>, left: nat): Job {
    var c := Rotate(k, Credentials, ivs, credentials, left);
    if !c.ok then Job(c.rows, leads, None)
    else
      var l := Rotate(k, Leads, ivs, leads, c.left);
      Job(c.rows, l.rows, if l.ok then Some(RotationResult(k.version, c.done, l.done)) else None)
  }

  /** The stored tables, and the loops that rewrite them in place. */
  class Store {
    var credentials: seq<Row>
    var leads: seq<Row>

    method ReEncryptCredentials(k: Keys, ivs: nat -> string, left: nat) returns (left': nat, done: nat, ok: bool)
      modifies this`credentials
      ensures Pass(credentials, left', done, ok) == Rotate(k, Credentials, ivs, old(credentials), left)
    {
      left', done, ok := left, 0, true;
      ghost var was := credentials;
      for i := 0 to |credentials|
        invariant ok && |credentials| == |was| && credentials[i..] == was[i..]
        invariant var rest := Rotate(k, Credentials, ivs, was[i..], left');
          Rotate(k, Credentials, ivs, was, left) == Pass(credentials[..i] + rest.rows, rest.left, done + rest.done, rest.ok)
      {
        var c := credentials[i];
        assert c == was[i..][0] && was[i..][1..] == was[i + 1..];
        if Needs(k, Credentials, c) {
          var plaintext := Plain(k, c);
          if plaintext.None? || left' == 0 {
            assert credentials[..i] + was[i..] == credentials;
            ok := false;
            return;
          }
          credentials := credentials[i := Moved(k, ivs(left'), plaintext.value)];
          left', done := left' - 1, done + 1;
        }
        Regroup(credentials[..i], credentials[i], credentials[..i + 1], Rotate(k, Credentials, ivs, was[i + 1..], left').rows);
      }
      assert credentials[..|credentials|] + [] == credentials;
    }

    method ReEncryptLeads(k: Keys, ivs: nat -> string, left: nat) returns (left': nat, done: nat, ok: bool)
      modifies this`leads
      ensures Pass(leads, left', done, ok) == Rotate(k, Leads, ivs, old(leads), left)
    {
      left', done, ok := left, 0, true;
      ghost var was := leads;
      for i := 0 to |leads|
        invariant ok && |leads| == |was| && leads[i..] == was[i..]
        invariant var rest := Rotate(k, Leads, ivs, was[i..], left');
          Rotate(k, Leads, ivs, was, left) == Pass(leads[..i] + rest.rows, rest.left, done + rest.done, rest.ok)
      {
        var l := leads[i];
        assert l == was[i..][0] && was[i..][1..] == was[i + 1..];
        if Needs(k, Leads, l) {
          var plaintext := Plain(k, l);
          if plaintext.None? || left' == 0 {
            assert leads[..i] + was[i..] == leads;
            ok := false;
            return;
          }
          leads := leads[i := Moved(k, ivs(left'), plaintext.value)];
          left', done := left' - 1, done + 1;
        }
        Regroup(leads[..i], leads[i], leads[..i + 1], Rotate(k, Leads, ivs, was[i + 1..], left').rows);
      }
      assert leads[..|leads|] + [] == leads;
    }

    method ReEncryptAll(k: Keys, ivs: nat -> string, left: nat) returns (r: Option<RotationResult>)
      modifies this
      ensures Job(credentials, leads, r) == ReEncrypted(k, ivs, old(credentials), old(leads), left)
    {
      var remaining, moved, ok := ReEncryptCredentials(k, ivs, left);
      if !ok { return None; }
      var rest, movedLeads, leadsOk := ReEncryptLeads(k, ivs, remaining);
      if !leadsOk { return None; }
      return Some(RotationResult(k.version, moved, movedLeads));
    }
  }

  lemma Regroup<T>(front: seq<T>, x: T, front': seq<T>, rest: seq<T>)
    requires front' == front + [x]
    ensures front + ([x] + rest) == front' + rest
  {
  }

  // ---------- Main results ----------

  /**
   * When the job completes, every complete row is on the current version and decrypts to its
   * original text with the ring emptied, and running it again changes nothing.
   */
  lemma RotationPreservesPlaintext(k: Keys, ivs: nat -> string, again: nat -> string, credentials: seq<Row>, leads: seq<Row>, left: nat, left': nat)
    requires IsCipher(k.cipher)
    ensures var j := ReEncrypted(k, ivs, credentials, leads, left);
      && |j.credentials| == |credentials| && |j.leads| == |leads|
      && (j.result.Some? ==>
        && (forall i :: 0 <= i < |credentials| && IsComplete(Credentials, credentials[i]) ==>
              Plain(k.(ring := map[]), j.credentials[i]) == Plain(k, credentials[i]) && !Needs(k, Credentials, j.credentials[i]))
        && (forall i :: 0 <= i < |leads| && IsComplete(Leads, leads[i]) ==>
              Plain(k.(ring := map[]), j.leads[i]) == Plain(k, leads[i]) && !Needs(k, Leads, j.leads[i]))
        && ReEncrypted(k, again, j.credentials, j.leads, left')
           == Job(j.credentials, j.leads, Some(RotationResult(k.version, 0, 0))))
  {
    hide Needs, Plain, IsComplete, IsCipher, Rotate;
    var c := Rotate(k, Credentials, ivs, credentials, left);
    RotateKeepsPlaintexts(k, Credentials, ivs, credentials, left);
    if c.ok {
      RotateKeepsPlaintexts(k, Leads, ivs, leads, c.left);
      RotateMovesAll(k, Credentials, ivs, credentials, left);
      if Rotate(k, Leads, ivs, leads, c.left).ok {
        RotateMovesAll(k, Leads, ivs, leads, c.left);
        RotateAgain(k, Credentials, again, c.rows, left');
        RotateAgain(k, Leads, again, Rotate(k, Leads, ivs, leads, c.left).rows, left');
      }
    }
  }

  predicate IsFilled(text: Option<string>) { text !in {None, Some("")} }

  /** A completed job has moved every credential, and exactly the leads none of whose columns are empty; rows already current are as they were. */
  lemma JobMoves(k: Keys, ivs: nat -> string, credentials: seq<Row>, leads: seq<Row>, left: nat)
    requires IsCipher(k.cipher) && ReEncrypted(k, ivs, credentials, leads, left).result.Some?
    ensures var j := ReEncrypted(k, ivs, credentials, leads, left);
      && |j.credentials| == |credentials| && |j.leads| == |leads|
      && (forall i :: 0 <= i < |credentials| && HasBlob(credentials[i]) ==> j.credentials[i].keyVersion == Some(k.version))
      && (forall i :: 0 <= i < |leads| ==>
            var r := leads[i];
            if IsFilled(r.ciphertext) && IsFilled(r.iv) && IsFilled(r.authTag) && r.keyVersion.Some?
            then j.leads[i].keyVersion == Some(k.version) else j.leads[i] == r)
      && (forall i :: 0 <= i < |credentials| && credentials[i].keyVersion == Some(k.version) ==> j.credentials[i] == credentials[i])
      && (forall i :: 0 <= i < |leads| && leads[i].keyVersion == Some(k.version) ==> j.leads[i] == leads[i])
  {
    hide Rotate, IsCipher, Plain;
    RotateMovesAll(k, Credentials, ivs, credentials, left);
    RotateMovesAll(k, Leads, ivs, leads, Rotate(k, Credentials, ivs, credentials, left).left);
  }

  /** The job completes exactly when every row it has to move decrypts and the database takes them all. */
  lemma RotationCompletesIff(k: Keys, ivs: nat -> string, credentials: seq<Row>, leads: seq<Row>, left: nat)
    ensures ReEncrypted(k, ivs, credentials, leads, left).result.Some? <==>
      && AllReadable(k, Credentials, credentials) && AllReadable(k, Leads, leads)
      && NeedCount(k, Credentials, credentials) + NeedCount(k, Leads, leads) <= left
  {
    hide AllReadable, NeedCount, Rotate;
    RotateCompletesIff(k, Credentials, ivs, credentials, left);
    RotateCompletesIff(k, Leads, ivs, leads, Rotate(k, Credentials, ivs, credentials, left).left);
  }

  /** Wherever the job stops, every row of both tables still decrypts to what it did. */
  lemma StoppingIsSafe(k: Keys, ivs: nat -> string, credentials: seq<Row>, leads: seq<Row>, left: nat)
    requires IsCipher(k.cipher)
    ensures var j := ReEncrypted(k, ivs, credentials, leads, left);
      && |j.credentials| == |credentials| && |j.leads| == |leads|
      && (forall i :: 0 <= i < |credentials| ==> Plain(k, j.credentials[i]) == Plain(k, credentials[i]))
      && (forall i :: 0 <= i < |leads| ==> Plain(k, j.leads[i]) == Plain(k, leads[i]))
  {
    hide Plain, IsCipher, Rotate;
    RotateKeepsPlaintexts(k, Credentials, ivs, credentials, left);
    RotateKeepsPlaintexts(k, Leads, ivs, leads, Rotate(k, Credentials, ivs, credentials, left).left);
  }
}
