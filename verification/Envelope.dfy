/**
  Envelope encryption over a versioned keyring. AES-GCM is a pair of functions that undo each
  other, as sections 7.1 and 7.2 of NIST SP 800-38D describe them; what a call draws at random is
  passed in.
 */
module Envelope {
  import opened Common

  newtype Byte = x: int | 0 <= x < 256
  type Bytes = seq<Byte>
  type Version = v: int | 0 <= v < 0x1_0000_0000

  const KEY_SIZE := 32
  const NONCE_SIZE := 12
  const TAG_SIZE := 16
  const HEADER_LEN := 6
  const MAX_WRAPPED_DEK_LEN := 65535

  datatype Error = NoRandom | InvalidKey | NoKeys | NoCurrent | UnknownKeyVersion | Malformed | NotAuthentic | TooLarge

  // ----- big-endian headers -----

  function ByteAt(n: nat, shift: nat): Byte
    requires shift > 0
  {
    (n / shift % 256) as Byte
  }

  function AppendUint32(v: Version): (b: Bytes)
    ensures |b| == 4
  {
    [ByteAt(v, 0x100_0000), ByteAt(v, 0x1_0000), ByteAt(v, 0x100), ByteAt(v, 1)]
  }

  function Uint32(b: Bytes): Version
    requires |b| == 4
  {
    b[0] as int * 0x100_0000 + b[1] as int * 0x1_0000 + b[2] as int * 0x100 + b[3] as int
  }

  function AppendUint16(n: nat): (b: Bytes)
    ensures |b| == 2
  {
    [ByteAt(n, 0x100), ByteAt(n, 1)]
  }

  function Uint16(b: Bytes): (n: nat)
    requires |b| == 2
    ensures n <= MAX_WRAPPED_DEK_LEN
  {
    b[0] as int * 0x100 + b[1] as int
  }

  lemma SplitsByte(n: nat, q: nat, r: nat)
    requires n == q * 256 + r && r < 256
    ensures n / 256 == q && n % 256 == r
  {
  }

  lemma ShiftsAgain(n: nat)
    ensures n / 0x1_0000 == n / 256 / 256 && n / 0x100_0000 == n / 256 / 256 / 256
  {
  }

  lemma Uint32ReadsBack(v: Version)
    ensures Uint32(AppendUint32(v)) == v
  {
    ShiftsAgain(v);
    assert v == v / 256 * 256 + v % 256;
    assert v / 256 == v / 256 / 256 * 256 + v / 256 % 256;
    assert v / 256 / 256 == v / 256 / 256 / 256 * 256 + v / 256 / 256 % 256;
  }

  lemma Uint32WritesBack(b: Bytes)
    requires |b| == 4
    ensures AppendUint32(Uint32(b)) == b
  {
    var n := Uint32(b);
    var n1 := b[0] as int * 0x1_0000 + b[1] as int * 0x100 + b[2] as int;
    var n2 := b[0] as int * 0x100 + b[1] as int;
    SplitsByte(n, n1, b[3] as int);
    SplitsByte(n1, n2, b[2] as int);
    SplitsByte(n2, b[0] as int, b[1] as int);
    ShiftsAgain(n);
  }

  lemma Uint32RoundTrip(v: Version, b: Bytes)
    requires |b| == 4
    ensures Uint32(AppendUint32(v)) == v
    ensures AppendUint32(Uint32(b)) == b
  {
    Uint32ReadsBack(v);
    Uint32WritesBack(b);
  }

  lemma Uint16RoundTrip(n: nat, b: Bytes)
    requires n <= MAX_WRAPPED_DEK_LEN && |b| == 2
    ensures Uint16(AppendUint16(n)) == n
    ensures AppendUint16(Uint16(b)) == b
  {
    SplitsByte(Uint16(b), b[0] as int, b[1] as int);
  }

  // ----- AES-GCM -----

  /** Encryption under key and nonce, and decryption, which may refuse. */
  datatype Aead = Aead(encrypt: (Bytes, Bytes, Bytes) -> Bytes, decrypt: (Bytes, Bytes, Bytes) -> Option<Bytes>)

  ghost predicate Decrypts(a: Aead, k: Bytes, n: Bytes, p: Bytes) {
    a.decrypt(k, n, a.encrypt(k, n, p)) == Some(p) && |a.encrypt(k, n, p)| == |p| + TAG_SIZE
  }

  ghost predicate Authentic(a: Aead, k: Bytes, n: Bytes, c: Bytes) {
    a.decrypt(k, n, c).Some? ==> c == a.encrypt(k, n, a.decrypt(k, n, c).value)
  }

  /** Decryption undoes encryption, and accepts nothing that encryption does not produce. */
  ghost predicate Correct(a: Aead) {
    && (forall k, n, p :: Decrypts(a, k, n, p))
    && (forall k, n, c :: Authentic(a, k, n, c))
  }

  function GcmSeal(a: Aead, key: Bytes, nonce: Bytes, plaintext: Bytes): Result<Bytes, Error> {
    if |key| != KEY_SIZE then Err(InvalidKey) else Ok(nonce + a.encrypt(key, nonce, plaintext))
  }

  function GcmOpen(a: Aead, key: Bytes, blob: Bytes): Result<Bytes, Error> {
    if |key| != KEY_SIZE then Err(InvalidKey)
    else if |blob| < NONCE_SIZE then Err(Malformed)
    else
      var p := a.decrypt(key, blob[..NONCE_SIZE], blob[NONCE_SIZE..]);
      if p.None? then Err(NotAuthentic) else Ok(p.value)
  }

  lemma GcmOpensSealed(a: Aead, key: Bytes, nonce: Bytes, p: Bytes)
    requires Correct(a) && |key| == KEY_SIZE && |nonce| == NONCE_SIZE
    ensures GcmSeal(a, key, nonce, p).Ok?
    ensures GcmOpen(a, key, GcmSeal(a, key, nonce, p).value) == Ok(p)
    ensures |GcmSeal(a, key, nonce, p).value| == NONCE_SIZE + |p| + TAG_SIZE
  {
    var blob := nonce + a.encrypt(key, nonce, p);
    assert Decrypts(a, key, nonce, p);
    assert blob[..NONCE_SIZE] == nonce && blob[NONCE_SIZE..] == a.encrypt(key, nonce, p);
  }

  lemma GcmOpensOnlySealed(a: Aead, key: Bytes, blob: Bytes)
    requires Correct(a) && GcmOpen(a, key, blob).Ok?
    ensures |key| == KEY_SIZE && NONCE_SIZE <= |blob|
    ensures GcmSeal(a, key, blob[..NONCE_SIZE], GcmOpen(a, key, blob).value) == Ok(blob)
  {
    assert Authentic(a, key, blob[..NONCE_SIZE], blob[NONCE_SIZE..]);
    assert blob == blob[..NONCE_SIZE] + blob[NONCE_SIZE..];
  }

  // ----- the envelope -----

  type Keks = map<Version, Bytes>

  datatype Ring = Ring(keks: Keks, current: Version) {
    /** What NewEncryptor checks. */
    predicate Valid() {
      current in keks && forall v :: v in keks ==> |keks[v]| == KEY_SIZE
    }
  }

  /** The random bytes of one seal. */
  datatype Drawn = Drawn(dek: Bytes, kekNonce: Bytes, dekNonce: Bytes) {
    predicate Valid() {
      |dek| == KEY_SIZE && |kekNonce| == NONCE_SIZE && |dekNonce| == NONCE_SIZE
    }
  }

  /** keyVersion (4) | wrappedDEKLen (2) | wrappedDEK | ciphertext. */
  function Blob(v: Version, wrapped: Bytes, data: Bytes): Bytes {
    AppendUint32(v) + AppendUint16(|wrapped|) + wrapped + data
  }

  /** Nothing is sealed without random bytes: `None` is a random source that fails. */
  function SealUnder(a: Aead, v: Version, kek: Bytes, d: Option<Drawn>, plaintext: Bytes): Result<Bytes, Error> {
    if d.None? then Err(NoRandom)
    else
      var wrapped := GcmSeal(a, kek, d.value.kekNonce, d.value.dek);
      if wrapped.Err? then wrapped
      else
        var data := GcmSeal(a, d.value.dek, d.value.dekNonce, plaintext);
        if data.Err? then data
        else if |wrapped.value| > MAX_WRAPPED_DEK_LEN then Err(TooLarge)
        else Ok(Blob(v, wrapped.value, data.value))
  }

  function Opened(a: Aead, keks: Keks, blob: Bytes): Result<Bytes, Error> {
    if |blob| < HEADER_LEN then Err(Malformed)
    else
      var version := Uint32(blob[..4]);
      var wrappedLen := Uint16(blob[4..6]);
      if |blob| < HEADER_LEN + wrappedLen then Err(Malformed)
      else if version !in keks then Err(UnknownKeyVersion)
      else
        var dek := GcmOpen(a, keks[version], blob[HEADER_LEN..HEADER_LEN + wrappedLen]);
        if dek.Err? then dek else GcmOpen(a, dek.value, blob[HEADER_LEN + wrappedLen..])
  }

  /** The header of a blob is read back as it was written, for every version and length. */
  lemma BlobReadsBack(v: Version, wrapped: Bytes, data: Bytes)
    requires |wrapped| <= MAX_WRAPPED_DEK_LEN
    ensures var b := Blob(v, wrapped, data);
            && |b| == HEADER_LEN + |wrapped| + |data|
            && Uint32(b[..4]) == v && Uint16(b[4..6]) == |wrapped|
            && b[HEADER_LEN..HEADER_LEN + |wrapped|] == wrapped && b[HEADER_LEN + |wrapped|..] == data
  {
    var b := Blob(v, wrapped, data);
    assert b[..4] == AppendUint32(v);
    assert b[4..6] == AppendUint16(|wrapped|);
    Uint32RoundTrip(v, b[..4]);
    Uint16RoundTrip(|wrapped|, b[4..6]);
  }

  /** Every blob with a whole header is a blob of what is read from it. */
  lemma BlobIsItsParts(b: Bytes)
    requires HEADER_LEN <= |b| && HEADER_LEN + Uint16(b[4..6]) <= |b|
    ensures var n := HEADER_LEN + Uint16(b[4..6]);
            b == Blob(Uint32(b[..4]), b[HEADER_LEN..n], b[n..])
  {
    Uint32WritesBack(b[..4]);
    Uint16RoundTrip(0, b[4..6]);
    FourParts(b, HEADER_LEN + Uint16(b[4..6]));
  }

  lemma FourParts(b: Bytes, n: nat)
    requires HEADER_LEN <= n <= |b|
    ensures b == b[..4] + b[4..6] + b[HEADER_LEN..n] + b[n..]
  {
  }

  /** A seal fails only for want of random bytes, and what it returns opens under every ring that has its key. */
  lemma SealedOpens(a: Aead, keks: Keks, v: Version, d: Drawn, p: Bytes)
    requires Correct(a) && d.Valid() && v in keks && |keks[v]| == KEY_SIZE
    ensures SealUnder(a, v, keks[v], Some(d), p).Ok?
    ensures Opened(a, keks, SealUnder(a, v, keks[v], Some(d), p).value) == Ok(p)
  {
    GcmOpensSealed(a, keks[v], d.kekNonce, d.dek);
    GcmOpensSealed(a, d.dek, d.dekNonce, p);
    BlobReadsBack(v, GcmSeal(a, keks[v], d.kekNonce, d.dek).value, GcmSeal(a, d.dek, d.dekNonce, p).value);
  }

  ghost predicate IsSealOf(a: Aead, keks: Keks, blob: Bytes, p: Bytes, v: Version, d: Drawn) {
    v in keks && |keks[v]| == KEY_SIZE && d.Valid() && SealUnder(a, v, keks[v], Some(d), p) == Ok(blob)
  }

  /** A blob opens to a plaintext exactly when it is a seal of it under a key of the ring. */
  lemma OpensIffSealed(a: Aead, keks: Keks, blob: Bytes, p: Bytes)
    requires Correct(a)
    ensures Opened(a, keks, blob) == Ok(p) <==> exists v, d :: IsSealOf(a, keks, blob, p, v, d)
  {
    if Opened(a, keks, blob) == Ok(p) {
      var v := Uint32(blob[..4]);
      var n := HEADER_LEN + Uint16(blob[4..6]);
      var wrapped, data := blob[HEADER_LEN..n], blob[n..];
      var dek := GcmOpen(a, keks[v], wrapped).value;
      GcmOpensOnlySealed(a, keks[v], wrapped);
      GcmOpensOnlySealed(a, dek, data);
      BlobIsItsParts(blob);
      assert IsSealOf(a, keks, blob, p, v, Drawn(dek, wrapped[..NONCE_SIZE], data[..NONCE_SIZE]));
    }
    forall v, d | IsSealOf(a, keks, blob, p, v, d)
      ensures Opened(a, keks, blob) == Ok(p)
    {
      SealedOpens(a, keks, v, d, p);
    }
  }

  // ----- rotation -----

  /** A rotation adds versions and may move the current one; keys stay what they were. */
  predicate Extends(r: Ring, next: Ring) {
    forall v :: v in r.keks ==> v in next.keks && next.keks[v] == r.keks[v]
  }

  ghost predicate Rotations(history: seq<Ring>) {
    && (forall i :: 0 <= i < |history| ==> history[i].Valid())
    && (forall i, j :: 0 <= i < |history| - 1 && j == i + 1 ==> Extends(history[i], history[j]))
  }

  lemma {:induction false} LaterRingExtends(history: seq<Ring>, i: nat, j: nat)
    requires Rotations(history) && i <= j < |history|
    ensures Extends(history[i], history[j])
    decreases j - i
  {
    if i < j {
      LaterRingExtends(history, i, j - 1);
      assert Extends(history[j - 1], history[j]);
    }
  }

  /** Whatever was sealed at any time opens at any later time. */
  lemma RotationLosesNothing(a: Aead, history: seq<Ring>, i: nat, j: nat, d: Drawn, p: Bytes)
    requires Correct(a) && Rotations(history) && i <= j < |history| && d.Valid()
    ensures var r := history[i];
            var blob := SealUnder(a, r.current, r.keks[r.current], Some(d), p);
            blob.Ok? && Opened(a, history[j].keks, blob.value) == Ok(p)
  {
    LaterRingExtends(history, i, j);
    var r := history[i];
    assert history[i].Valid();
    SealedOpens(a, history[j].keks, r.current, d, p);
  }

  /** Where versions are only ever added or retired, a blob opens exactly as long as its version is kept. */
  lemma OpensWhileVersionIsKept(a: Aead, r: Ring, later: Ring, d: Drawn, p: Bytes)
    requires Correct(a) && r.Valid() && d.Valid()
    requires forall v :: v in r.keks && v in later.keks ==> later.keks[v] == r.keks[v]
    ensures var blob := SealUnder(a, r.current, r.keks[r.current], Some(d), p);
            && blob.Ok?
            && (Opened(a, later.keks, blob.value) == Ok(p) <==> r.current in later.keks)
            && (r.current !in later.keks ==> Opened(a, later.keks, blob.value) == Err(UnknownKeyVersion))
  {
    SealedOpens(a, r.keks, r.current, d, p);
    if r.current in later.keks {
      SealedOpens(a, later.keks, r.current, d, p);
    } else {
      GcmOpensSealed(a, r.keks[r.current], d.kekNonce, d.dek);
      BlobReadsBack(r.current, GcmSeal(a, r.keks[r.current], d.kekNonce, d.dek).value,
                    GcmSeal(a, d.dek, d.dekNonce, p).value);
    }
  }

  // ----- the encryptor -----

  /** Its keys are buffers of its own: a caller may reuse the ones it passed in. */
  class Encryptor {
    const keks: map<Version, array<Byte>>
    const current: Version

    ghost predicate Valid()
      reads set v | v in keks :: keks[v]
    {
      View().Valid()
    }

    function View(): Ring
      reads set v | v in keks :: keks[v]
    {
      Ring(map v | v in keks :: keks[v][..], current)
    }

    constructor (keks: map<Version, array<Byte>>, current: Version)
      ensures this.keks == keks && this.current == current
    {
      this.keks, this.current := keks, current;
    }

    method Seal(a: Aead, drawn: Option<Drawn>, plaintext: Bytes) returns (r: Result<Bytes, Error>)
      requires Valid() && (drawn.Some? ==> drawn.value.Valid())
      ensures r == SealUnder(a, current, View().keks[current], drawn, plaintext)
      ensures Correct(a) ==> (r.Ok? <==> drawn.Some?)
    {
      if drawn.None? { return Err(NoRandom); }
      var d := drawn.value;
      if Correct(a) { SealedOpens(a, View().keks, current, d, plaintext); }
      var wrappedDEK := GcmSeal(a, keks[current][..], d.kekNonce, d.dek);
      if wrappedDEK.Err? { return wrappedDEK; }
      var data := GcmSeal(a, d.dek, d.dekNonce, plaintext);
      if data.Err? { return data; }
      if |wrappedDEK.value| > MAX_WRAPPED_DEK_LEN { return Err(TooLarge); }
      var out: Bytes := [];
      out := out + AppendUint32(current);
      out := out + AppendUint16(|wrappedDEK.value|);
      out := out + wrappedDEK.value;
      out := out + data.value;
      assert out == Blob(current, wrappedDEK.value, data.value);
      return Ok(out);
    }

    method Open(a: Aead, blob: Bytes) returns (r: Result<Bytes, Error>)
      ensures r == Opened(a, View().keks, blob)
    {
      if |blob| < HEADER_LEN { return Err(Malformed); }
      var version := Uint32(blob[..4]);
      var wrappedLen := Uint16(blob[4..6]);
      if |blob| < HEADER_LEN + wrappedLen { return Err(Malformed); }
      var wrappedDEK := blob[HEADER_LEN..HEADER_LEN + wrappedLen];
      var data := blob[HEADER_LEN + wrappedLen..];
      if version !in keks { return Err(UnknownKeyVersion); }
      var dek := GcmOpen(a, keks[version][..], wrappedDEK);
      if dek.Err? { return dek; }
      r := GcmOpen(a, dek.value, data);
    }
  }

  method NewEncryptor(keks: map<Version, array<Byte>>, current: Version) returns (r: Result<Encryptor, Error>)
    ensures r.Ok? <==> current in keks && forall v :: v in keks ==> keks[v].Length == KEY_SIZE
    ensures r == Err(NoKeys) <==> keks == map[]
    ensures r == Err(NoCurrent) <==> keks != map[] && current !in keks
    ensures r.Ok? ==>
      && fresh(r.value) && (forall v :: v in r.value.keks ==> fresh(r.value.keks[v]))
      && r.value.Valid() && r.value.View() == Ring(map v | v in keks :: keks[v][..], current)
  {
    if keks == map[] { return Err(NoKeys); }
    if current !in keks { return Err(NoCurrent); }
    var owned: map<Version, array<Byte>> := map[];
    var left := keks.Keys;
    while left != {}
      invariant left <= keks.Keys && owned.Keys == keks.Keys - left
      invariant forall v :: v in owned ==>
        fresh(owned[v]) && keks[v].Length == KEY_SIZE && owned[v][..] == keks[v][..]
      decreases left
    {
      var v :| v in left;
      if keks[v].Length != KEY_SIZE { return Err(InvalidKey); }
      var buf := new Byte[KEY_SIZE];
      forall i | 0 <= i < KEY_SIZE { buf[i] := keks[v][i]; }
      assert buf[..] == keks[v][..];
      owned := owned[v := buf];
      left := left - {v};
    }
    var e := new Encryptor(owned, current);
    return Ok(e);
  }
}
