/** Master-key specs: "version:key" entries separated by commas, the highest version sealing. */
module Keyring {
  import opened Common
  import opened Envelope
  import opened Text

  /** Base64 is passed in, as the pair of functions of section 4 of RFC 4648. */
  datatype Base64 = Base64(encode: Bytes -> string, decode: string -> Option<Bytes>)

  datatype SpecError = EmptySpec | BadVersion | ZeroVersion | BadKey | WrongLength | Duplicate(version: Version)

  /** strconv.ParseUint in base 10 for 32 bits. */
  function ParseUint32(s: string): Option<Version> {
    var n := Digits(s);
    if n.Some? && n.value < 0x1_0000_0000 then Some(n.value) else None
  }

  function SplitKeyEntry(entry: string): Result<(Version, string), SpecError> {
    var parts := Cut(entry);
    if parts.None? then Ok((1, entry))
    else
      var n := ParseUint32(parts.value.0);
      if n.None? then Err(BadVersion)
      else if n.value == 0 then Err(ZeroVersion)
      else Ok((n.value, parts.value.1))
  }

  /** What one entry of the list says, whatever the others say. */
  function Entry(b: Base64, entry: string): (r: Result<(Version, Bytes), SpecError>)
    ensures r.Ok? ==> 1 <= r.value.0 && |r.value.1| == KEY_SIZE
    ensures r.Err? ==> !r.error.EmptySpec? && !r.error.Duplicate?
  {
    var split := SplitKeyEntry(Trim(entry));
    if split.Err? then Err(split.error)
    else
      var raw := b.decode(split.value.1);
      if raw.None? then Err(BadKey)
      else if |raw.value| != KEY_SIZE then Err(WrongLength)
      else Ok((split.value.0, raw.value))
  }

  type Read = Result<(Version, Bytes), SpecError>

  function Entries(b: Base64, parts: seq<string>): (es: seq<Read>)
    ensures |es| == |parts| && forall i :: 0 <= i < |es| ==> es[i] == Entry(b, parts[i])
  {
    seq(|parts|, i requires 0 <= i < |parts| => Entry(b, parts[i]))
  }

  function EntriesOf(b: Base64, spec: string): seq<Read> {
    Entries(b, Split(Trim(spec), ','))
  }

  /** The entry is well formed and names a version that no earlier one names. */
  ghost predicate Fine(es: seq<Read>, i: nat) {
    && i < |es| && es[i].Ok?
    && forall j :: 0 <= j < i && es[j].Ok? ==> es[j].value.0 != es[i].value.0
  }

  function ErrorOf(e: Read): SpecError {
    if e.Err? then e.error else Duplicate(e.value.0)
  }

  /** The keys are those of the first n entries, one each, and `current` is the highest version. */
  ghost predicate Holds(es: seq<Read>, n: nat, keys: Keks, current: Version) {
    && n <= |es| && |keys| == n
    && (forall i :: 0 <= i < n ==> Fine(es, i))
    && (forall i :: 0 <= i < n && es[i].Ok? ==> es[i].value.0 in keys && keys[es[i].value.0] == es[i].value.1)
    && (forall v :: v in keys ==> exists i :: 0 <= i < n && es[i] == Ok((v, keys[v])))
    && (forall v :: v in keys ==> v <= current)
    && (if n > 0 then current in keys else current == 0)
  }

  lemma NewIffFine(es: seq<Read>, n: nat, keys: Keks, current: Version)
    requires Holds(es, n, keys, current) && n < |es| && es[n].Ok?
    ensures es[n].value.0 !in keys <==> Fine(es, n)
  {
    assert forall i :: 0 <= i < n ==> Fine(es, i);
  }

  lemma HoldsOneMore(es: seq<Read>, n: nat, keys: Keks, current: Version)
    requires Holds(es, n, keys, current) && n < |es| && es[n].Ok? && es[n].value.0 !in keys && es[n].value.0 >= 1
    ensures var (v, key) := es[n].value;
            Holds(es, n + 1, keys[v := key], if v > current then v else current)
  {
    var (v, key) := es[n].value;
    var keys' := keys[v := key];
    NewIffFine(es, n, keys, current);
    assert |keys'| == n + 1;
    forall i | 0 <= i < n + 1 && es[i].Ok?
      ensures es[i].value.0 in keys' && keys'[es[i].value.0] == es[i].value.1
    {
      if i < n { assert Fine(es, i); }
    }
    forall u | u in keys'
      ensures exists i :: 0 <= i < n + 1 && es[i] == Ok((u, keys'[u]))
    {
      if u == v {
        assert es[n] == Ok((u, keys'[u]));
      } else {
        var i :| 0 <= i < n && es[i] == Ok((u, keys[u]));
      }
    }
  }

  /** The first entry that is not fine decides the error. */
  ghost predicate FailsAt(es: seq<Read>, i: nat, error: SpecError) {
    && i < |es| && !Fine(es, i) && error == ErrorOf(es[i])
    && forall j :: 0 <= j < i ==> Fine(es, j)
  }

  /**
    The list is accepted exactly when every entry is well formed and names a version no earlier
    entry names; otherwise the first entry that is not decides the error.
   */
  ghost predicate Outcome(es: seq<Read>, r: Result<Ring, SpecError>) {
    match r
    case Ok(ring) => Holds(es, |es|, ring.keks, ring.current)
    case Err(error) => exists i :: FailsAt(es, i, error)
  }

  lemma AcceptedIffAllFine(es: seq<Read>, r: Result<Ring, SpecError>)
    requires Outcome(es, r)
    ensures r.Ok? <==> forall i :: 0 <= i < |es| ==> Fine(es, i)
  {
    if r.Err? {
      var i :| FailsAt(es, i, r.error);
      assert !Fine(es, i);
    }
  }

  lemma StopsHere(es: seq<Read>, n: nat, keys: Keks, current: Version, error: SpecError)
    requires Holds(es, n, keys, current) && n < |es| && !Fine(es, n) && error == ErrorOf(es[n])
    ensures Outcome(es, Err(error))
  {
    assert FailsAt(es, n, error);
  }

  method ParseEntries(b: Base64, parts: seq<string>) returns (r: Result<Ring, SpecError>)
    ensures Outcome(Entries(b, parts), r)
  {
    ghost var es := Entries(b, parts);
    var keys: Keks := map[];
    var current: Version := 0;
    var i := 0;
    while i < |parts|
      invariant 0 <= i <= |parts|
      invariant Holds(es, i, keys, current)
    {
      var e := Entry(b, parts[i]);
      assert e == es[i];
      if e.Err? {
        StopsHere(es, i, keys, current, e.error);
        return Err(e.error);
      }
      var (version, raw) := e.value;
      NewIffFine(es, i, keys, current);
      if version in keys {
        StopsHere(es, i, keys, current, Duplicate(version));
        return Err(Duplicate(version));
      }
      HoldsOneMore(es, i, keys, current);
      keys := keys[version := raw];
      if version > current { current := version; }
      i := i + 1;
    }
    return Ok(Ring(keys, current));
  }

  method ParseKeyring(b: Base64, spec: string) returns (r: Result<Ring, SpecError>)
    ensures Trim(spec) == "" <==> r == Err(EmptySpec)
    ensures Trim(spec) != "" ==> Outcome(EntriesOf(b, spec), r)
    ensures r.Ok? ==> r.value.Valid()
  {
    var trimmed := Trim(spec);
    if trimmed == "" { return Err(EmptySpec); }
    var parts := Split(trimmed, ',');
    r := ParseEntries(b, parts);
    if r.Ok? {
      KeysAreWhole(b, parts, r.value.keks, r.value.current);
    } else {
      ghost var i :| FailsAt(Entries(b, parts), i, r.error);
    }
  }

  lemma KeysAreWhole(b: Base64, parts: seq<string>, keys: Keks, current: Version)
    requires parts != [] && Holds(Entries(b, parts), |parts|, keys, current)
    ensures Ring(keys, current).Valid() && 0 !in keys
  {
    forall v | v in keys
      ensures |keys[v]| == KEY_SIZE && v != 0
    {
      var i :| 0 <= i < |parts| && Entries(b, parts)[i] == Ok((v, keys[v]));
    }
  }

  // ----- writing a spec -----

  datatype VersionedKey = VersionedKey(version: Version, key: Bytes)

  function Written(b: Base64, k: VersionedKey): string {
    Decimal(k.version) + ":" + b.encode(k.key)
  }

  function WrittenAll(b: Base64, ks: seq<VersionedKey>): (entries: seq<string>)
    ensures |entries| == |ks| && forall i :: 0 <= i < |ks| ==> entries[i] == Written(b, ks[i])
  {
    seq(|ks|, i requires 0 <= i < |ks| => Written(b, ks[i]))
  }

  /** Decoding undoes encoding, and the alphabet has no comma and no white space. */
  ghost predicate Encodes(b: Base64, key: Bytes) {
    b.decode(b.encode(key)) == Some(key) && forall c :: c in b.encode(key) ==> c != ',' && !IsSpace(c)
  }

  ghost predicate Usable(b: Base64, k: VersionedKey) {
    k.version >= 1 && |k.key| == KEY_SIZE && Encodes(b, k.key)
  }

  predicate Solid(s: string) {
    s != "" && !IsSpace(s[0]) && !IsSpace(s[|s| - 1])
  }

  lemma WrittenIsSolid(b: Base64, k: VersionedKey)
    requires Encodes(b, k.key)
    ensures Free(Written(b, k), ',') && Solid(Written(b, k))
  {
    var s := Written(b, k);
    assert s[0] == Decimal(k.version)[0] && Decimal(k.version)[0] in Decimal(k.version);
    assert s[|s| - 1] == ':' || s[|s| - 1] in b.encode(k.key);
  }

  lemma EntryReadsBack(b: Base64, k: VersionedKey)
    requires Usable(b, k)
    ensures Entry(b, Written(b, k)) == Ok((k.version, k.key))
    ensures Free(Written(b, k), ',') && Solid(Written(b, k))
  {
    WrittenIsSolid(b, k);
    assert Trim(Written(b, k)) == Written(b, k);
    DecimalReadsBack(k.version);
    CutAtFirst(Decimal(k.version), b.encode(k.key));
    assert SplitKeyEntry(Written(b, k)) == Ok((k.version, b.encode(k.key)));
  }

  lemma {:induction false} JoinOfSolid(parts: seq<string>)
    requires parts != [] && forall p :: p in parts ==> Solid(p)
    ensures Solid(Join(parts, ','))
  {
    if |parts| > 1 {
      var rest := Join(parts[1..], ',');
      JoinOfSolid(parts[1..]);
      assert Join(parts, ',')[|Join(parts, ',')| - 1] == rest[|rest| - 1];
      assert parts[0] in parts;
    }
  }

  /** A bare key, without a version before it, is version 1. */
  lemma BareKeyIsVersionOne(b: Base64, key: Bytes)
    requires Encodes(b, key) && |key| == KEY_SIZE && b.encode(key) != "" && Free(b.encode(key), ':')
    ensures EntriesOf(b, b.encode(key)) == [Ok((1, key))]
  {
    var s := b.encode(key);
    assert s[0] in s && s[|s| - 1] in s;
    assert Trim(s) == s;
    SplitOfPrefix(s, "", ',');
    NothingToCut(s);
  }

  lemma {:induction false} NothingToCut(s: string)
    requires Free(s, ':')
    ensures Cut(s).None?
  {
    if s != "" { NothingToCut(s[1..]); }
  }

  /** What Unicode counts as white space. */
  const SPACES: string :=
    "\t\n\U{B}\U{C}\r \U{85}\U{A0}\U{1680}\U{2000}\U{2001}\U{2002}\U{2003}\U{2004}\U{2005}\U{2006}\U{2007}\U{2008}" +
    "\U{2009}\U{200A}\U{2028}\U{2029}\U{202F}\U{205F}\U{3000}"

  ghost predicate Blank(s: string) {
    forall c :: c in s ==> c in SPACES
  }

  /** White space around an entry does not matter. */
  lemma PaddingDoesNotMatter(b: Base64, left: string, entry: string, right: string)
    requires Solid(entry) && Blank(left) && Blank(right)
    ensures Entry(b, left + entry + right) == Entry(b, entry)
  {
    TrimPads(left, entry, right);
    assert Trim(entry) == entry;
  }

  lemma {:induction false} TrimPads(left: string, s: string, right: string)
    requires Solid(s) && (forall c :: c in left ==> IsSpace(c)) && forall c :: c in right ==> IsSpace(c)
    ensures Trim(left + s + right) == s
    decreases |left| + |right|
  {
    var t := left + s + right;
    if left != "" {
      assert t[1..] == left[1..] + s + right;
      TrimPads(left[1..], s, right);
    } else if right != "" {
      assert t[..|t| - 1] == left + s + right[..|right| - 1];
      TrimPads(left, s, right[..|right| - 1]);
    } else {
      assert t == s;
    }
  }

  ghost predicate Distinct(ks: seq<VersionedKey>) {
    forall i, j :: 0 <= i < j < |ks| ==> ks[i].version != ks[j].version
  }

  /**
    A list of distinct versions, written as a spec, is accepted, and the ring that ParseKeyring
    then returns has exactly these keys, the highest version current.
   */
  lemma SpecReadsBack(b: Base64, ks: seq<VersionedKey>, r: Ring)
    requires ks != [] && Distinct(ks) && forall k :: k in ks ==> Usable(b, k)
    ensures var spec := Join(WrittenAll(b, ks), ',');
            var es := EntriesOf(b, spec);
            && Trim(spec) != ""
            && (forall i :: 0 <= i < |es| ==> Fine(es, i))
            && (Holds(es, |es|, r.keks, r.current) ==>
                  && |r.keks| == |ks|
                  && (forall k :: k in ks ==>
                        k.version in r.keks && r.keks[k.version] == k.key && k.version <= r.current)
                  && exists k :: k in ks && k.version == r.current)
  {
    var es := EntriesOf(b, Join(WrittenAll(b, ks), ','));
    EntriesReadBack(b, ks);
    if Holds(es, |es|, r.keks, r.current) {
      forall k | k in ks
        ensures k.version in r.keks && r.keks[k.version] == k.key && k.version <= r.current
      {
        var i :| 0 <= i < |ks| && ks[i] == k;
        assert es[i] == Ok((k.version, k.key));
      }
      var i :| 0 <= i < |es| && es[i] == Ok((r.current, r.keks[r.current]));
      assert ks[i] in ks && ks[i].version == r.current;
    }
  }

  lemma EntriesReadBack(b: Base64, ks: seq<VersionedKey>)
    requires ks != [] && forall k :: k in ks ==> Usable(b, k)
    ensures var spec := Join(WrittenAll(b, ks), ',');
            && Trim(spec) != "" && |EntriesOf(b, spec)| == |ks|
            && forall i :: 0 <= i < |ks| ==> EntriesOf(b, spec)[i] == Ok((ks[i].version, ks[i].key))
  {
    var parts := WrittenAll(b, ks);
    forall i | 0 <= i < |ks|
      ensures Entry(b, parts[i]) == Ok((ks[i].version, ks[i].key)) && Free(parts[i], ',') && Solid(parts[i])
    {
      EntryReadsBack(b, ks[i]);
    }
    JoinOfSolid(parts);
    SplitOfJoin(parts, ',');
    assert Trim(Join(parts, ',')) == Join(parts, ',');
  }
}
