/** The storage quota: a row lock per workspace around sum, check and insert, with deletes running free. */
module MediaQuota {
  import opened Common

  type WorkspaceId = string
  type AssetId = string
  type Key = string
  type TxId = nat

  datatype Kind = Image | Gif | Video

  datatype Asset = Asset(id: AssetId, workspace: WorkspaceId, kind: Kind, key: Key, bytes: nat)

  const MAX_IMAGE_BYTES := 5 * 1024 * 1024
  const MAX_GIF_BYTES := 15 * 1024 * 1024
  const MAX_VIDEO_BYTES := 512 * 1024 * 1024

  /** The accepted content types. */
  function KindForMime(mime: string): Option<Kind> {
    if mime == "image/jpeg" || mime == "image/png" then Some(Image)
    else if mime == "image/gif" then Some(Gif)
    else if mime == "video/mp4" || mime == "video/quicktime" then Some(Video)
    else None
  }

  function MaxBytes(kind: Kind): nat {
    match kind
    case Gif => MAX_GIF_BYTES
    case Video => MAX_VIDEO_BYTES
    case Image => MAX_IMAGE_BYTES
  }

  /** The accepted types and their limits: 5 MiB for images, 15 for GIFs, 512 for videos. */
  lemma TypesAndLimits(mime: string)
    ensures KindForMime(mime) == Some(Image) <==> mime == "image/jpeg" || mime == "image/png"
    ensures KindForMime(mime) == Some(Gif) <==> mime == "image/gif"
    ensures KindForMime(mime) == Some(Video) <==> mime == "video/mp4" || mime == "video/quicktime"
    ensures MaxBytes(Image) == 5_242_880 && MaxBytes(Gif) == 15_728_640 && MaxBytes(Video) == 536_870_912
  {
  }

  /** SumMediaBytesForWorkspace. */
  function Used(assets: seq<Asset>, w: WorkspaceId): nat {
    if assets == [] then 0
    else
      var last := assets[|assets| - 1];
      Used(assets[..|assets| - 1], w) + if last.workspace == w then last.bytes else 0
  }

  /** DeleteMediaAsset. */
  function Without(assets: seq<Asset>, id: AssetId): seq<Asset> {
    if assets == [] then []
    else
      var rest := Without(assets[..|assets| - 1], id);
      if assets[|assets| - 1].id == id then rest else rest + [assets[|assets| - 1]]
  }

  lemma UsedOfInsert(assets: seq<Asset>, a: Asset, w: WorkspaceId)
    ensures Used(assets + [a], w) == Used(assets, w) + if a.workspace == w then a.bytes else 0
  {
    assert (assets + [a])[..|assets|] == assets;
  }

  lemma {:induction false} DeletingFreesSpace(assets: seq<Asset>, id: AssetId, w: WorkspaceId)
    ensures Used(Without(assets, id), w) <= Used(assets, w)
  {
    if assets != [] {
      DeletingFreesSpace(assets[..|assets| - 1], id, w);
      UsedOfInsert(Without(assets[..|assets| - 1], id), assets[|assets| - 1], w);
    }
  }

  lemma {:induction false} DeletingTakesTheRow(assets: seq<Asset>, id: AssetId, a: Asset)
    ensures a in Without(assets, id) <==> a in assets && a.id != id
  {
    if assets != [] {
      DeletingTakesTheRow(assets[..|assets| - 1], id, a);
      assert assets == assets[..|assets| - 1] + [assets[|assets| - 1]];
    }
  }

  // ----- concurrent transactions -----

  /** Where an upload's transaction stands. `Summed` keeps the total it read. */
  datatype Phase = Begun | Locked | Summed(total: nat) | Inserted

  datatype Tx = Tx(row: Asset, phase: Phase)

  datatype Sys = Sys(assets: seq<Asset>, txs: map<TxId, Tx>, locks: map<WorkspaceId, TxId>)

  /** One statement of one transaction, or a delete by somebody else. A commit may fail either way. */
  datatype Event =
    | Begin(tx: TxId, row: Asset)
    | Lock(tx: TxId)
    | Sum(tx: TxId)
    | Insert(tx: TxId)
    | Commit(tx: TxId, applied: bool)
    | Abort(tx: TxId)
    | Delete(id: AssetId)

  predicate At(s: Sys, t: TxId, phase: Phase) {
    t in s.txs && s.txs[t].phase == phase
  }

  function Move(s: Sys, t: TxId, phase: Phase): Sys
    requires t in s.txs
  {
    s.(txs := s.txs[t := s.txs[t].(phase := phase)])
  }

  /** The end of a transaction gives its lock back. */
  function End(s: Sys, t: TxId): Sys
    requires t in s.txs
  {
    var w := s.txs[t].row.workspace;
    s.(txs := s.txs - {t}, locks := if s.txs[t].phase.Begun? then s.locks else s.locks - {w})
  }

  /** Events that cannot happen where they occur, such as taking a lock that is held, change nothing. */
  function Apply(s: Sys, max: int, e: Event): Sys {
    match e
    case Begin(t, row) => if t in s.txs then s else s.(txs := s.txs[t := Tx(row, Begun)])
    case Lock(t) =>
      if !At(s, t, Begun) || s.txs[t].row.workspace in s.locks then s
      else Move(s.(locks := s.locks[s.txs[t].row.workspace := t]), t, Locked)
    case Sum(t) => if !At(s, t, Locked) then s else Move(s, t, Summed(Used(s.assets, s.txs[t].row.workspace)))
    case Insert(t) =>
      if !(t in s.txs && s.txs[t].phase.Summed?) then s
      else if s.txs[t].phase.total + s.txs[t].row.bytes > max then End(s, t)
      else Move(s, t, Inserted)
    case Commit(t, applied) =>
      if !At(s, t, Inserted) then s
      else End(if applied then s.(assets := s.assets + [s.txs[t].row]) else s, t)
    case Abort(t) => if t !in s.txs then s else End(s, t)
    case Delete(id) => s.(assets := Without(s.assets, id))
  }

  function Run(s: Sys, max: int, events: seq<Event>): Sys
    decreases |events|
  {
    if events == [] then s else Run(Apply(s, max, events[0]), max, events[1..])
  }

  /** What the holder of the lock knows stays true while others delete. */
  ghost predicate Knows(s: Sys, max: int, t: TxId)
    requires t in s.txs
  {
    var row := s.txs[t].row;
    match s.txs[t].phase
    case Begun => true
    case Locked => true
    case Summed(total) => Used(s.assets, row.workspace) <= total
    case Inserted => Used(s.assets, row.workspace) + row.bytes <= max
  }

  ghost predicate Holds(s: Sys, t: TxId)
    requires t in s.txs
  {
    !s.txs[t].phase.Begun? ==> s.txs[t].row.workspace in s.locks && s.locks[s.txs[t].row.workspace] == t
  }

  ghost predicate Inv(s: Sys, max: int) {
    forall t :: t in s.txs ==> Holds(s, t) && Knows(s, max, t)
  }

  lemma CommitKeepsInv(s: Sys, max: int, t: TxId, applied: bool)
    requires Inv(s, max)
    ensures Inv(Apply(s, max, Commit(t, applied)), max)
  {
    var s' := Apply(s, max, Commit(t, applied));
    if At(s, t, Inserted) {
      var row := s.txs[t].row;
      forall u | u in s'.txs
        ensures Holds(s', u) && Knows(s', max, u)
      {
        assert Holds(s, u) && Knows(s, max, u) && Holds(s, t);
        UsedOfInsert(s.assets, row, s.txs[u].row.workspace);
      }
    }
  }

  lemma DeleteKeepsInv(s: Sys, max: int, id: AssetId)
    requires Inv(s, max)
    ensures Inv(Apply(s, max, Delete(id)), max)
  {
    var s' := Apply(s, max, Delete(id));
    forall t | t in s'.txs
      ensures Holds(s', t) && Knows(s', max, t)
    {
      assert Holds(s, t) && Knows(s, max, t);
      DeletingFreesSpace(s.assets, id, s.txs[t].row.workspace);
    }
  }

  lemma EndKeepsInv(s: Sys, max: int, t: TxId)
    requires Inv(s, max) && t in s.txs
    ensures Inv(End(s, t), max)
  {
    var s' := End(s, t);
    forall u | u in s'.txs
      ensures Holds(s', u) && Knows(s', max, u)
    {
      assert Holds(s, u) && Knows(s, max, u) && Holds(s, t);
    }
  }

  lemma StepKeepsInv(s: Sys, max: int, e: Event)
    requires Inv(s, max)
    ensures Inv(Apply(s, max, e), max)
  {
    match e
    case Commit(t, applied) => CommitKeepsInv(s, max, t, applied);
    case Delete(id) => DeleteKeepsInv(s, max, id);
    case Abort(t) => if t in s.txs { EndKeepsInv(s, max, t); }
    case Insert(t) =>
      if t in s.txs && s.txs[t].phase.Summed? {
        assert Knows(s, max, t);
        EndKeepsInv(s, max, t);
      }
    case _ =>
  }

  /** Other statements leave committed bytes alone; a commit adds only what was checked. */
  lemma StepStaysWithin(s: Sys, max: int, e: Event, w: WorkspaceId)
    requires Inv(s, max)
    ensures Used(Apply(s, max, e).assets, w) <= Used(s.assets, w) || Used(Apply(s, max, e).assets, w) <= max
  {
    match e
    case Commit(t, applied) =>
      if At(s, t, Inserted) && applied {
        assert Knows(s, max, t);
        UsedOfInsert(s.assets, s.txs[t].row, w);
      }
    case Delete(id) => DeletingFreesSpace(s.assets, id, w);
    case _ =>
  }

  /**
    However uploads and deletes interleave, whichever of them die on the way: a workspace within its
    quota stays within it, and one above it (the limit was lowered) never grows.
   */
  lemma {:induction false} QuotaHolds(s: Sys, max: int, events: seq<Event>, w: WorkspaceId)
    requires Inv(s, max)
    ensures var s' := Run(s, max, events);
            && Inv(s', max)
            && Used(s'.assets, w) <= if Used(s.assets, w) <= max then max else Used(s.assets, w)
    decreases |events|
  {
    if events != [] {
      StepKeepsInv(s, max, events[0]);
      StepStaysWithin(s, max, events[0], w);
      QuotaHolds(Apply(s, max, events[0]), max, events[1..], w);
    }
  }

  lemma EmptyStaysWithinQuota(max: nat, events: seq<Event>, w: WorkspaceId)
    ensures Used(Run(Sys([], map[], map[]), max, events).assets, w) <= max
  {
    QuotaHolds(Sys([], map[], map[]), max, events, w);
  }

  predicate Past(s: Sys, t: TxId) {
    t in s.txs && !s.txs[t].phase.Begun?
  }

  /** An upload that nothing comes between is stored exactly when it fits beside what is there. */
  lemma UndisturbedUploadIff(assets: seq<Asset>, max: int, row: Asset)
    ensures Run(Sys(assets, map[], map[]), max, [Begin(0, row), Lock(0), Sum(0)] + [Insert(0), Commit(0, true)]) ==
      Sys(if Used(assets, row.workspace) + row.bytes <= max then assets + [row] else assets, map[], map[])
  {
    var s, w := Sys(assets, map[], map[]), row.workspace;
    var s3 := Sys(assets, map[0 := Tx(row, Summed(Used(assets, w)))], map[w := 0]);
    assert Apply(s, max, Begin(0, row)) == Sys(assets, map[0 := Tx(row, Begun)], map[]);
    assert Apply(Sys(assets, map[0 := Tx(row, Begun)], map[]), max, Lock(0)) ==
      Sys(assets, map[0 := Tx(row, Locked)], map[w := 0]);
    assert Apply(Sys(assets, map[0 := Tx(row, Locked)], map[w := 0]), max, Sum(0)) == s3;
    RunThree(s, max, Begin(0, row), Lock(0), Sum(0));
    InsertAndCommit(assets, max, row);
    RunAppends(s, max, [Begin(0, row), Lock(0), Sum(0)], [Insert(0), Commit(0, true)]);
  }

  lemma InsertAndCommit(assets: seq<Asset>, max: int, row: Asset)
    ensures Run(Sys(assets, map[0 := Tx(row, Summed(Used(assets, row.workspace)))], map[row.workspace := 0]), max,
                [Insert(0), Commit(0, true)]) ==
      Sys(if Used(assets, row.workspace) + row.bytes <= max then assets + [row] else assets, map[], map[])
  {
    var w := row.workspace;
    var s := Sys(assets, map[0 := Tx(row, Summed(Used(assets, w)))], map[w := 0]);
    var s1 := Apply(s, max, Insert(0));
    assert [Insert(0), Commit(0, true)][1..] == [Commit(0, true)] && [Commit(0, true)][1..] == [];
    assert Run(s, max, [Insert(0), Commit(0, true)]) == Apply(s1, max, Commit(0, true));
    if Used(assets, w) + row.bytes <= max {
      assert s1 == Sys(assets, map[0 := Tx(row, Inserted)], map[w := 0]);
      assert Apply(s1, max, Commit(0, true)) == Sys(assets + [row], map[], map[]);
    } else {
      assert s1 == Sys(assets, map[], map[]);
    }
  }

  lemma RunThree(s: Sys, max: int, a: Event, b: Event, c: Event)
    ensures Run(s, max, [a, b, c]) == Apply(Apply(Apply(s, max, a), max, b), max, c)
  {
    assert [a, b, c][1..] == [b, c];
    assert [b, c][1..] == [c];
    assert [c][1..] == [];
    var s2 := Apply(Apply(s, max, a), max, b);
    assert Run(s2, max, [c]) == Apply(s2, max, c);
    assert Run(s, max, [a, b, c]) == Run(Apply(s, max, a), max, [b, c]) == Run(s2, max, [c]);
  }

  lemma {:induction false} RunAppends(s: Sys, max: int, a: seq<Event>, b: seq<Event>)
    ensures Run(s, max, a + b) == Run(Run(s, max, a), max, b)
    decreases |a|
  {
    if a == [] {
      assert a + b == b;
    } else {
      assert (a + b)[1..] == a[1..] + b;
      RunAppends(Apply(s, max, a[0]), max, a[1..], b);
    }
  }

  /** Two transactions of one workspace are never both past the lock. */
  lemma LockIsExclusive(max: int, start: seq<Asset>, events: seq<Event>, t: TxId, u: TxId)
    ensures var s := Run(Sys(start, map[], map[]), max, events);
            Past(s, t) && Past(s, u) && s.txs[t].row.workspace == s.txs[u].row.workspace ==> t == u
  {
    QuotaHolds(Sys(start, map[], map[]), max, events, "");
    var s := Run(Sys(start, map[], map[]), max, events);
    assert t in s.txs ==> Holds(s, t);
    assert u in s.txs ==> Holds(s, u);
  }

  // ----- the service -----

  datatype Error = Unsupported | EmptyFile | TooLarge | QuotaExceeded | NotFound | Internal

  /** The first call that fails. `InsertFails` is the insert or the commit, with or without effect. */
  datatype Fault = Healthy | ReadFails | PutFails | LockFails | InsertFails(applied: bool)

  datatype DeleteFault = DeleteHealthy | LookupFails | RowStays

  /** GetMediaAsset. */
  function Lookup(assets: seq<Asset>, id: AssetId): (a: Option<Asset>)
    ensures a.Some? ==> a.value in assets && a.value.id == id
    ensures a.None? ==> forall x :: x in assets ==> x.id != id
  {
    if assets == [] then None
    else if assets[|assets| - 1].id == id then Some(assets[|assets| - 1])
    else Lookup(assets[..|assets| - 1], id)
  }

  ghost predicate UniqueIds(assets: seq<Asset>) {
    forall a, b :: a in assets && b in assets && a.id == b.id ==> a == b
  }

  class MediaService {
    var assets: seq<Asset>
    var objects: set<Key>
    const maxUpload: int
    const maxWorkspace: int

    constructor (maxUpload: int, maxWorkspace: int)
      ensures assets == [] && objects == {} && this.maxUpload == maxUpload && this.maxWorkspace == maxWorkspace
    {
      assets, objects, this.maxUpload, this.maxWorkspace := [], {}, maxUpload, maxWorkspace;
    }

    /** The rows of the table never outgrow a workspace's quota. */
    ghost predicate WithinQuota()
      reads this
    {
      forall w :: Used(assets, w) <= if maxWorkspace < 0 then 0 else maxWorkspace
    }

    predicate Room(w: WorkspaceId, bytes: nat)
      reads this
    {
      Used(assets, w) + bytes <= maxWorkspace
    }

    method InsertWithinQuota(row: Asset, fault: Fault) returns (r: Result<Asset, Error>)
      modifies this`assets
      ensures r.Ok? <==> old(Room(row.workspace, row.bytes)) && !fault.LockFails? && !fault.InsertFails?
      ensures r.Ok? ==> r.value == row
      ensures r == Err(QuotaExceeded) <==> !old(Room(row.workspace, row.bytes)) && !fault.LockFails?
      ensures r.Err? ==> r.error.QuotaExceeded? || r.error.Internal?
      ensures assets == old(assets) +
        (if r.Ok? || (r == Err(Internal) && fault == InsertFails(true)) then [row] else [])
      ensures old(WithinQuota()) ==> WithinQuota()
    {
      if fault.LockFails? { return Err(Internal); }
      var total := Used(assets, row.workspace);
      if total + row.bytes > maxWorkspace { return Err(QuotaExceeded); }
      if !fault.InsertFails? || fault.applied {
        forall w
          ensures Used(assets + [row], w) == Used(assets, w) + if row.workspace == w then row.bytes else 0
        {
          UsedOfInsert(assets, row, w);
        }
        assets := assets + [row];
      }
      return if fault.InsertFails? then Err(Internal) else Ok(row);
    }

    /** Over the limit for a file or for its kind, by the size claimed or, for a buffered image, by the bytes read. */
    predicate TooBig(kind: Kind, size: int, actual: nat, fault: Fault) {
      || size > maxUpload || size > MaxBytes(kind)
      || (!kind.Video? && !fault.ReadFails? && actual > MaxBytes(kind))
    }

    /** The upload gets as far as asking for room. */
    predicate AsksForRoom(kind: Option<Kind>, size: int, actual: nat, fault: Fault) {
      && kind.Some? && 0 < size && !TooBig(kind.value, size, actual, fault)
      && !fault.PutFails? && !fault.LockFails? && (fault.ReadFails? ==> kind.value.Video?)
    }

    /**
      `size` is what the caller claims; images and GIFs are buffered and stored with the bytes
      actually read, `actual`.
     */
    method Upload(w: WorkspaceId, mime: string, size: int, actual: nat, id: AssetId, key: Key, fault: Fault,
                  cleanupFails: bool)
      returns (r: Result<Asset, Error>)
      requires key !in objects
      modifies this
      ensures var kind := KindForMime(mime);
              var bytes := if kind == Some(Video) then size else actual;
              && (r == Err(Unsupported) <==> kind.None?)
              && (r == Err(EmptyFile) <==> kind.Some? && size <= 0)
              && (r == Err(TooLarge) <==> kind.Some? && 0 < size && TooBig(kind.value, size, actual, fault))
              && (r == Err(QuotaExceeded) <==> AsksForRoom(kind, size, actual, fault) && !old(Room(w, bytes)))
              && (r.Ok? <==>
                    AsksForRoom(kind, size, actual, fault) && old(Room(w, bytes)) && !fault.InsertFails?)
              && (r.Ok? ==> r.value == Asset(id, w, kind.value, key, bytes))
      ensures r != Err(NotFound)
      ensures r.Ok? ==> assets == old(assets) + [r.value] && objects == old(objects) + {key}
      ensures r.Err? ==> objects == old(objects) || (cleanupFails && objects == old(objects) + {key})
      ensures r.Err? && !fault.InsertFails? ==> assets == old(assets)
      ensures old(WithinQuota()) ==> WithinQuota()
    {
      var kind := KindForMime(mime);
      if kind.None? { return Err(Unsupported); }
      if size <= 0 { return Err(EmptyFile); }
      if size > maxUpload || size > MaxBytes(kind.value) { return Err(TooLarge); }
      var putSize := size;
      if kind.value.Image? || kind.value.Gif? {
        if fault.ReadFails? { return Err(Internal); }
        if actual > MaxBytes(kind.value) { return Err(TooLarge); }
        putSize := actual;
      }
      if fault.PutFails? { return Err(Internal); }
      objects := objects + {key};
      r := InsertWithinQuota(Asset(id, w, kind.value, key, putSize), fault);
      if r.Err? && !cleanupFails { objects := objects - {key}; }
    }

    /** The object goes first, best effort; the row decides. */
    method Delete(w: WorkspaceId, id: AssetId, fault: DeleteFault, objectStays: bool) returns (r: Result<(), Error>)
      requires UniqueIds(assets)
      modifies this
      ensures UniqueIds(assets)
      ensures !fault.LookupFails? ==>
        (r == Err(NotFound) <==> forall a :: a in old(assets) && a.id == id ==> a.workspace != w)
      ensures r.Ok? ==>
        && fault.DeleteHealthy? && (exists a :: a in old(assets) && a.id == id && a.workspace == w)
        && (forall a :: a in assets <==> a in old(assets) && a.id != id)
      ensures r.Err? ==> assets == old(assets)
      ensures forall a :: a in old(assets) && a.id == id && a.workspace == w && !fault.LookupFails? && !objectStays ==>
        objects == old(objects) - {a.key}
      ensures r == Err(NotFound) || fault.LookupFails? || objectStays ==> objects == old(objects)
      ensures old(WithinQuota()) ==> WithinQuota()
    {
      if fault.LookupFails? { return Err(Internal); }
      var row := Lookup(assets, id);
      if row.None? || row.value.workspace != w { return Err(NotFound); }
      if !objectStays { objects := objects - {row.value.key}; }
      if fault.RowStays? { return Err(Internal); }
      forall v
        ensures Used(Without(assets, id), v) <= Used(assets, v)
      {
        DeletingFreesSpace(assets, id, v);
      }
      forall a
        ensures a in Without(assets, id) <==> a in assets && a.id != id
      {
        DeletingTakesTheRow(assets, id, a);
      }
      assets := Without(assets, id);
      r := Ok(());
    }
  }
}
