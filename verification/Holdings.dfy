/** Reservation rows: conditional release with its RETURNING rows, and the
    held counts and bytes that the quota counters are meant to mirror. */
module Holdings {
  import opened TaskTypes

  /** The WHERE clause of a release; `state = 'held'` is always part of it. */
  datatype Pick = OfKinds(kinds: set<Kind>) | CopyFor(file: FileId)

  predicate Picks(p: Pick, r: Reservation) {
    && r.held
    && match p
       case OfKinds(kinds) => r.kind in kinds
       case CopyFor(f) => r.kind == HoldCopy && r.file == Some(f)
  }

  /** UPDATE ... SET state = 'released' WHERE p */
  function Release(rs: seq<Reservation>, p: Pick): (out: seq<Reservation>)
    ensures |out| == |rs|
  {
    if rs == [] then [] else
      var r := rs[|rs| - 1];
      Release(rs[..|rs| - 1], p) + [if Picks(p, r) then r.(held := false) else r]
  }

  /** ... RETURNING: the rows the release flips. */
  function Returned(rs: seq<Reservation>, p: Pick): seq<Reservation> {
    if rs == [] then [] else
      var front, r := Returned(rs[..|rs| - 1], p), rs[|rs| - 1];
      if Picks(p, r) then front + [r] else front
  }

  function CountOf(rs: seq<Reservation>, k: Kind): nat {
    if rs == [] then 0 else
      CountOf(rs[..|rs| - 1], k) + (if rs[|rs| - 1].kind == k then 1 else 0)
  }

  function SumBytes(rs: seq<Reservation>): nat {
    if rs == [] then 0 else SumBytes(rs[..|rs| - 1]) + rs[|rs| - 1].bytes
  }

  /** How many rows of kind `k` are held. */
  function Held(rs: seq<Reservation>, k: Kind): nat {
    if rs == [] then 0 else
      var r := rs[|rs| - 1];
      Held(rs[..|rs| - 1], k) + (if r.held && r.kind == k then 1 else 0)
  }

  /** How many bytes the held rows of kind `k` carry. */
  function HeldBytes(rs: seq<Reservation>, k: Kind): nat {
    if rs == [] then 0 else
      var r := rs[|rs| - 1];
      HeldBytes(rs[..|rs| - 1], k) + (if r.held && r.kind == k then r.bytes else 0)
  }

  /** The bytes held by artifact copies of file `f`. */
  function CopyBytes(rs: seq<Reservation>, f: FileId): nat {
    if rs == [] then 0 else
      var r := rs[|rs| - 1];
      CopyBytes(rs[..|rs| - 1], f) + (if Picks(CopyFor(f), r) then r.bytes else 0)
  }

  /** How many live copies file `f` has. */
  function HeldCopies(rs: seq<Reservation>, f: FileId): nat {
    if rs == [] then 0 else
      var r := rs[|rs| - 1];
      HeldCopies(rs[..|rs| - 1], f) + (if Picks(CopyFor(f), r) then 1 else 0)
  }

  lemma {:induction false} NoCopies(rs: seq<Reservation>, f: FileId)
    requires HeldCopies(rs, f) == 0
    ensures CopyBytes(rs, f) == 0
  {
    if rs == [] {
    } else {
      NoCopies(rs[..|rs| - 1], f);
    }
  }

  /** Retained storage: what task_root and artifact_copy rows hold. */
  function Retained(rs: seq<Reservation>): nat {
    HeldBytes(rs, HoldRoot) + HeldBytes(rs, HoldCopy)
  }

  lemma HoldAdds(rs: seq<Reservation>, r: Reservation)
    ensures forall k :: Held(rs + [r], k) == Held(rs, k) + (if r.held && r.kind == k then 1 else 0)
    ensures forall k :: HeldBytes(rs + [r], k) == HeldBytes(rs, k) + (if r.held && r.kind == k then r.bytes else 0)
    ensures forall f :: CopyBytes(rs + [r], f) == CopyBytes(rs, f) + (if Picks(CopyFor(f), r) then r.bytes else 0)
    ensures forall f: FileId :: HeldCopies(rs + [r], f) == HeldCopies(rs, f) + (if Picks(CopyFor(f), r) then 1 else 0)
  {
    assert (rs + [r])[..|rs|] == rs;
  }

  /** Releasing whole kinds empties exactly those kinds. */
  lemma {:induction false} ReleaseKinds(rs: seq<Reservation>, kinds: set<Kind>)
    ensures forall k :: Held(Release(rs, OfKinds(kinds)), k) == if k in kinds then 0 else Held(rs, k)
    ensures forall k :: HeldBytes(Release(rs, OfKinds(kinds)), k) == if k in kinds then 0 else HeldBytes(rs, k)
    ensures forall f :: CopyBytes(Release(rs, OfKinds(kinds)), f) == if HoldCopy in kinds then 0 else CopyBytes(rs, f)
    ensures forall f: FileId :: HeldCopies(Release(rs, OfKinds(kinds)), f) == if HoldCopy in kinds then 0
        else HeldCopies(rs, f)
  {
    if rs == [] {
    } else {
      var front, r := rs[..|rs| - 1], rs[|rs| - 1];
      ReleaseKinds(front, kinds);
      HoldAdds(Release(front, OfKinds(kinds)), if Picks(OfKinds(kinds), r) then r.(held := false) else r);
    }
  }

  /** Releasing one file's copies takes exactly that file's bytes away. */
  lemma {:induction false} ReleaseCopy(rs: seq<Reservation>, f: FileId)
    ensures forall k | k != HoldCopy :: Held(Release(rs, CopyFor(f)), k) == Held(rs, k)
    ensures forall k | k != HoldCopy :: HeldBytes(Release(rs, CopyFor(f)), k) == HeldBytes(rs, k)
    ensures HeldBytes(Release(rs, CopyFor(f)), HoldCopy) == HeldBytes(rs, HoldCopy) - CopyBytes(rs, f)
    ensures forall g :: CopyBytes(Release(rs, CopyFor(f)), g) == if g == f then 0 else CopyBytes(rs, g)
    ensures forall g: FileId :: HeldCopies(Release(rs, CopyFor(f)), g) == if g == f then 0 else HeldCopies(rs, g)
  {
    if rs == [] {
    } else {
      var front, r := rs[..|rs| - 1], rs[|rs| - 1];
      ReleaseCopy(front, f);
      HoldAdds(Release(front, CopyFor(f)), if Picks(CopyFor(f), r) then r.(held := false) else r);
    }
  }

  lemma CountAppend(a: seq<Reservation>, r: Reservation, k: Kind)
    ensures CountOf(a + [r], k) == CountOf(a, k) + (if r.kind == k then 1 else 0)
    ensures SumBytes(a + [r]) == SumBytes(a) + r.bytes
  {
    assert (a + [r])[..|a|] == a;
  }

  /** What RETURNING reports for whole kinds is what was held in them. */
  lemma {:induction false} ReturnedKinds(rs: seq<Reservation>, kinds: set<Kind>, k: Kind)
    ensures CountOf(Returned(rs, OfKinds(kinds)), k) == if k in kinds then Held(rs, k) else 0
  {
    if rs == [] {
    } else {
      var front, r := rs[..|rs| - 1], rs[|rs| - 1];
      ReturnedKinds(front, kinds, k);
      CountAppend(Returned(front, OfKinds(kinds)), r, k);
    }
  }

  function BytesIf(rs: seq<Reservation>, kinds: set<Kind>, k: Kind): nat {
    if k in kinds then HeldBytes(rs, k) else 0
  }

  lemma BytesIfStep(rs: seq<Reservation>, kinds: set<Kind>, k: Kind)
    requires rs != []
    ensures var front, r := rs[..|rs| - 1], rs[|rs| - 1];
            BytesIf(rs, kinds, k)
              == BytesIf(front, kinds, k) + if r.held && r.kind == k && k in kinds then r.bytes else 0
  {
  }

  lemma {:induction false} ReturnedBytes(rs: seq<Reservation>, kinds: set<Kind>)
    ensures SumBytes(Returned(rs, OfKinds(kinds))) ==
      BytesIf(rs, kinds, HoldActive) + BytesIf(rs, kinds, HoldRunning) +
      BytesIf(rs, kinds, HoldRoot) + BytesIf(rs, kinds, HoldCopy)
  {
    if rs == [] {
    } else {
      var front, r := rs[..|rs| - 1], rs[|rs| - 1];
      ReturnedBytes(front, kinds);
      forall k: Kind ensures BytesIf(rs, kinds, k)
                          == BytesIf(front, kinds, k) + if r.held && r.kind == k && k in kinds then r.bytes else 0 {
        BytesIfStep(rs, kinds, k);
      }
      hide BytesIf;
      CountAppend(Returned(front, OfKinds(kinds)), r, r.kind);
    }
  }

  /** What RETURNING reports for one file's copies. */
  lemma {:induction false} ReturnedCopy(rs: seq<Reservation>, f: FileId)
    ensures SumBytes(Returned(rs, CopyFor(f))) == CopyBytes(rs, f)
  {
    if rs == [] {
    } else {
      var front, r := rs[..|rs| - 1], rs[|rs| - 1];
      ReturnedCopy(front, f);
      CountAppend(Returned(front, CopyFor(f)), r, r.kind);
    }
  }

  /** A second release finds nothing left to release. */
  lemma {:induction false} ReleasedStays(rs: seq<Reservation>, p: Pick)
    ensures Returned(Release(rs, p), p) == []
  {
    if rs == [] {
    } else {
      var front, r := rs[..|rs| - 1], rs[|rs| - 1];
      ReleasedStays(front, p);
      var r' := if Picks(p, r) then r.(held := false) else r;
      assert (Release(front, p) + [r'])[..|front|] == Release(front, p);
    }
  }
}
