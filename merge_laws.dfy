/** Laws of the `findings` reducer: what `merge_findings` keeps, adds and
    amends, and why re-applying it (as the graph does when a node returns
    the whole state) is harmless. */
module MergeLaws {
  import opened Wrappers
  import opened States

  /** A stored finding: keywords present, no repeated keyword or source id. */
  predicate FindingOk(f: Finding) {
    f.keywords.Some? && NoDup(f.keywords.value) && NoDup(f.sourceChunkIds)
  }

  /** The `findings` channel: distinct ids, every finding well formed. */
  predicate StoreOk(fs: seq<Finding>) {
    NoDup(Ids(fs)) && forall f :: f in fs ==> FindingOk(f)
  }

  /** A delta the nodes produce: no repeated keyword or source id. */
  predicate DeltaOk(d: Finding) {
    (d.keywords.Some? ==> NoDup(d.keywords.value)) && NoDup(d.sourceChunkIds)
  }

  predicate EntriesOk(t: FindingTable) {
    forall k :: k in t.entries ==> FindingOk(t.entries[k])
  }

  // ---------------------------------------------------------------------
  // Ids: nothing is lost, every id appears once, order is kept
  // ---------------------------------------------------------------------

  lemma ListingIds(t: FindingTable)
    requires TableOk(t)
    ensures Ids(Listing(t)) == t.keys
  {
    var r := Listing(t);
    assert forall j :: 0 <= j < |t.keys| ==> Ids(r)[j] == t.keys[j];
  }

  lemma IdsSnoc(p: seq<Finding>, f: Finding)
    ensures Ids(p + [f]) == Ids(p) + [f.id]
  {
    assert forall j :: 0 <= j < |p| ==> (p + [f])[j] == p[j];
  }

  lemma IdsInit(fs: seq<Finding>)
    requires fs != []
    ensures Ids(fs) == Ids(fs[..|fs| - 1]) + [fs[|fs| - 1].id]
  {
    assert fs == fs[..|fs| - 1] + [fs[|fs| - 1]];
    IdsSnoc(fs[..|fs| - 1], fs[|fs| - 1]);
  }

  lemma {:induction false} IndexKeys(fs: seq<Finding>)
    ensures Index(fs).keys == Dedup(Ids(fs))
    decreases |fs|
  {
    if fs != [] {
      var p := fs[..|fs| - 1];
      var last := fs[|fs| - 1];
      IndexKeys(p);
      assert fs == p + [last];
      IdsSnoc(p, last);
      DedupSnoc(Ids(p), last.id);
      var t := Index(p);
      assert Index(fs) == Put(t, last);
      assert last.id in t.entries <==> last.id in t.keys;
    }
  }

  lemma {:induction false} UpsertAllKeys(t: FindingTable, s: seq<string>, ds: seq<Finding>)
    requires TableOk(t) && t.keys == Dedup(s)
    ensures UpsertAll(t, ds).keys == Dedup(s + Ids(ds))
    decreases |ds|
  {
    if ds == [] {
      assert s + Ids(ds) == s;
    } else {
      var q := ds[..|ds| - 1];
      var d := ds[|ds| - 1];
      UpsertAllKeys(t, s, q);
      IdsInit(ds);
      assert s + Ids(ds) == (s + Ids(q)) + [d.id];
      UpsertKeys(UpsertAll(t, q), s + Ids(q), d);
    }
  }

  /** One upsert adds the delta's id to the keys exactly when it is new. */
  lemma UpsertKeys(t: FindingTable, s: seq<string>, d: Finding)
    requires TableOk(t) && t.keys == Dedup(s)
    ensures Upsert(t, d).keys == Dedup(s + [d.id])
  {
    DedupSnoc(s, d.id);
    assert d.id in t.entries <==> d.id in t.keys;
    assert WithKeywords(d).id == d.id;
  }

  /** `merge_findings` loses no finding: the result holds the ids of the
      existing list followed by the new ids in order of first appearance,
      each exactly once. */
  lemma MergeKeepsEveryId(existing: seq<Finding>, incoming: seq<Finding>)
    ensures Ids(Merged(existing, incoming)) == Dedup(Ids(existing) + Ids(incoming))
    ensures NoDup(Ids(Merged(existing, incoming)))
  {
    var t := Index(existing);
    IndexKeys(existing);
    UpsertAllKeys(t, Ids(existing), incoming);
    ListingIds(UpsertAll(t, incoming));
  }

  // ---------------------------------------------------------------------
  // One delta at a time
  // ---------------------------------------------------------------------

  lemma {:induction false} IndexDistinct(fs: seq<Finding>)
    requires NoDup(Ids(fs))
    ensures Index(fs).keys == Ids(fs)
    ensures forall j :: 0 <= j < |fs| ==> fs[j].id in Index(fs).entries && Index(fs).entries[fs[j].id] == fs[j]
    decreases |fs|
  {
    if fs != [] {
      var p := fs[..|fs| - 1];
      var last := fs[|fs| - 1];
      assert fs == p + [last];
      IdsSnoc(p, last);
      assert Ids(fs)[..|fs| - 1] == Ids(p);
      IndexDistinct(p);
      var t := Index(p);
      assert last.id !in t.keys by {
        forall j | 0 <= j < |p| ensures Ids(p)[j] != last.id {
          assert Ids(fs)[j] == Ids(p)[j] && Ids(fs)[|fs| - 1] == last.id;
        }
      }
      PutNew(t, p, last);
    }
  }

  /** Adding a finding under a new key to the table of `p`. */
  lemma PutNew(t: FindingTable, p: seq<Finding>, last: Finding)
    requires TableOk(t) && t.keys == Ids(p) && last.id !in t.keys
    requires forall j :: 0 <= j < |p| ==> p[j].id in t.entries && t.entries[p[j].id] == p[j]
    ensures Put(t, last).keys == Ids(p) + [last.id]
    ensures forall j :: 0 <= j < |p| + 1 ==>
      (p + [last])[j].id in Put(t, last).entries && Put(t, last).entries[(p + [last])[j].id] == (p + [last])[j]
  {
    var e := t.entries[last.id := last];
    assert Put(t, last).entries == e;
    forall j | 0 <= j < |p| + 1
      ensures (p + [last])[j].id in e && e[(p + [last])[j].id] == (p + [last])[j]
    {
      if j < |p| {
        assert (p + [last])[j] == p[j];
        assert p[j].id in t.keys;
      }
    }
  }

  lemma IndexListsBack(fs: seq<Finding>)
    requires NoDup(Ids(fs))
    ensures Listing(Index(fs)) == fs
  {
    IndexDistinct(fs);
    ListingOf(Index(fs), fs);
  }

  /** A table whose keys are the ids of `fs`, each mapped to its finding,
      lists back as `fs`. */
  lemma ListingOf(t: FindingTable, fs: seq<Finding>)
    requires forall k :: k in t.keys ==> k in t.entries
    requires t.keys == Ids(fs)
    requires forall j :: 0 <= j < |fs| ==> fs[j].id in t.entries && t.entries[fs[j].id] == fs[j]
    ensures Listing(t) == fs
  {
    forall j | 0 <= j < |fs| ensures Listing(t)[j] == fs[j] {
      assert t.keys[j] == fs[j].id;
    }
  }

  /** Merging a delta whose id is already stored amends that finding in
      place: non-empty texts replace the old ones, empty or missing ones keep
      them, source ids and keywords become set unions, and every other finding
      is untouched. */
  lemma MergeAmendsExisting(existing: seq<Finding>, delta: Finding, i: nat)
    requires NoDup(Ids(existing))
    requires i < |existing| && existing[i].id == delta.id
    ensures Merged(existing, [delta]) == existing[i := Amend(existing[i], delta)]
    ensures var r := Merged(existing, [delta])[i]; var e := existing[i];
      && r.id == e.id
      && (Filled(delta.title) ==> r.title == delta.title)
      && (!Filled(delta.title) ==> r.title == e.title)
      && (Filled(delta.summary) ==> r.summary == delta.summary)
      && (!Filled(delta.summary) ==> r.summary == e.summary)
      && (Filled(delta.methodology) ==> r.methodology == delta.methodology)
      && (!Filled(delta.methodology) ==> r.methodology == e.methodology)
      && NoDup(r.sourceChunkIds)
      && (forall c :: c in r.sourceChunkIds <==> c in e.sourceChunkIds || c in delta.sourceChunkIds)
      && (delta.keywords.Some? && e.keywords.Some? ==>
            r.keywords.Some? && NoDup(r.keywords.value)
            && forall k :: k in r.keywords.value <==> k in e.keywords.value || k in delta.keywords.value)
      && (delta.keywords.Some? && e.keywords.None? ==> r.keywords == delta.keywords)
      && (delta.keywords.None? ==> r.keywords == e.keywords)
  {
    AmendAt(existing, delta, i);
  }

  /** The list equation behind `MergeAmendsExisting`. */
  lemma AmendAt(existing: seq<Finding>, delta: Finding, i: nat)
    requires NoDup(Ids(existing))
    requires i < |existing| && existing[i].id == delta.id
    ensures Merged(existing, [delta]) == existing[i := Amend(existing[i], delta)]
  {
    var t := Index(existing);
    IndexDistinct(existing);
    assert [delta][..0] == [];
    assert UpsertAll(t, [delta]) == Upsert(t, delta);
    var a := Amend(existing[i], delta);
    var t2 := FindingTable(t.keys, t.entries[delta.id := a]);
    assert UpsertAll(t, [delta]) == t2;
    var r := Listing(t2);
    forall j | 0 <= j < |existing| ensures r[j] == existing[i := a][j] {
      if j != i {
        assert Ids(existing)[j] != Ids(existing)[i];
      }
    }
  }

  lemma IdsUpdate(fs: seq<Finding>, i: nat, f: Finding)
    requires i < |fs| && f.id == fs[i].id
    ensures Ids(fs[i := f]) == Ids(fs)
  {
    assert forall j :: 0 <= j < |fs| ==> Ids(fs[i := f])[j] == Ids(fs)[j];
  }

  /** Merging a delta under an unseen id appends it, with `keywords`
      defaulted to `[]` when the delta has none. */
  lemma MergeInsertsNew(existing: seq<Finding>, delta: Finding)
    requires NoDup(Ids(existing))
    requires delta.id !in Ids(existing)
    ensures Merged(existing, [delta]) == existing + [WithKeywords(delta)]
    ensures var r := Merged(existing, [delta])[|existing|];
      && r.id == delta.id && r.title == delta.title && r.summary == delta.summary
      && r.methodology == delta.methodology && r.sourceChunkIds == delta.sourceChunkIds
      && r.keywords == (if delta.keywords.Some? then delta.keywords else Some([]))
  {
    InsertAt(existing, delta);
  }

  /** The list equation behind `MergeInsertsNew`. */
  lemma InsertAt(existing: seq<Finding>, delta: Finding)
    requires NoDup(Ids(existing))
    requires delta.id !in Ids(existing)
    ensures Merged(existing, [delta]) == existing + [WithKeywords(delta)]
  {
    var t := Index(existing);
    IndexDistinct(existing);
    var w := WithKeywords(delta);
    assert UpsertAll(t, [delta]) == Put(t, w) by {
      assert [delta][..0] == [];
    }
    PutNew(t, existing, w);
    IdsSnoc(existing, w);
    ListingOf(Put(t, w), existing + [w]);
  }

  // ---------------------------------------------------------------------
  // Idempotence
  // ---------------------------------------------------------------------

  lemma AmendTwice(e: Finding, d: Finding)
    requires FindingOk(e) && DeltaOk(d)
    ensures Amend(Amend(e, d), d) == Amend(e, d)
  {
    var a := Amend(e, d);
    DedupAbsorbs(a.sourceChunkIds, d.sourceChunkIds);
    if d.keywords.Some? {
      DedupAbsorbs(a.keywords.value, d.keywords.value);
    }
  }

  lemma AmendInserted(d: Finding)
    requires DeltaOk(d)
    ensures Amend(WithKeywords(d), d) == WithKeywords(d)
  {
    DedupAbsorbs(d.sourceChunkIds, d.sourceChunkIds);
    if d.keywords.Some? {
      DedupAbsorbs(d.keywords.value, d.keywords.value);
    }
  }

  /** Merging the same delta twice equals merging it once. */
  lemma MergeSameDeltaTwice(existing: seq<Finding>, delta: Finding)
    requires StoreOk(existing) && DeltaOk(delta)
    ensures Merged(Merged(existing, [delta]), [delta]) == Merged(existing, [delta])
  {
    if delta.id in Ids(existing) {
      var i :| 0 <= i < |Ids(existing)| && Ids(existing)[i] == delta.id;
      SameDeltaTwiceExisting(existing, delta, i);
    } else {
      SameDeltaTwiceNew(existing, delta);
    }
  }

  lemma SameDeltaTwiceExisting(existing: seq<Finding>, delta: Finding, i: nat)
    requires StoreOk(existing) && DeltaOk(delta)
    requires i < |existing| && existing[i].id == delta.id
    ensures Merged(Merged(existing, [delta]), [delta]) == Merged(existing, [delta])
  {
    var a := Amend(existing[i], delta);
    AmendAt(existing, delta, i);
    IdsUpdate(existing, i, a);
    assert existing[i] in existing;
    AmendTwice(existing[i], delta);
    AmendFixed(existing[i := a], delta, i);
  }

  /** A delta that leaves the finding it names unchanged leaves the list
      unchanged. */
  lemma AmendFixed(fs: seq<Finding>, delta: Finding, i: nat)
    requires NoDup(Ids(fs))
    requires i < |fs| && fs[i].id == delta.id && Amend(fs[i], delta) == fs[i]
    ensures Merged(fs, [delta]) == fs
  {
    AmendAt(fs, delta, i);
    assert fs[i := fs[i]] == fs;
  }

  lemma SameDeltaTwiceNew(existing: seq<Finding>, delta: Finding)
    requires StoreOk(existing) && DeltaOk(delta)
    requires delta.id !in Ids(existing)
    ensures Merged(Merged(existing, [delta]), [delta]) == Merged(existing, [delta])
  {
    var w := WithKeywords(delta);
    MergeInsertsNew(existing, delta);
    SnocNoDup(existing, w);
    AmendInserted(delta);
    AmendFixed(existing + [w], delta, |existing|);
  }

  /** Appending a finding under a new id keeps the ids distinct. */
  lemma SnocNoDup(fs: seq<Finding>, f: Finding)
    requires NoDup(Ids(fs)) && f.id !in Ids(fs)
    ensures NoDup(Ids(fs + [f]))
  {
    IdsSnoc(fs, f);
  }

  /** The graph re-applies the reducer with the channel's own value whenever
      a node returns the whole state: `merge_findings(F, F) == F`. */
  lemma SelfMergeIsIdentity(fs: seq<Finding>)
    requires StoreOk(fs)
    ensures Merged(fs, fs) == fs
  {
    SelfUpserts(fs, |fs|);
    assert fs[..|fs|] == fs;
    IndexListsBack(fs);
  }

  lemma {:induction false} SelfUpserts(fs: seq<Finding>, k: nat)
    requires StoreOk(fs) && k <= |fs|
    ensures UpsertAll(Index(fs), fs[..k]) == Index(fs)
    decreases k
  {
    if k > 0 {
      assert fs[..k][..k - 1] == fs[..k - 1];
      SelfUpserts(fs, k - 1);
      IndexDistinct(fs);
      var f := fs[k - 1];
      assert f in fs;
      AmendSelf(f);
      UpsertStored(Index(fs), f);
    }
  }

  /** A stored finding amended by itself is unchanged. */
  lemma AmendSelf(f: Finding)
    requires FindingOk(f)
    ensures Amend(f, f) == f
  {
    DedupAbsorbs(f.sourceChunkIds, f.sourceChunkIds);
    DedupAbsorbs(f.keywords.value, f.keywords.value);
  }

  /** Upserting the finding a table already stores changes nothing. */
  lemma UpsertStored(t: FindingTable, f: Finding)
    requires TableOk(t) && f.id in t.entries && t.entries[f.id] == f && Amend(f, f) == f
    ensures Upsert(t, f) == t
  {
    assert t.entries[f.id := f] == t.entries;
  }

  // ---------------------------------------------------------------------
  // The store invariant is preserved
  // ---------------------------------------------------------------------

  lemma {:induction false} IndexEntriesFrom(fs: seq<Finding>)
    ensures forall k :: k in Index(fs).entries ==> Index(fs).entries[k] in fs
    decreases |fs|
  {
    if fs != [] {
      IndexEntriesFrom(fs[..|fs| - 1]);
    }
  }

  lemma {:induction false} UpsertAllEntriesOk(t: FindingTable, ds: seq<Finding>)
    requires TableOk(t) && EntriesOk(t)
    requires forall d :: d in ds ==> DeltaOk(d)
    ensures EntriesOk(UpsertAll(t, ds))
    decreases |ds|
  {
    if ds != [] {
      var q := ds[..|ds| - 1];
      assert forall d :: d in q ==> d in ds;
      UpsertAllEntriesOk(t, q);
      assert ds[|ds| - 1] in ds;
      UpsertEntriesOk(UpsertAll(t, q), ds[|ds| - 1]);
    }
  }

  /** One upsert of a well-formed delta keeps every entry well formed. */
  lemma UpsertEntriesOk(t: FindingTable, d: Finding)
    requires TableOk(t) && EntriesOk(t) && DeltaOk(d)
    ensures EntriesOk(Upsert(t, d))
  {
  }

  /** Merging well-formed deltas into a well-formed store gives a
      well-formed store (ids stay distinct). */
  lemma MergePreservesStore(existing: seq<Finding>, incoming: seq<Finding>)
    requires StoreOk(existing)
    requires forall d :: d in incoming ==> DeltaOk(d)
    ensures StoreOk(Merged(existing, incoming))
  {
    IndexEntriesOk(existing);
    UpsertAllEntriesOk(Index(existing), incoming);
    ListingOk(UpsertAll(Index(existing), incoming));
  }

  lemma IndexEntriesOk(fs: seq<Finding>)
    requires StoreOk(fs)
    ensures EntriesOk(Index(fs))
  {
    IndexEntriesFrom(fs);
  }

  /** Listing a table of well-formed entries gives a well-formed store. */
  lemma ListingOk(u: FindingTable)
    requires TableOk(u) && EntriesOk(u)
    ensures StoreOk(Listing(u))
  {
    ListingIds(u);
    var r := Listing(u);
    forall f | f in r ensures FindingOk(f) {
      var j :| 0 <= j < |r| && r[j] == f;
      assert u.keys[j] in u.entries;
    }
  }
}
