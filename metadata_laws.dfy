/** Algebraic properties of `merge_metadata`, the reducer of the `metadata`
    channel: first writer wins per paper field, and source ids concatenate. */
module MetadataLaws {
  import opened Wrappers
  import opened States
  import opened Text

  /** The per-field reducer applied to a sequence of writes, oldest first. */
  function PickAll<T>(e: Slot<seq<T>>, xs: seq<Slot<seq<T>>>): Slot<seq<T>>
    decreases |xs|
  {
    if xs == [] then e else PickAll(Pick(e, xs[0]), xs[1..])
  }

  /** A truthy field value is never replaced by a later write, whatever the
      later value is (a later `None` cannot unset it). */
  lemma {:induction false} TruthyStays<T>(e: Slot<seq<T>>, xs: seq<Slot<seq<T>>>)
    requires Truthy(e)
    ensures PickAll(e, xs) == e
    decreases |xs|
  {
    if xs != [] {
      TruthyStays(Pick(e, xs[0]), xs[1..]);
    }
  }

  /** Over a sequence of writes to an empty field, the first truthy value
      written is the one the field ends up with. */
  lemma {:induction false} FirstTruthyWins<T>(e: Slot<seq<T>>, xs: seq<Slot<seq<T>>>, i: nat)
    requires !Truthy(e)
    requires i < |xs| && Truthy(xs[i])
    requires forall j :: 0 <= j < i ==> !Truthy(xs[j])
    ensures PickAll(e, xs) == xs[i]
    decreases i
  {
    if i == 0 {
      TruthyStays(xs[0], xs[1..]);
    } else {
      assert !Truthy(xs[0]);
      FirstTruthyWins(Pick(e, xs[0]), xs[1..], i - 1);
    }
  }

  function Titles(ds: seq<PaperMetadata>): seq<Slot<string>> {
    seq(|ds|, j requires 0 <= j < |ds| => ds[j].title)
  }

  function AuthorLists(ds: seq<PaperMetadata>): seq<Slot<seq<string>>> {
    seq(|ds|, j requires 0 <= j < |ds| => ds[j].authors)
  }

  function Dates(ds: seq<PaperMetadata>): seq<Slot<string>> {
    seq(|ds|, j requires 0 <= j < |ds| => ds[j].publicationDate)
  }

  function Abstracts(ds: seq<PaperMetadata>): seq<Slot<string>> {
    seq(|ds|, j requires 0 <= j < |ds| => ds[j].paperAbstract)
  }

  /** Every source-id list written, concatenated in order. */
  function AllSourceIds(ds: seq<PaperMetadata>): seq<string>
    decreases |ds|
  {
    if ds == [] then [] else SourceIds(ds[0]) + AllSourceIds(ds[1..])
  }

  /** A sequence of metadata writes acts field by field: each paper field
      is the per-field fold of the values written to it, and the source ids
      are the concatenation of every list written (duplicates kept). */
  lemma {:induction false} MergeAllByField(m: PaperMetadata, ds: seq<PaperMetadata>)
    ensures var r := MergeAllMetadata(m, ds);
      && r.title == PickAll(m.title, Titles(ds))
      && r.authors == PickAll(m.authors, AuthorLists(ds))
      && r.publicationDate == PickAll(m.publicationDate, Dates(ds))
      && r.paperAbstract == PickAll(m.paperAbstract, Abstracts(ds))
      && SourceIds(r) == SourceIds(m) + AllSourceIds(ds)
    decreases |ds|
  {
    if ds != [] {
      var m1 := MergeMetadata(m, ds[0]);
      MergeAllByField(m1, ds[1..]);
      FieldsTail(ds);
      MergeByField(m, ds[0]);
      ConcatAssoc(SourceIds(m), SourceIds(ds[0]), AllSourceIds(ds[1..]));
    }
  }

  /** One write, field by field. */
  lemma MergeByField(m: PaperMetadata, d: PaperMetadata)
    ensures var r := MergeMetadata(m, d);
      && r.title == Pick(m.title, d.title) && r.authors == Pick(m.authors, d.authors)
      && r.publicationDate == Pick(m.publicationDate, d.publicationDate)
      && r.paperAbstract == Pick(m.paperAbstract, d.paperAbstract)
      && SourceIds(r) == SourceIds(m) + SourceIds(d)
  {
  }

  /** The field lists of the later writes are the tails of the field lists. */
  lemma FieldsTail(ds: seq<PaperMetadata>)
    requires ds != []
    ensures Titles(ds[1..]) == Titles(ds)[1..] && Titles(ds)[0] == ds[0].title
    ensures AuthorLists(ds[1..]) == AuthorLists(ds)[1..] && AuthorLists(ds)[0] == ds[0].authors
    ensures Dates(ds[1..]) == Dates(ds)[1..] && Dates(ds)[0] == ds[0].publicationDate
    ensures Abstracts(ds[1..]) == Abstracts(ds)[1..] && Abstracts(ds)[0] == ds[0].paperAbstract
  {
  }

  /** First writer wins: once a chunk has supplied a non-empty title, no
      later write changes it; before that, the first non-empty title
      written is the one kept. The same holds for the other three fields
      through `MergeAllByField` and the two lemmas above. */
  lemma FirstTitleWins(m: PaperMetadata, ds: seq<PaperMetadata>, i: nat)
    requires !Truthy(m.title)
    requires i < |ds| && Truthy(ds[i].title)
    requires forall j :: 0 <= j < i ==> !Truthy(ds[j].title)
    ensures MergeAllMetadata(m, ds).title == ds[i].title
  {
    MergeAllByField(m, ds);
    FirstTruthyWins(m.title, Titles(ds), i);
  }

  /** A paper field already set is kept by every later sequence of writes. */
  lemma SetFieldsStay(m: PaperMetadata, ds: seq<PaperMetadata>)
    ensures var r := MergeAllMetadata(m, ds);
      && (Truthy(m.title) ==> r.title == m.title)
      && (Truthy(m.authors) ==> r.authors == m.authors)
      && (Truthy(m.publicationDate) ==> r.publicationDate == m.publicationDate)
      && (Truthy(m.paperAbstract) ==> r.paperAbstract == m.paperAbstract)
  {
    MergeAllByField(m, ds);
    if Truthy(m.title) { TruthyStays(m.title, Titles(ds)); }
    if Truthy(m.authors) { TruthyStays(m.authors, AuthorLists(ds)); }
    if Truthy(m.publicationDate) { TruthyStays(m.publicationDate, Dates(ds)); }
    if Truthy(m.paperAbstract) { TruthyStays(m.paperAbstract, Abstracts(ds)); }
  }

  /** Two chunks report titles "A" and then "B": the paper keeps "A". */
  lemma TitleExample()
    ensures var a := EmptyMetadata.(title := Val("A"));
      var b := EmptyMetadata.(title := Val("B"));
      MergeAllMetadata(EmptyMetadata, [a, b]).title == Val("A")
  {
    var a := EmptyMetadata.(title := Val("A"));
    var b := EmptyMetadata.(title := Val("B"));
    FirstTitleWins(EmptyMetadata, [a, b], 0);
  }

  /** Merging a complete metadata dict with itself (what the graph does
      when a node returns the whole state) keeps every paper field and
      doubles the source-id list, which is therefore harmless exactly when
      that list is empty. */
  lemma MetadataSelfMerge(m: PaperMetadata)
    requires Settled(m)
    ensures var r := MergeMetadata(m, m);
      && r.title == m.title && r.authors == m.authors
      && r.publicationDate == m.publicationDate && r.paperAbstract == m.paperAbstract
      && SourceIds(r) == SourceIds(m) + SourceIds(m)
    ensures SourceIds(m) == [] ==> MergeMetadata(m, m) == m
  {
  }
}
