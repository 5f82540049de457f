/**
 * The gallery page: the list loaded from storage, the kind filter
 * (all / image / video) and delete-by-id with write-back.
 */
module Gallery {
  import opened Wrappers
  import opened JsArray
  import opened CreationCard
  import opened Storage
  import opened GenerationUtils

  /** The filter buttons' state (`'all' | 'image' | 'video'`). */
  datatype GalleryFilter = All | OnlyKind(kind: Kind)

  /** `creations.filter(creation => creation.id !== id)`. */
  function WithoutId(creations: seq<Creation>, id: string): (r: seq<Creation>)
    ensures |r| <= |creations|
    ensures forall i :: 0 <= i < |r| ==> r[i] in creations && r[i].id != id
    ensures forall i :: 0 <= i < |creations| && creations[i].id != id ==> creations[i] in r
  {
    Filter(creations, (c: Creation) => c.id != id)
  }

  /** Whether a filter lets a creation through. */
  predicate Shows(filter: GalleryFilter, c: Creation) {
    filter.All? || c.kind == filter.kind
  }

  /** `filteredCreations`: the whole list for `all`, else the entries of the chosen kind. */
  function Filtered(creations: seq<Creation>, filter: GalleryFilter): (r: seq<Creation>)
    ensures |r| <= |creations|
    ensures forall i :: 0 <= i < |r| ==> r[i] in creations && Shows(filter, r[i])
    ensures forall i :: 0 <= i < |creations| && Shows(filter, creations[i]) ==> creations[i] in r
  {
    match filter
    case All => creations
    case OnlyKind(k) => Filter(creations, (c: Creation) => c.kind == k)
  }

  /** No two creations of the list share an id. */
  ghost predicate UniqueIds(creations: seq<Creation>) {
    forall i, j :: 0 <= i < j < |creations| ==> creations[i].id != creations[j].id
  }

  /**
   * Delete removes every creation with the id and keeps every other one,
   * in the original order and with its multiplicity.
   */
  lemma DeleteRemovesExactly(creations: seq<Creation>, id: string)
    ensures forall c :: c in WithoutId(creations, id) <==> c in creations && c.id != id
    ensures IsSubsequence(WithoutId(creations, id), creations)
    ensures forall c :: multiset(WithoutId(creations, id))[c] == if c.id != id then multiset(creations)[c] else 0
  {
    var p := (c: Creation) => c.id != id;
    FilterIsSubsequence(creations, p);
    forall c ensures multiset(WithoutId(creations, id))[c] == if c.id != id then multiset(creations)[c] else 0 {
      FilterCount(creations, p, c);
    }
  }

  /** Deleting an id nobody has leaves the list as it was. */
  lemma DeleteAbsent(creations: seq<Creation>, id: string)
    requires forall i :: 0 <= i < |creations| ==> creations[i].id != id
    ensures WithoutId(creations, id) == creations
  {
    FilterKeepsAll(creations, (c: Creation) => c.id != id);
  }

  /** Deleting twice is deleting once. */
  lemma DeleteIdempotent(creations: seq<Creation>, id: string)
    ensures WithoutId(WithoutId(creations, id), id) == WithoutId(creations, id)
  {
    FilterIdempotent(creations, (c: Creation) => c.id != id);
  }

  /** Deleting the id exactly one creation has shortens the list by one. */
  lemma DeleteUnique(creations: seq<Creation>, id: string, k: nat)
    requires k < |creations| && creations[k].id == id
    requires forall i :: 0 <= i < |creations| && i != k ==> creations[i].id != id
    ensures |WithoutId(creations, id)| == |creations| - 1
  {
    FilterDropsOne(creations, (c: Creation) => c.id != id, k);
  }

  /** Filter `all` shows the list unchanged. */
  lemma FilterAllIsIdentity(creations: seq<Creation>)
    ensures Filtered(creations, All) == creations
  {
  }

  /**
   * A kind filter shows exactly the entries of that kind, in their order,
   * each as often as in the list, and never more entries than the list has.
   */
  lemma FilterKindExactly(creations: seq<Creation>, k: Kind)
    ensures |Filtered(creations, OnlyKind(k))| <= |creations|
    ensures forall c :: c in Filtered(creations, OnlyKind(k)) <==> c in creations && c.kind == k
    ensures IsSubsequence(Filtered(creations, OnlyKind(k)), creations)
    ensures forall c :: multiset(Filtered(creations, OnlyKind(k)))[c] == if c.kind == k then multiset(creations)[c] else 0
  {
    var p := (c: Creation) => c.kind == k;
    FilterIsSubsequence(creations, p);
    forall c ensures multiset(Filtered(creations, OnlyKind(k)))[c] == if c.kind == k then multiset(creations)[c] else 0 {
      FilterCount(creations, p, c);
    }
  }

  /** What the filtered view shows after a delete is the old view without the id. */
  lemma DeleteThenFilter(creations: seq<Creation>, id: string, f: GalleryFilter)
    ensures Filtered(WithoutId(creations, id), f) == WithoutId(Filtered(creations, f), id)
  {
    if f.OnlyKind? {
      FilterCommutes(creations, (c: Creation) => c.id != id, (c: Creation) => c.kind == f.kind);
    }
  }

  /** A newly saved creation heads every view that shows its kind, ahead of the older entries. */
  lemma SavedShowsFirst(creations: seq<Creation>, c: Creation, f: GalleryFilter)
    ensures Filtered([c] + creations, f) == (if f.All? || c.kind == f.kind then [c] else []) + Filtered(creations, f)
  {
    if f.OnlyKind? {
      FilterAppend([c], creations, (x: Creation) => x.kind == f.kind);
    }
  }

  /** Deleting keeps ids unique. */
  lemma {:induction false} DeleteKeepsUniqueIds(creations: seq<Creation>, id: string)
    requires UniqueIds(creations)
    ensures UniqueIds(WithoutId(creations, id))
  {
    if creations != [] {
      var rest := creations[1..];
      assert UniqueIds(rest) by {
        forall i, j | 0 <= i < j < |rest| ensures rest[i].id != rest[j].id {
          assert rest[i] == creations[i + 1] && rest[j] == creations[j + 1];
        }
      }
      DeleteKeepsUniqueIds(rest, id);
      var tail := WithoutId(rest, id);
      if creations[0].id != id {
        var r := WithoutId(creations, id);
        assert r == [creations[0]] + tail;
        forall j | 1 <= j < |r| ensures r[0].id != r[j].id {
          assert r[j] in rest;
          var m :| 0 <= m < |rest| && rest[m] == r[j];
          assert creations[m + 1] == r[j];
        }
      }
    }
  }

  /** The gallery page's state. */
  class GalleryPage {
    var creations: seq<Creation>
    var filter: GalleryFilter
    const store: LocalStorage
    const dates: DateCodec

    /** Mounting: the effect sets the list to what `loadCreations` returns; the filter starts at `all`. */
    constructor (store: LocalStorage, dates: DateCodec)
      ensures this.store == store && this.dates == dates
      ensures creations == LoadCreations(store, dates)
      ensures filter == All
      ensures Mirrors(store, dates, creations)
    {
      this.store := store;
      this.dates := dates;
      creations := LoadCreations(store, dates);
      filter := All;
    }

    /** What the grid shows. */
    function FilteredCreations(): (r: seq<Creation>)
      reads this
      ensures |r| <= |creations|
      ensures forall i :: 0 <= i < |r| ==> r[i] in creations && Shows(filter, r[i])
      ensures forall i :: 0 <= i < |creations| && Shows(filter, creations[i]) ==> creations[i] in r
    {
      Filtered(creations, filter)
    }

    /** One of the three filter buttons. */
    method SetFilter(f: GalleryFilter)
      modifies this`filter
      ensures filter == f
    {
      filter := f;
    }

    /**
     * `handleDelete(id)`: the list without the id becomes the state and is
     * written back, so after a successful write the slot reloads to it.
     */
    method HandleDelete(id: string, writeSucceeds: bool)
      modifies this`creations, store
      ensures creations == WithoutId(old(creations), id)
      ensures store.creations == if writeSucceeds then Some(Serialize(dates, creations)) else old(store.creations)
      ensures store.userCredits == old(store.userCredits)
      ensures writeSucceeds && Lossless(dates) ==> Mirrors(store, dates, creations)
    {
      creations := WithoutId(creations, id);
      SaveCreations(store, dates, creations, writeSucceeds);
      if writeSucceeds && Lossless(dates) {
        LoadAfterSave(dates, creations);
      }
    }

    /** The trash button of a card in the grid, wired to `handleDelete`. */
    method DeleteFromCard(card: CardState, writeSucceeds: bool)
      requires card.deletable
      modifies this`creations, store
      ensures creations == WithoutId(old(creations), card.creation.id)
      ensures card.creation !in creations
      ensures store.creations == if writeSucceeds then Some(Serialize(dates, creations)) else old(store.creations)
      ensures store.userCredits == old(store.userCredits)
      ensures writeSucceeds && Lossless(dates) ==> Mirrors(store, dates, creations)
    {
      var request := card.DeleteClicked();
      HandleDelete(request.value, writeSucceeds);
    }
  }
}
