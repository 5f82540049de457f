/**
 * The index page: the list loaded from storage, and the save handler the
 * generator calls, which prepends the creation and writes the list back.
 */
module IndexPage {
  import opened Wrappers
  import JsArray
  import opened JsText
  import opened PromptInput
  import opened CreationCard
  import opened Storage
  import opened GenerationUtils
  import opened Gallery
  import opened Generator

  /** A creation whose id is new to the list keeps the ids unique once prepended. */
  lemma PrependFreshKeepsUniqueIds(creations: seq<Creation>, c: Creation)
    requires UniqueIds(creations)
    requires forall i :: 0 <= i < |creations| ==> creations[i].id != c.id
    ensures UniqueIds([c] + creations)
  {
    var r := [c] + creations;
    forall i, j | 0 <= i < j < |r| ensures r[i].id != r[j].id {
      if i > 0 {
        assert r[i] == creations[i - 1] && r[j] == creations[j - 1];
      }
    }
  }

  /**
   * Saving the same creation twice (the generator keeps it on screen after
   * a save) puts its id in the list twice, and deleting that id then removes
   * both copies.
   */
  lemma DoubleSaveDuplicatesId(creations: seq<Creation>, c: Creation)
    ensures !UniqueIds([c, c] + creations)
    ensures WithoutId([c, c] + creations, c.id) == WithoutId(creations, c.id)
  {
    var r := [c, c] + creations;
    assert r[0].id == r[1].id;
    JsArray.FilterAppend([c, c], creations, (x: Creation) => x.id != c.id);
    assert [c, c][1..] == [c];
  }

  /** The `Index` page's state. */
  class IndexPageState {
    var creations: seq<Creation>
    const store: LocalStorage
    const dates: DateCodec

    /** Mounting: the effect sets the list to what `loadCreations` returns. */
    constructor (store: LocalStorage, dates: DateCodec)
      ensures this.store == store && this.dates == dates
      ensures creations == LoadCreations(store, dates)
      ensures Mirrors(store, dates, creations)
    {
      this.store := store;
      this.dates := dates;
      creations := LoadCreations(store, dates);
    }

    /**
     * `handleSaveCreation(creation)`: the creation goes in front of the old
     * list, which keeps its order. The new list is written back, so after a
     * successful write the slot reloads to it.
     */
    method HandleSaveCreation(c: Creation, writeSucceeds: bool)
      modifies this`creations, store
      ensures creations == [c] + old(creations)
      ensures |creations| == |old(creations)| + 1 && creations[0] == c && creations[1..] == old(creations)
      ensures store.creations == if writeSucceeds then Some(Serialize(dates, creations)) else old(store.creations)
      ensures store.userCredits == old(store.userCredits)
      ensures writeSucceeds && Lossless(dates) ==> Mirrors(store, dates, creations)
    {
      creations := [c] + creations;
      SaveCreations(store, dates, creations, writeSucceeds);
      if writeSucceeds && Lossless(dates) {
        LoadAfterSave(dates, creations);
      }
    }

    /**
     * The generator's "Save to Gallery" button, with `onSave` bound to
     * `handleSaveCreation`: the current creation, if any, is prepended;
     * without one nothing happens.
     */
    method SaveFromGenerator(gen: GeneratorState, writeSucceeds: bool)
      modifies this`creations, store
      ensures gen.currentCreation.Some? ==> creations == [gen.currentCreation.value] + old(creations)
      ensures gen.currentCreation.Some? ==>
        store.creations == if writeSucceeds then Some(Serialize(dates, creations)) else old(store.creations)
      ensures gen.currentCreation.None? ==> creations == old(creations) && store.creations == old(store.creations)
      ensures gen.currentCreation.Some? && writeSucceeds && Lossless(dates) ==> Mirrors(store, dates, creations)
      ensures store.userCredits == old(store.userCredits)
    {
      var saved := gen.HandleSave();
      if saved.Some? {
        HandleSaveCreation(saved.value, writeSucceeds);
      }
    }
  }

  /** Saving twice puts the second creation ahead of the first, both ahead of the older ones. */
  method SaveTwice(page: IndexPageState, first: Creation, second: Creation)
    modifies page, page.store
    ensures page.creations == [second, first] + old(page.creations)
  {
    page.HandleSaveCreation(first, true);
    page.HandleSaveCreation(second, true);
  }

  /**
   * Clicking "Save to Gallery" twice on the same generation: the generator
   * does not clear its creation after a save, so the list gains it twice
   * and its ids are no longer unique.
   */
  method SaveFromGeneratorTwice(page: IndexPageState, gen: GeneratorState, writeSucceeds: bool)
    requires gen.currentCreation.Some?
    modifies page, page.store
    ensures page.creations == [gen.currentCreation.value, gen.currentCreation.value] + old(page.creations)
    ensures !UniqueIds(page.creations)
  {
    page.SaveFromGenerator(gen, writeSucceeds);
    page.SaveFromGenerator(gen, writeSucceeds);
    DoubleSaveDuplicatesId(old(page.creations), gen.currentCreation.value);
  }

  /**
   * One session on a fresh store: submit "a sunset" as an image, let the
   * generation resolve, save; the list gains exactly that creation in front.
   */
  method SunsetScenario(dates: DateCodec, draw: Draw, freshId: string, now: Timestamp)
    requires Lossless(dates)
  {
    var store := new LocalStorage(None, None);
    var page := new IndexPageState(store, dates);
    assert page.creations == [];
    var gen := new GeneratorState();
    var input := new PromptInputState();
    input.OnChange("a sunset", false);
    assert !IsWhiteSpace(input.prompt[0]);
    var request := gen.SubmitFrom(input);
    assert request.Some? && gen.isLoading && request.value.kind == Image;
    gen.FinishGeneration(request.value.prompt, request.value.kind, Resolves(draw), freshId, now);
    assert !gen.isLoading && gen.currentCreation.Some? && gen.currentCreation.value.kind == Image;
    page.SaveFromGenerator(gen, true);
    assert |page.creations| == 1 && page.creations[0] == gen.currentCreation.value;
    assert Mirrors(store, dates, page.creations);
  }
}
