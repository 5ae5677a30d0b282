/**
 * The navigation highlight in src/App.tsx: every `section[id]` of the page is
 * observed, and the observer's callback walks its batch of entries, making
 * each intersecting entry with a non-empty id the active section in turn, so
 * the last such entry wins. `activeSection` starts as "about".
 */
module ActiveSection {

  /** An observer entry: whether its target intersects the root band, and the target's id. */
  datatype Entry = Entry(isIntersecting: bool, id: string)

  const InitialSection: string := "about"

  /** The entry would make its section active: intersecting, with a truthy id. */
  predicate Selects(e: Entry)
  {
    e.isIntersecting && e.id != ""
  }

  /** One iteration of the `forEach`. */
  function Visit(current: string, e: Entry): string
  {
    if Selects(e) then e.id else current
  }

  /** The active section after the callback has walked the batch front to back. */
  function AfterBatch(current: string, entries: seq<Entry>): string
    decreases |entries|
  {
    if entries == [] then current else AfterBatch(Visit(current, entries[0]), entries[1..])
  }

  /**
   * An independent reading: the id of the last selecting entry, searched
   * from the back, or the current section if no entry selects.
   */
  function LastSelected(current: string, entries: seq<Entry>): (r: string)
    ensures (forall i :: 0 <= i < |entries| ==> !Selects(entries[i])) ==> r == current
    ensures (exists i :: 0 <= i < |entries| && Selects(entries[i])) ==>
      exists i :: 0 <= i < |entries| && Selects(entries[i]) && r == entries[i].id
        && forall j :: i < j < |entries| ==> !Selects(entries[j])
    decreases |entries|
  {
    if entries == [] then current
    else if Selects(entries[|entries| - 1]) then entries[|entries| - 1].id
    else
      var r := LastSelected(current, entries[..|entries| - 1]);
      assert forall j :: 0 <= j < |entries| - 1 ==> entries[..|entries| - 1][j] == entries[j];
      r
  }

  lemma {:induction false} AfterBatchSnoc(current: string, entries: seq<Entry>, e: Entry)
    ensures AfterBatch(current, entries + [e]) == Visit(AfterBatch(current, entries), e)
    decreases |entries|
  {
    if entries != [] {
      assert (entries + [e])[1..] == entries[1..] + [e];
      AfterBatchSnoc(Visit(current, entries[0]), entries[1..], e);
    }
  }

  /** Walking the batch front to back ends on the last selecting entry: the last write wins. */
  lemma {:induction false} LastWriteWins(current: string, entries: seq<Entry>)
    ensures AfterBatch(current, entries) == LastSelected(current, entries)
    decreases |entries|
  {
    if entries != [] {
      var init := entries[..|entries| - 1];
      var last := entries[|entries| - 1];
      assert entries == init + [last];
      AfterBatchSnoc(current, init, last);
      LastWriteWins(current, init);
    }
  }

  /** A batch with no intersecting entry that has an id leaves the active section as it was. */
  lemma NoSelectionKeepsSection(current: string, entries: seq<Entry>)
    requires forall i :: 0 <= i < |entries| ==> !Selects(entries[i])
    ensures AfterBatch(current, entries) == current
  {
    LastWriteWins(current, entries);
  }

  /** A non-intersecting entry never changes the result, wherever it sits in the batch. */
  lemma {:induction false} NonIntersectingIrrelevant(current: string, before: seq<Entry>, e: Entry, after: seq<Entry>)
    requires !e.isIntersecting
    ensures AfterBatch(current, before + [e] + after) == AfterBatch(current, before + after)
    decreases |before|
  {
    if before == [] {
      assert before + [e] + after == [e] + after;
      assert ([e] + after)[1..] == after;
      assert before + after == after;
    } else {
      assert (before + [e] + after)[1..] == before[1..] + [e] + after;
      assert (before + after)[1..] == before[1..] + after;
      NonIntersectingIrrelevant(Visit(current, before[0]), before[1..], e, after);
    }
  }

  /** The indices of a list of `n` elements. */
  function UpTo(n: nat): (r: set<nat>)
    ensures forall i: int :: i in r <==> 0 <= i < n
  {
    if n == 0 then {} else UpTo(n - 1) + {n - 1}
  }

  /** The section ids the page's `section[id]` query found, and the observer's observation set. */
  class App {
    var activeSection: string
    const sections: seq<string>
    var observed: set<nat>

    /** The state hook starts at "about"; the effect observes every section. */
    constructor (sections: seq<string>)
      ensures activeSection == InitialSection && this.sections == sections
      ensures observed == UpTo(|sections|)
    {
      activeSection := InitialSection;
      this.sections := sections;
      observed := {};
      new;
      ObserveAll();
    }

    /** `sections.forEach((section) => observer.observe(section))`. */
    method ObserveAll()
      modifies this
      ensures observed == old(observed) + UpTo(|sections|)
      ensures activeSection == old(activeSection)
    {
      var i := 0;
      while i < |sections|
        invariant 0 <= i <= |sections|
        invariant observed == old(observed) + UpTo(i)
        invariant activeSection == old(activeSection)
      {
        observed := observed + {i};
        i := i + 1;
      }
    }

    /** The observer's callback: each intersecting entry with an id sets the active section in turn. */
    method OnBatch(entries: seq<Entry>)
      modifies this
      ensures activeSection == AfterBatch(old(activeSection), entries)
      ensures observed == old(observed)
    {
      for i := 0 to |entries|
        invariant activeSection == AfterBatch(old(activeSection), entries[..i])
        invariant observed == old(observed)
      {
        var entry := entries[i];
        if entry.isIntersecting {
          var sectionId := entry.id;
          if sectionId != "" {
            activeSection := sectionId;
          }
        }
        AfterBatchSnoc(old(activeSection), entries[..i], entry);
        assert entries[..i + 1] == entries[..i] + [entry];
      }
      assert entries[..|entries|] == entries;
    }

    /** The effect's cleanup: every section found is unobserved. */
    method Cleanup()
      modifies this
      ensures observed == old(observed) - UpTo(|sections|)
      ensures activeSection == old(activeSection)
    {
      var i := 0;
      while i < |sections|
        invariant 0 <= i <= |sections|
        invariant observed == old(observed) - UpTo(i)
        invariant activeSection == old(activeSection)
      {
        observed := observed - {i};
        i := i + 1;
      }
    }
  }
}
