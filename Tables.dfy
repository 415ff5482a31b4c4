/*
  Table: the belief and desire tables stored in each concept. Entries are
  kept in a list sorted by key, highest first; the sorted list's comparer
  never reports two keys equal, so a new entry whose key ties existing keys
  is placed before all of them. On overflow the entry at index 0, the one
  with the HIGHEST key, is removed.
*/
module Tables {
  import opened Wrappers
  import opened Values
  import opened Terms
  import opened Draws

  /** A stored sentence and the key it was added under. */
  datatype Entry = Entry(key: real, sentence: Sentence)

  /** Keys never increase along the list. */
  predicate Sorted(es: seq<Entry>)
  {
    forall i, j :: 0 <= i < j < |es| ==> es[i].key >= es[j].key
  }

  /** The sentences of a list of entries, in order. */
  function Sentences(es: seq<Entry>): (ss: seq<Sentence>)
    ensures |ss| == |es|
    ensures forall i :: 0 <= i < |es| ==> ss[i] == es[i].sentence
  {
    if es == [] then [] else [es[0].sentence] + Sentences(es[1..])
  }

  /** Where the sorted list places a new key: after every strictly greater key. */
  function InsertPosition(es: seq<Entry>, k: real): (p: nat)
    ensures p <= |es|
    ensures forall i :: 0 <= i < p ==> es[i].key > k
    ensures p < |es| ==> es[p].key <= k
  {
    if es == [] || es[0].key <= k then 0 else 1 + InsertPosition(es[1..], k)
  }

  /** Adding an entry to the sorted list. */
  function Insert(es: seq<Entry>, e: Entry): (r: seq<Entry>)
    ensures |r| == |es| + 1
  {
    var p := InsertPosition(es, e.key);
    es[..p] + [e] + es[p..]
  }

  lemma InsertMultiset(es: seq<Entry>, e: Entry)
    ensures multiset(Insert(es, e)) == multiset(es) + multiset{e}
  {
    var p := InsertPosition(es, e.key);
    assert es == es[..p] + es[p..];
  }

  lemma InsertSorted(es: seq<Entry>, e: Entry)
    requires Sorted(es)
    ensures Sorted(Insert(es, e))
  {
    var p := InsertPosition(es, e.key);
    var r := Insert(es, e);
    forall i, j | 0 <= i < j < |r| ensures r[i].key >= r[j].key {
      if j < p {
        assert r[i] == es[i] && r[j] == es[j];
      } else if j == p {
        assert r[i] == es[i];
      } else if i > p {
        assert r[i] == es[i-1] && r[j] == es[j-1];
      } else if i == p {
        assert r[j] == es[j-1];
        assert es[j-1].key <= e.key;
      } else {
        assert r[i] == es[i] && r[j] == es[j-1];
      }
    }
  }

  /** Adding several entries, first to last. */
  function InsertAll(es: seq<Entry>, xs: seq<Entry>): (r: seq<Entry>)
    ensures |r| == |es| + |xs|
  {
    if xs == [] then es
    else Insert(InsertAll(es, xs[..|xs| - 1]), xs[|xs| - 1])
  }

  lemma {:induction false} InsertAllContents(es: seq<Entry>, xs: seq<Entry>)
    ensures multiset(InsertAll(es, xs)) == multiset(es) + multiset(xs)
  {
    if xs != [] {
      var init, last := xs[..|xs| - 1], xs[|xs| - 1];
      InsertAllContents(es, init);
      InsertMultiset(InsertAll(es, init), last);
      assert xs == init + [last];
    }
  }

  lemma {:induction false} InsertAllSorted(es: seq<Entry>, xs: seq<Entry>)
    requires Sorted(es)
    ensures Sorted(InsertAll(es, xs))
  {
    if xs != [] {
      InsertAllSorted(es, xs[..|xs| - 1]);
      InsertSorted(InsertAll(es, xs[..|xs| - 1]), xs[|xs| - 1]);
    }
  }

  /** What remains after removing index 0 until at most cap entries are left. */
  function Trimmed(es: seq<Entry>, cap: nat): (r: seq<Entry>)
  {
    if |es| > cap then es[|es| - cap..] else es
  }

  /** The sentences j may interact with, in stored order. */
  function Interactable(es: seq<Entry>, j: Sentence, engine: Engine): (r: seq<Sentence>)
    ensures |r| <= |es|
  {
    if es == [] then []
    else (if engine.mayInteract(j, es[0].sentence) then [es[0].sentence] else [])
         + Interactable(es[1..], j, engine)
  }

  /** The first stored sentence j may interact with. */
  function FirstInteractable(es: seq<Entry>, j: Sentence, engine: Engine): (r: Option<Sentence>)
  {
    if es == [] then None
    else if engine.mayInteract(j, es[0].sentence) then Some(es[0].sentence)
    else FirstInteractable(es[1..], j, engine)
  }

  /** The entry a revision is stored as: keyed by the revised confidence. */
  function RevisedEntry(s: Sentence, x: Sentence, engine: Engine): Entry
  {
    var revised := engine.revision(s, x);
    Entry(revised.value.confidence, revised)
  }

  function RevisedEntries(s: Sentence, xs: seq<Sentence>, engine: Engine): (r: seq<Entry>)
    ensures |r| == |xs|
    ensures forall i :: 0 <= i < |xs| ==> r[i] == RevisedEntry(s, xs[i], engine)
  {
    seq(|xs|, i requires 0 <= i < |xs| => RevisedEntry(s, xs[i], engine))
  }

  /**
    The entry an event keeps after meeting the stored top event it may not
    interact with (the choice rule): the one with the larger time-decayed
    confidence, the new event on a tie, keyed by that decayed confidence.
  */
  function ChoiceEntry(stored: Sentence, s: Sentence, engine: Engine): Entry
  {
    var c1 := engine.decayedConfidence(stored);
    var c2 := engine.decayedConfidence(s);
    if c1 > c2 then Entry(c1, stored) else Entry(c2, s)
  }

  /** The entries after put, before the overflow is trimmed. */
  function Staged(es: seq<Entry>, s: Sentence, engine: Engine): seq<Entry>
  {
    if s.IsEvent() && |es| > 0 then
      var stored := es[0].sentence;
      if engine.mayInteract(s, stored) then Insert(es[1..], RevisedEntry(s, stored, engine))
      else Insert(es[1..], ChoiceEntry(stored, s, engine))
    else
      var revised := if |es| > 0 then InsertAll(es, RevisedEntries(s, Interactable(es, s, engine), engine)) else es;
      Insert(revised, Entry(s.value.confidence, s))
  }

  /** A decayed sentence: its confidence multiplied by the forgetting factor. */
  function Decayed(s: Sentence, factor: real): (d: Sentence)
    ensures d.value.confidence == s.value.confidence * factor
    ensures d.value.frequency == s.value.frequency
    ensures d.statement == s.statement && d.kind == s.kind && d.occurrence == s.occurrence
  {
    s.(value := s.value.(confidence := s.value.confidence * factor))
  }

  /** A decayed sentence as it is re-added: keyed by its new confidence. */
  function DecayedEntry(e: Entry, factor: real): Entry
  {
    var d := Decayed(e.sentence, factor);
    Entry(d.value.confidence, d)
  }

  function DecayedEntries(es: seq<Entry>, factor: real): (r: seq<Entry>)
    ensures |r| == |es|
    ensures forall i :: 0 <= i < |es| ==> r[i] == DecayedEntry(es[i], factor)
  {
    seq(|es|, i requires 0 <= i < |es| => DecayedEntry(es[i], factor))
  }

  /** The entries after Forget. */
  function Forgotten(es: seq<Entry>, factor: real): seq<Entry>
  {
    if |es| == 0 || es[0].sentence.IsEvent() then es
    else InsertAll([], DecayedEntries(es, factor))
  }

  class Table {
    const capacity: nat
    const engine: Engine
    var entries: seq<Entry>

    ghost predicate Valid()
      reads this
    {
      Sorted(entries) && |entries| <= capacity
    }

    constructor(capacity: nat, engine: Engine)
      ensures Valid()
      ensures this.capacity == capacity && this.engine == engine
      ensures entries == []
    {
      this.capacity := capacity;
      this.engine := engine;
      entries := [];
    }

    function Count(): (n: nat)
      reads this
      ensures n == |entries|
    {
      |entries|
    }

    /** The highest-keyed sentence, or None when the table is empty. */
    function Peek(): (r: Option<Sentence>)
      reads this
      requires Valid()
      ensures r.None? <==> |entries| == 0
      ensures r.Some? ==> r.value == entries[0].sentence
      ensures r.Some? ==> forall i :: 0 <= i < |entries| ==> entries[i].key <= entries[0].key
    {
      if |entries| == 0 then None else Some(entries[0].sentence)
    }

    /** Removes and returns the highest-keyed sentence. */
    method Take() returns (r: Option<Sentence>)
      requires Valid()
      modifies this
      ensures Valid()
      ensures r == old(Peek())
      ensures old(|entries|) == 0 ==> entries == old(entries)
      ensures old(|entries|) > 0 ==> entries == old(entries[1..])
    {
      if |entries| == 0 {
        return None;
      }
      r := Some(entries[0].sentence);
      entries := entries[1..];
    }

    /** A stored sentence picked by a draw, or None when empty. */
    method PeekRandom(u: real) returns (r: Option<Sentence>)
      requires IsUnit(u)
      ensures r.None? <==> |entries| == 0
      ensures r.Some? ==> r.value in Sentences(entries)
      ensures r.Some? ==> r.value == entries[IndexFromDraw(u, |entries|)].sentence
    {
      if |entries| == 0 {
        return None;
      }
      var i := IndexFromDraw(u, |entries|);
      r := Some(entries[i].sentence);
    }

    /** The first stored sentence, highest key first, that j may interact with. */
    method PeekFirstInteractable(j: Sentence) returns (r: Option<Sentence>)
      ensures r == FirstInteractable(entries, j, engine)
    {
      var i := 0;
      while i < |entries|
        invariant 0 <= i <= |entries|
        invariant FirstInteractable(entries, j, engine) == FirstInteractable(entries[i..], j, engine)
      {
        assert entries[i..][1..] == entries[i+1..];
        if engine.mayInteract(j, entries[i].sentence) {
          return Some(entries[i].sentence);
        }
        i := i + 1;
      }
      return None;
    }

    /** Every stored sentence j may interact with, highest key first. */
    method PeekAllInteractable(j: Sentence) returns (r: seq<Sentence>)
      ensures r == Interactable(entries, j, engine)
    {
      r := [];
      var i := 0;
      while i < |entries|
        invariant 0 <= i <= |entries|
        invariant r + Interactable(entries[i..], j, engine) == Interactable(entries, j, engine)
      {
        assert entries[i..][1..] == entries[i+1..];
        if engine.mayInteract(j, entries[i].sentence) {
          r := r + [entries[i].sentence];
        }
        i := i + 1;
      }
    }

    /** A sentence j may interact with, chosen among all of them by a draw. */
    method PeekRandomInteractable(j: Sentence, u: real) returns (r: Option<Sentence>)
      requires IsUnit(u)
      ensures r.None? <==> Interactable(entries, j, engine) == []
      ensures r.Some? ==> r.value in Interactable(entries, j, engine)
      ensures r.Some? ==> var xs := Interactable(entries, j, engine); r.value == xs[IndexFromDraw(u, |xs|)]
    {
      if |entries| == 0 {
        return None;
      }
      var interactable := PeekAllInteractable(j);
      if |interactable| == 0 {
        return None;
      }
      var i := IndexFromDraw(u, |interactable|);
      r := Some(interactable[i]);
    }

    /**
      Stores a sentence. An event meeting a non-empty table replaces the top
      entry by their revision or by the choice rule's winner; any other
      sentence adds its revision with every interactable entry and then
      itself. The overflow is removed from index 0.
    */
    method Put(s: Sentence)
      requires Valid()
      modifies this
      ensures Valid()
      ensures entries == Trimmed(Staged(old(entries), s, engine), capacity)
    {
      StageEntries(s);
      ghost var staged := entries;
      StagedSorted(old(entries), s, engine);
      ghost var dropped := 0;
      while |entries| > capacity
        invariant 0 <= dropped <= |staged|
        invariant entries == staged[dropped..]
        invariant dropped == 0 || |entries| >= capacity
      {
        entries := entries[1..];
        dropped := dropped + 1;
      }
      TrimmedSorted(staged, capacity);
    }

    /** The additions Put makes before trimming the overflow. */
    method StageEntries(s: Sentence)
      requires Valid()
      modifies this
      ensures entries == Staged(old(entries), s, engine)
    {
      ghost var es := entries;
      if s.IsEvent() && |entries| > 0 {
        var stored := Take();
        var current := stored.value;
        if engine.mayInteract(s, current) {
          var revised := engine.revision(s, current);
          entries := Insert(entries, Entry(revised.value.confidence, revised));
        } else {
          var c1 := engine.decayedConfidence(current);
          var c2 := engine.decayedConfidence(s);
          if c1 > c2 {
            entries := Insert(entries, Entry(c1, current));
          } else {
            entries := Insert(entries, Entry(c2, s));
          }
        }
      } else {
        if |entries| > 0 {
          var interactable := PeekAllInteractable(s);
          ghost var revisions := RevisedEntries(s, interactable, engine);
          var revisedAll := entries;
          var k := 0;
          while k < |interactable|
            invariant 0 <= k <= |interactable|
            invariant revisedAll == InsertAll(es, revisions[..k])
          {
            var revised := engine.revision(s, interactable[k]);
            assert revisions[..k + 1][..k] == revisions[..k];
            revisedAll := Insert(revisedAll, Entry(revised.value.confidence, revised));
            k := k + 1;
          }
          assert revisions[..k] == revisions;
          entries := revisedAll;
        }
        entries := Insert(entries, Entry(s.value.confidence, s));
      }
    }

    /**
      Multiplies every stored confidence by the forgetting factor and
      re-adds the sentences under their new confidences; nothing happens
      when the table is empty or its top sentence is an event.
    */
    method Forget(factor: real)
      requires Valid()
      modifies this
      ensures Valid()
      ensures entries == Forgotten(old(entries), factor)
    {
      if |entries| == 0 {
        return;
      }
      if entries[0].sentence.IsEvent() {
        return;
      }
      var es := entries;
      var result: seq<Sentence> := [];
      var i := 0;
      while i < |es|
        invariant 0 <= i <= |es|
        invariant |result| == i
        invariant forall k :: 0 <= k < i ==> result[k] == Decayed(es[k].sentence, factor)
      {
        result := result + [Decayed(es[i].sentence, factor)];
        i := i + 1;
      }
      ghost var decayed := DecayedEntries(es, factor);
      var rebuilt: seq<Entry> := [];
      var k := 0;
      while k < |result|
        invariant 0 <= k <= |result|
        invariant rebuilt == InsertAll([], decayed[..k])
      {
        assert decayed[..k + 1][..k] == decayed[..k];
        rebuilt := Insert(rebuilt, Entry(result[k].value.confidence, result[k]));
        k := k + 1;
      }
      assert decayed[..k] == decayed;
      ForgottenContents(es, factor);
      entries := rebuilt;
    }
  }

  lemma TrimmedSorted(es: seq<Entry>, cap: nat)
    requires Sorted(es)
    ensures Sorted(Trimmed(es, cap))
  {
  }

  lemma StagedSorted(es: seq<Entry>, s: Sentence, engine: Engine)
    requires Sorted(es)
    ensures Sorted(Staged(es, s, engine))
  {
    if s.IsEvent() && |es| > 0 {
      var stored := es[0].sentence;
      assert Sorted(es[1..]);
      if engine.mayInteract(s, stored) {
        InsertSorted(es[1..], RevisedEntry(s, stored, engine));
      } else {
        InsertSorted(es[1..], ChoiceEntry(stored, s, engine));
      }
    } else {
      var revised := if |es| > 0 then InsertAll(es, RevisedEntries(s, Interactable(es, s, engine), engine)) else es;
      if |es| > 0 {
        InsertAllSorted(es, RevisedEntries(s, Interactable(es, s, engine), engine));
      }
      InsertSorted(revised, Entry(s.value.confidence, s));
    }
  }
  /** Trimming keeps the last min(|es|, cap) entries, and drops only keys at least as high as every kept key. */
  lemma TrimmedDropsHighest(es: seq<Entry>, cap: nat)
    requires Sorted(es)
    ensures |Trimmed(es, cap)| == if |es| > cap then cap else |es|
    ensures Trimmed(es, cap) == es[|es| - |Trimmed(es, cap)|..]
    ensures forall i, k :: 0 <= i < |es| - |Trimmed(es, cap)| && 0 <= k < |Trimmed(es, cap)|
              ==> es[i].key >= Trimmed(es, cap)[k].key
  {
    var t := Trimmed(es, cap);
    var d := |es| - |t|;
    forall i, k | 0 <= i < d && 0 <= k < |t| ensures es[i].key >= t[k].key {
      assert t[k] == es[d + k];
    }
  }

  /** A sentence is interactable exactly when some stored entry holds it and j may interact with it. */
  lemma {:induction false} InteractableMembers(es: seq<Entry>, j: Sentence, engine: Engine, x: Sentence)
    ensures x in Interactable(es, j, engine)
            <==> (engine.mayInteract(j, x) && exists i :: 0 <= i < |es| && es[i].sentence == x)
  {
    if es != [] {
      InteractableMembers(es[1..], j, engine, x);
      if engine.mayInteract(j, x) && x != es[0].sentence && exists i :: 0 <= i < |es| && es[i].sentence == x {
        var i :| 0 <= i < |es| && es[i].sentence == x;
        assert es[1..][i-1].sentence == x;
      }
      if x in Interactable(es[1..], j, engine) {
        var i :| 0 <= i < |es[1..]| && es[1..][i].sentence == x;
        assert es[i+1].sentence == x;
      }
    }
  }

  /** The first interactable sentence: none exists exactly when no entry interacts, and it is the earliest that does. */
  lemma {:induction false} FirstInteractableIsFirst(es: seq<Entry>, j: Sentence, engine: Engine)
    ensures FirstInteractable(es, j, engine).None?
            <==> forall i :: 0 <= i < |es| ==> !engine.mayInteract(j, es[i].sentence)
    ensures FirstInteractable(es, j, engine).Some? ==>
              exists i :: 0 <= i < |es| && es[i].sentence == FirstInteractable(es, j, engine).value
                && engine.mayInteract(j, es[i].sentence)
                && forall k :: 0 <= k < i ==> !engine.mayInteract(j, es[k].sentence)
  {
    if es != [] && !engine.mayInteract(j, es[0].sentence) {
      FirstInteractableIsFirst(es[1..], j, engine);
      if FirstInteractable(es[1..], j, engine).Some? {
        var i :| 0 <= i < |es[1..]| && es[1..][i].sentence == FirstInteractable(es[1..], j, engine).value
                && engine.mayInteract(j, es[1..][i].sentence)
                && forall k :: 0 <= k < i ==> !engine.mayInteract(j, es[1..][k].sentence);
        assert es[i+1].sentence == FirstInteractable(es, j, engine).value;
        forall k | 0 <= k < i + 1 ensures !engine.mayInteract(j, es[k].sentence) {
          if k > 0 { assert es[k] == es[1..][k-1]; }
        }
      } else {
        forall i | 0 <= i < |es| ensures !engine.mayInteract(j, es[i].sentence) {
          if i > 0 { assert es[i] == es[1..][i-1]; }
        }
      }
    }
  }

  /** The first interactable sentence is the head of the interactable list. */
  lemma {:induction false} FirstInteractableIsHead(es: seq<Entry>, j: Sentence, engine: Engine)
    ensures FirstInteractable(es, j, engine).None? <==> Interactable(es, j, engine) == []
    ensures FirstInteractable(es, j, engine).Some? ==>
              FirstInteractable(es, j, engine).value == Interactable(es, j, engine)[0]
  {
    if es != [] && !engine.mayInteract(j, es[0].sentence) {
      FirstInteractableIsHead(es[1..], j, engine);
    }
  }

  /**
    What put stores before trimming: an event meeting a non-empty table
    replaces the top entry by exactly one entry (the revision when they may
    interact, else the choice rule's winner); any other sentence adds one
    revision per interactable entry plus itself, keyed by its own confidence.
  */
  lemma StagedContents(es: seq<Entry>, s: Sentence, engine: Engine)
    ensures s.IsEvent() && |es| > 0 && engine.mayInteract(s, es[0].sentence) ==>
              multiset(Staged(es, s, engine)) == multiset(es[1..]) + multiset{RevisedEntry(s, es[0].sentence, engine)}
    ensures s.IsEvent() && |es| > 0 && !engine.mayInteract(s, es[0].sentence) ==>
              multiset(Staged(es, s, engine)) == multiset(es[1..]) + multiset{ChoiceEntry(es[0].sentence, s, engine)}
    ensures !(s.IsEvent() && |es| > 0) ==>
              multiset(Staged(es, s, engine))
              == multiset(es) + multiset(RevisedEntries(s, Interactable(es, s, engine), engine))
                 + multiset{Entry(s.value.confidence, s)}
    ensures s.IsEvent() && |es| > 0 ==> |Staged(es, s, engine)| == |es|
    ensures !(s.IsEvent() && |es| > 0) ==> |Staged(es, s, engine)| == |es| + |Interactable(es, s, engine)| + 1
  {
    if s.IsEvent() && |es| > 0 {
      var stored := es[0].sentence;
      if engine.mayInteract(s, stored) {
        InsertMultiset(es[1..], RevisedEntry(s, stored, engine));
      } else {
        InsertMultiset(es[1..], ChoiceEntry(stored, s, engine));
      }
    } else {
      var revised := if |es| > 0 then InsertAll(es, RevisedEntries(s, Interactable(es, s, engine), engine)) else es;
      if |es| > 0 {
        InsertAllContents(es, RevisedEntries(s, Interactable(es, s, engine), engine));
      }
      InsertMultiset(revised, Entry(s.value.confidence, s));
    }
  }

  /** The choice rule keeps the larger decayed confidence, and the new event on a tie. */
  lemma ChoiceKeepsStronger(stored: Sentence, s: Sentence, engine: Engine)
    ensures ChoiceEntry(stored, s, engine).key >= engine.decayedConfidence(stored)
    ensures ChoiceEntry(stored, s, engine).key >= engine.decayedConfidence(s)
    ensures ChoiceEntry(stored, s, engine).sentence == stored
            <==> (engine.decayedConfidence(stored) > engine.decayedConfidence(s) || stored == s)
  {
  }

  /** After put the table holds at most its capacity, and an event never grows a non-empty table. */
  lemma PutBounds(es: seq<Entry>, s: Sentence, engine: Engine, cap: nat)
    ensures |Trimmed(Staged(es, s, engine), cap)| <= cap
    ensures s.IsEvent() && |es| > 0 ==> |Trimmed(Staged(es, s, engine), cap)| <= |es|
  {
    StagedContents(es, s, engine);
  }

  /**
    Forget keeps the number of entries, keeps them sorted, and holds exactly
    the decayed sentences unless it skips the table.
  */
  lemma ForgottenContents(es: seq<Entry>, factor: real)
    ensures |Forgotten(es, factor)| == |es|
    ensures Sorted(Forgotten(es, factor)) || (Forgotten(es, factor) == es)
    ensures |es| > 0 && !es[0].sentence.IsEvent() ==>
              multiset(Forgotten(es, factor)) == multiset(DecayedEntries(es, factor))
    ensures |es| == 0 || es[0].sentence.IsEvent() ==> Forgotten(es, factor) == es
  {
    if |es| > 0 && !es[0].sentence.IsEvent() {
      InsertAllContents([], DecayedEntries(es, factor));
      InsertAllSorted([], DecayedEntries(es, factor));
    }
  }

  /** Every stored sentence comes back from Forget with its confidence multiplied by the factor. */
  lemma ForgottenScales(es: seq<Entry>, factor: real, k: nat)
    requires |es| > 0 && !es[0].sentence.IsEvent()
    requires k < |es|
    ensures DecayedEntry(es[k], factor) in multiset(Forgotten(es, factor))
    ensures DecayedEntry(es[k], factor).sentence.value.confidence == es[k].sentence.value.confidence * factor
    ensures DecayedEntry(es[k], factor).key == es[k].sentence.value.confidence * factor
  {
    ForgottenContents(es, factor);
    var d := DecayedEntries(es, factor);
    assert d[k] == DecayedEntry(es[k], factor);
    assert d[k] in multiset(d);
  }

  /** Keys strictly decreasing and equal to the stored confidences. */
  predicate StrictlyOrderedByConfidence(es: seq<Entry>)
  {
    (forall i :: 0 <= i < |es| ==> es[i].key == es[i].sentence.value.confidence)
    && (forall i, j :: 0 <= i < j < |es| ==> es[i].key > es[j].key)
  }

  /** A key below every stored key is appended at the end. */
  lemma InsertBelowAll(es: seq<Entry>, e: Entry)
    requires forall i :: 0 <= i < |es| ==> es[i].key > e.key
    ensures Insert(es, e) == es + [e]
  {
    assert InsertPosition(es, e.key) == |es|;
  }

  /**
    When keys are the stored confidences and strictly decreasing, Forget
    with a positive factor keeps the order of the entries.
  */
  lemma {:induction false} ForgottenKeepsOrder(es: seq<Entry>, factor: real)
    requires factor > 0.0
    requires StrictlyOrderedByConfidence(es)
    ensures Forgotten(es, factor) == es || Forgotten(es, factor) == DecayedEntries(es, factor)
  {
    if |es| > 0 && !es[0].sentence.IsEvent() {
      var d := DecayedEntries(es, factor);
      forall i, j | 0 <= i < j < |d| ensures d[i].key > d[j].key {
        assert d[i].key == es[i].key * factor;
        assert d[j].key == es[j].key * factor;
        ScaledStrictly(es[i].key, es[j].key, factor);
      }
      InsertAllDescending(d);
    }
  }

  lemma ScaledStrictly(a: real, b: real, factor: real)
    requires a > b && factor > 0.0
    ensures a * factor > b * factor
  {
    assert a * factor - b * factor == (a - b) * factor;
  }

  /** Inserting strictly descending keys one by one rebuilds the same list. */
  lemma {:induction false} InsertAllDescending(d: seq<Entry>)
    requires forall i, j :: 0 <= i < j < |d| ==> d[i].key > d[j].key
    ensures InsertAll([], d) == d
  {
    if d != [] {
      var init := d[..|d|-1];
      assert forall i, j :: 0 <= i < j < |init| ==> init[i].key > init[j].key;
      InsertAllDescending(init);
      InsertBelowAll(init, d[|d|-1]);
      assert init + [d[|d|-1]] == d;
    }
  }
}
