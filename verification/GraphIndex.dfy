/**
 The lookup of captured CUDA graphs (src/instance_state.cc:3210-3245). A std::map
 from packed shapes to graphs is the sequence of its entries in key order.
 */
module GraphIndex {
  import opened Options

  type Key = seq<int>

  /** operator< of std::vector: lexicographic. */
  predicate LexLess(a: Key, b: Key) {
    b != [] && (a == [] || a[0] < b[0] || (a[0] == b[0] && LexLess(a[1..], b[1..])))
  }

  datatype CudaGraph = CudaGraph(
    lowerBoundKey: Key,
    inputDims: seq<seq<int>>,
    capturedBuffer: nat  // the executable graph: it reads and writes the buffer set it was captured against
  )

  datatype Entry = Entry(key: Key, graph: CudaGraph)

  ghost predicate Sorted(index: seq<Entry>) {
    forall i, j :: 0 <= i < j < |index| ==> LexLess(index[i].key, index[j].key)
  }

  /** A pointwise below b, position by position. */
  predicate Below(a: Key, b: Key) {
    |a| == |b| && forall i :: 0 <= i < |a| ==> a[i] <= b[i]
  }

  /** The representation invariant of one entry for keys of the given length. */
  predicate WellFormed(entry: Entry, length: nat) {
    |entry.key| == length && Below(entry.graph.lowerBoundKey, entry.key)
  }

  ghost predicate Index(index: seq<Entry>, length: nat) {
    Sorted(index) && forall i :: 0 <= i < |index| ==> WellFormed(index[i], length)
  }

  /** All keys of the index come before `key`. */
  ghost predicate AllBefore(index: seq<Entry>, key: Key) {
    Sorted(index) && forall i :: 0 <= i < |index| ==> LexLess(index[i].key, key)
  }

  /** A graph that may stand in for `key`. */
  predicate Covers(entry: Entry, key: Key) {
    Below(entry.graph.lowerBoundKey, key) && Below(key, entry.key)
  }

  // ----- The order of the keys -----

  lemma {:induction false} LexIrreflexive(a: Key)
    ensures !LexLess(a, a)
  {
    if a != [] {
      LexIrreflexive(a[1..]);
    }
  }

  lemma {:induction false} LexTransitive(a: Key, b: Key, c: Key)
    requires LexLess(a, b) && LexLess(b, c)
    ensures LexLess(a, c)
  {
    if a != [] && a[0] == b[0] == c[0] {
      LexTransitive(a[1..], b[1..], c[1..]);
    }
  }

  lemma {:induction false} LexTotal(a: Key, b: Key)
    ensures LexLess(a, b) || a == b || LexLess(b, a)
  {
    if a != [] && b != [] && a[0] == b[0] {
      LexTotal(a[1..], b[1..]);
      assert a == [a[0]] + a[1..] && b == [b[0]] + b[1..];
    }
  }

  /** Pointwise order implies lexicographic order, so no key before the lexicographic lower bound covers. */
  lemma {:induction false} BelowNotGreater(a: Key, b: Key)
    requires Below(a, b)
    ensures !LexLess(b, a)
  {
    if a != [] && a[0] == b[0] {
      assert forall i :: 0 <= i < |a[1..]| ==> a[1..][i] == a[i + 1] && b[1..][i] == b[i + 1];
      BelowNotGreater(a[1..], b[1..]);
    }
  }

  /** std::map::lower_bound: the first entry whose key is not less. */
  function LowerBound(index: seq<Entry>, key: Key, from: nat): (i: nat)
    requires from <= |index|
    ensures from <= i <= |index|
    ensures forall j :: from <= j < i ==> LexLess(index[j].key, key)
    ensures i < |index| ==> !LexLess(index[i].key, key)
    decreases |index| - from
  {
    if from < |index| && LexLess(index[from].key, key) then LowerBound(index, key, from + 1) else from
  }

  // ----- What the lookup is for, over all entries -----

  ghost predicate HasExact(index: seq<Entry>, key: Key) {
    exists i :: 0 <= i < |index| && index[i].key == key
  }

  ghost predicate HasCover(index: seq<Entry>, key: Key) {
    exists i :: 0 <= i < |index| && Covers(index[i], key)
  }

  /** Entry i covers, and is lexicographically least among all entries that cover. */
  ghost predicate LeastCover(index: seq<Entry>, key: Key, i: nat) {
    && i < |index| && Covers(index[i], key)
    && forall j :: 0 <= j < |index| && Covers(index[j], key) ==> j == i || LexLess(index[i].key, index[j].key)
  }

  /** What the lookup is to return: the exact entry, or else, if allowed, the least that covers. */
  ghost predicate IsFound(index: seq<Entry>, key: Key, allowInexactMatch: bool, entry: Entry) {
    && entry in index
    && if HasExact(index, key) then entry.key == key
       else allowInexactMatch && exists i: nat :: LeastCover(index, key, i) && index[i] == entry
  }

  /** Nothing before the lower bound is exact or covers, and the lower bound is exact if anything is. */
  lemma LowerBoundMissesNothing(index: seq<Entry>, key: Key)
    requires Sorted(index)
    ensures forall j :: 0 <= j < LowerBound(index, key, 0) ==> index[j].key != key && !Covers(index[j], key)
    ensures HasExact(index, key) <==>
              LowerBound(index, key, 0) < |index| && index[LowerBound(index, key, 0)].key == key
  {
    var first := LowerBound(index, key, 0);
    LexIrreflexive(key);
    forall j | 0 <= j < first
      ensures index[j].key != key && !Covers(index[j], key)
    {
      if Covers(index[j], key) {
        BelowNotGreater(key, index[j].key);
      }
    }
  }

  /**
   The lookup of line 3210 agrees with a scan of every graph: it returns the exact entry
   if there is one; otherwise, if inexact matches are allowed, the least covering entry;
   and nothing only if neither exists. `before` is the caller's value of *found_exact.
   */
  method FindClosestCudaGraph(index: seq<Entry>, key: Key, allowInexactMatch: bool, before: bool)
    returns (graph: Option<CudaGraph>, foundExact: bool)
    requires Index(index, |key|) || AllBefore(index, key)
    ensures !before ==> (foundExact <==> HasExact(index, key))
    ensures HasExact(index, key) ==>
              foundExact && exists i :: 0 <= i < |index| && index[i].key == key && graph == Some(index[i].graph)
    ensures !HasExact(index, key) && allowInexactMatch && HasCover(index, key) ==>
              exists i: nat :: LeastCover(index, key, i) && graph == Some(index[i].graph)
    ensures !HasExact(index, key) && !(allowInexactMatch && HasCover(index, key)) ==> graph == None
  {
    graph, foundExact := None, before;
    LowerBoundMissesNothing(index, key);
    var itr := LowerBound(index, key, 0);
    if itr != |index| {
      foundExact := index[itr].key == key;
      if foundExact {
        graph := Some(index[itr].graph);
        return;
      } else if allowInexactMatch {
        while itr != |index|
          invariant itr <= |index|
          invariant forall j :: 0 <= j < itr ==> !Covers(index[j], key)
          decreases |index| - itr
        {
          var found := true;
          var keyIdx := 0;
          assert WellFormed(index[itr], |key|);
          while keyIdx < |key|
            invariant keyIdx <= |key| && found
            invariant forall k :: 0 <= k < keyIdx ==>
                        index[itr].graph.lowerBoundKey[k] <= key[k] <= index[itr].key[k]
          {
            if key[keyIdx] > index[itr].key[keyIdx] || key[keyIdx] < index[itr].graph.lowerBoundKey[keyIdx] {
              found := false;
              break;
            }
            keyIdx := keyIdx + 1;
          }
          if found {
            graph := Some(index[itr].graph);
            assert LeastCover(index, key, itr);
            return;
          }
          itr := itr + 1;
        }
      }
    }
  }

  // ----- Insertion -----

  /** std::map::insert: an existing key keeps its value. */
  function Insert(index: seq<Entry>, entry: Entry): seq<Entry> {
    var i := LowerBound(index, entry.key, 0);
    if i < |index| && index[i].key == entry.key then index
    else index[..i] + [entry] + index[i..]
  }

  /** Insertion keeps the entries in key order. */
  lemma InsertSorted(index: seq<Entry>, entry: Entry)
    requires Sorted(index)
    ensures Sorted(Insert(index, entry))
  {
    var i := LowerBound(index, entry.key, 0);
    if i < |index| && index[i].key != entry.key {
      LexTotal(entry.key, index[i].key);
      forall j | i < j < |index| {
        LexTransitive(entry.key, index[i].key, index[j].key);
      }
    }
  }

  /** Insertion adds the entry if its key is new and changes nothing else. */
  lemma InsertContents(index: seq<Entry>, entry: Entry)
    requires Sorted(index)
    ensures HasExact(Insert(index, entry), entry.key)
    ensures forall e :: e in Insert(index, entry) <==> e in index || (e == entry && !HasExact(index, entry.key))
  {
    LowerBoundMissesNothing(index, entry.key);
    var i := LowerBound(index, entry.key, 0);
    if !HasExact(index, entry.key) {
      var result := Insert(index, entry);
      assert result[i] == entry;
      assert index == index[..i] + index[i..];
    }
  }
}
