/** Rendering of a difference as table lines (Go's printMapDiff, br and
    heading). Column alignment and colour are not modelled: each line is the
    list of cells the source writes, tab-separated, for one table row. */
module Render {
  import opened Wrappers
  import opened StringOrder
  import opened MapDiff

  /** Written for a side that lacks the key. */
  const NotSet := "(not set)"

  datatype Line =
    | Header(caption: string, left: string, right: string)  // "caption\tleft\tright"
    | Blank                                              // br: "\t\t"
    | Heading(title: string)                             // heading: "title\t\t"
    | Entry(key: string, left: string, right: string)    // "key:\tleft\tright"
    | NoDifference                                       // "(no difference)\t\t"

  /** The cell printed for one side of an entry. */
  function Text(side: Option<string>): (cell: string)
    ensures Shows(cell, side)
  {
    match side
    case Some(v) => v
    case None => NotSet
  }

  /** `cell` is what one side of an entry prints: its value, or "(not set)"
      when the side lacks the key. */
  ghost predicate Shows(cell: string, side: Option<string>)
  {
    (side.None? ==> cell == NotSet) && (side.Some? ==> cell == side.value)
  }

  /** The row printed for one key of a difference. */
  function EntryLine(key: string, e: DiffEntry): (line: Line)
    ensures line.Entry? && line.key == key
    ensures Shows(line.left, e.left) && Shows(line.right, e.right)
  {
    Entry(key, Text(e.left), Text(e.right))
  }

  /** The keyVal records printMapDiff collects and sorts. */
  datatype KeyVal = KeyVal(key: string, value: DiffEntry)

  predicate DistinctKeys(kvs: seq<KeyVal>)
  {
    forall i, j :: 0 <= i < j < |kvs| ==> kvs[i].key != kvs[j].key
  }

  predicate KeysIncreasing(kvs: seq<KeyVal>)
  {
    forall i, j :: 0 <= i < j < |kvs| ==> Less(kvs[i].key, kvs[j].key)
  }

  function KeysOf(kvs: seq<KeyVal>): (ks: seq<string>)
    ensures |ks| == |kvs|
    ensures forall i :: 0 <= i < |kvs| ==> ks[i] == kvs[i].key
  {
    seq(|kvs|, i requires 0 <= i < |kvs| => kvs[i].key)
  }

  /** The lines of one section for a difference: one entry line per key in
      increasing key order, or the single "(no difference)" line. */
  ghost function DiffTable(diff: map<string, DiffEntry>): seq<Line>
  {
    if diff == map[] then [NoDifference]
    else
      var keys := SortedKeys(diff.Keys);
      seq(|keys|, i requires 0 <= i < |keys| => EntryLine(keys[i], diff[keys[i]]))
  }

  /** A non-empty difference's section has one line per key, in key order. */
  lemma DiffTableLines(diff: map<string, DiffEntry>)
    requires diff != map[]
    ensures |DiffTable(diff)| == |diff| == |SortedKeys(diff.Keys)|
    ensures forall i :: 0 <= i < |DiffTable(diff)| ==>
      SortedKeys(diff.Keys)[i] in diff &&
      DiffTable(diff)[i] == EntryLine(SortedKeys(diff.Keys)[i], diff[SortedKeys(diff.Keys)[i]])
  {
  }

  /** The section is the single "(no difference)" line exactly when the
      difference is empty. */
  lemma DiffTableEmpty(diff: map<string, DiffEntry>)
    ensures diff == map[] <==> DiffTable(diff) == [NoDifference]
  {
    if diff != map[] {
      DiffTableLines(diff);
      assert DiffTable(diff)[0].Entry?;
    }
  }

  /** Every line of a non-empty difference's section is an entry for a key
      of the difference, each side's cell being that side's value or
      "(not set)". */
  lemma DiffTableCells(diff: map<string, DiffEntry>)
    requires diff != map[]
    ensures forall i :: 0 <= i < |DiffTable(diff)| ==>
      DiffTable(diff)[i].Entry? && DiffTable(diff)[i].key in diff &&
      Shows(DiffTable(diff)[i].left, diff[DiffTable(diff)[i].key].left) &&
      Shows(DiffTable(diff)[i].right, diff[DiffTable(diff)[i].key].right)
  {
    DiffTableLines(diff);
  }

  /** The entry lines come in strictly increasing key order and every key of
      the difference has one. */
  lemma DiffTableOrder(diff: map<string, DiffEntry>)
    requires diff != map[]
    ensures forall i, j :: 0 <= i < j < |DiffTable(diff)| ==>
      Less(DiffTable(diff)[i].key, DiffTable(diff)[j].key)
    ensures forall k :: k in diff ==>
      exists i :: 0 <= i < |DiffTable(diff)| && DiffTable(diff)[i].key == k
  {
    DiffTableLines(diff);
    var keys := SortedKeys(diff.Keys);
    var t := DiffTable(diff);
    forall i, j | 0 <= i < j < |t|
      ensures Less(t[i].key, t[j].key)
    {
      assert t[i].key == keys[i] && t[j].key == keys[j];
    }
    forall k | k in diff
      ensures exists i :: 0 <= i < |t| && t[i].key == k
    {
      var i :| 0 <= i < |keys| && keys[i] == k;
      assert t[i].key == k;
    }
  }

  /** A section always has at least one line. */
  lemma DiffTableNonEmpty(diff: map<string, DiffEntry>)
    ensures |DiffTable(diff)| >= 1
  {
    if diff != map[] {
      assert |SortedKeys(diff.Keys)| == |diff.Keys| > 0;
    }
  }

  /** The effect of sort.Slice on the collected records: the same records,
      ordered by key. Keys are distinct, as they come from a map. */
  method SortByKey(kvs: seq<KeyVal>) returns (sorted: seq<KeyVal>)
    requires DistinctKeys(kvs)
    ensures |sorted| == |kvs|
    ensures forall kv :: kv in sorted <==> kv in kvs
    ensures KeysIncreasing(sorted)
  {
    sorted := [];
    for n := 0 to |kvs|
      invariant |sorted| == n
      invariant forall kv :: kv in sorted <==> kv in kvs[..n]
      invariant KeysIncreasing(sorted)
    {
      var x := kvs[n];
      var p := 0;
      while p < |sorted| && Less(sorted[p].key, x.key)
        invariant 0 <= p <= |sorted|
        invariant forall j :: 0 <= j < p ==> Less(sorted[j].key, x.key)
      {
        p := p + 1;
      }
      forall j | 0 <= j < |sorted|
        ensures sorted[j].key != x.key
      {
        assert sorted[j] in kvs[..n];
        var i :| 0 <= i < n && kvs[i] == sorted[j];
      }
      forall j | p <= j < |sorted|
        ensures Less(x.key, sorted[j].key)
      {
        LessTotal(x.key, sorted[p].key);
        if j > p {
          LessTransitive(x.key, sorted[p].key, sorted[j].key);
        }
      }
      assert kvs[..n + 1] == kvs[..n] + [x];
      InsertAt(sorted, x, p);
      sorted := sorted[..p] + [x] + sorted[p..];
    }
    assert kvs[..|kvs|] == kvs;
  }

  /** Putting x between the keys below it and the keys above it keeps the
      keys increasing. */
  lemma InsertAt(s: seq<KeyVal>, x: KeyVal, p: nat)
    requires p <= |s| && KeysIncreasing(s)
    requires forall j :: 0 <= j < p ==> Less(s[j].key, x.key)
    requires forall j :: p <= j < |s| ==> Less(x.key, s[j].key)
    ensures KeysIncreasing(s[..p] + [x] + s[p..])
  {
    var t := s[..p] + [x] + s[p..];
    forall i, j | 0 <= i < j < |t|
      ensures Less(t[i].key, t[j].key)
    {
      var ki := if i < p then s[i].key else if i == p then x.key else s[i - 1].key;
      var kj := if j < p then s[j].key else if j == p then x.key else s[j - 1].key;
      assert t[i].key == ki && t[j].key == kj;
    }
  }

  /** The first loop of printMapDiff: one record per key of the difference,
      in the unspecified order of Go's map iteration. */
  method CollectKeyVals(diff: map<string, DiffEntry>) returns (kvs: seq<KeyVal>)
    ensures forall kv :: kv in kvs <==> kv.key in diff && kv.value == diff[kv.key]
    ensures DistinctKeys(kvs)
  {
    kvs := [];
    var todo := diff.Keys;
    while todo != {}
      invariant todo <= diff.Keys
      invariant forall kv :: kv in kvs <==> kv.key in diff && kv.key !in todo && kv.value == diff[kv.key]
      invariant DistinctKeys(kvs)
      decreases todo
    {
      var k :| k in todo;
      kvs := kvs + [KeyVal(k, diff[k])];
      todo := todo - {k};
    }
  }

  /** The records of a difference, sorted by key, are the difference's table
      rows in table order. */
  lemma SortedRecordsGiveTable(diff: map<string, DiffEntry>, kvs: seq<KeyVal>)
    requires forall kv :: kv in kvs <==> kv.key in diff && kv.value == diff[kv.key]
    requires KeysIncreasing(kvs)
    requires diff != map[]
    ensures |DiffTable(diff)| == |kvs|
    ensures forall i :: 0 <= i < |kvs| ==> DiffTable(diff)[i] == EntryLine(kvs[i].key, kvs[i].value)
  {
    var keys := KeysOf(kvs);
    forall x
      ensures x in keys <==> x in diff.Keys
    {
      if x in diff.Keys {
        assert KeyVal(x, diff[x]) in kvs;
      }
      if x in keys {
        var i :| 0 <= i < |keys| && keys[i] == x;
        assert kvs[i] in kvs;
      }
    }
    SortedKeysUnique(keys, diff.Keys);
    forall i | 0 <= i < |kvs|
      ensures DiffTable(diff)[i] == EntryLine(kvs[i].key, kvs[i].value)
    {
      assert kvs[i] in kvs;
    }
  }

  /** Go's printMapDiff: collect the difference's records, sort them by key,
      and write one line per record, or "(no difference)". */
  method PrintMapDiff(map1: map<string, string>, map2: map<string, string>)
    returns (lines: seq<Line>)
    ensures lines == DiffTable(Diff(map1, map2))
  {
    var diff := MapString(map1, map2);
    var keyVals := CollectKeyVals(diff);
    keyVals := SortByKey(keyVals);

    if |keyVals| > 0 {
      lines := WriteEntries(keyVals);
      assert keyVals[0] in keyVals;
      SortedRecordsGiveTable(diff, keyVals);
    } else {
      assert forall k :: k in diff ==> KeyVal(k, diff[k]) in keyVals;
      lines := [NoDifference];
    }
  }

  /** The writing loop of printMapDiff: one entry line per record, in order. */
  method WriteEntries(kvs: seq<KeyVal>) returns (lines: seq<Line>)
    ensures |lines| == |kvs|
    ensures forall j :: 0 <= j < |kvs| ==> lines[j] == EntryLine(kvs[j].key, kvs[j].value)
  {
    lines := [];
    for i := 0 to |kvs|
      invariant |lines| == i
      invariant forall j :: 0 <= j < i ==> lines[j] == EntryLine(kvs[j].key, kvs[j].value)
    {
      lines := lines + [EntryLine(kvs[i].key, kvs[i].value)];
    }
  }

  /** A difference with one key prints as that key's single entry line. */
  lemma SingleEntryTable(k: string, e: DiffEntry)
    ensures DiffTable(map[k := e]) == [EntryLine(k, e)]
  {
    var keys := SortedKeys(map[k := e].Keys);
    assert |keys| == 1 && keys[0] in map[k := e];
  }

  /** Comparing a map with itself prints only "(no difference)". */
  lemma DiffTableOfSelf(m: map<string, string>)
    ensures DiffTable(Diff(m, m)) == [NoDifference]
  {
    DiffOfSelf(m);
  }
}
