/** The comparison engine: the key-wise difference of two string maps, and the
    conversion of typed values to the strings that are compared. */
module MapDiff {
  import opened Wrappers

  /** The two sides of one differing key; None where a side lacks the key. */
  datatype DiffEntry = DiffEntry(left: Option<string>, right: Option<string>)

  function Get(m: map<string, string>, k: string): Option<string>
  {
    if k in m then Some(m[k]) else None
  }

  function Swap(e: DiffEntry): DiffEntry
  {
    DiffEntry(e.right, e.left)
  }

  /** The difference of two maps: every key on which they disagree, with
      what each side holds there. */
  function Diff(left: map<string, string>, right: map<string, string>): map<string, DiffEntry>
  {
    map k | k in left.Keys + right.Keys && Get(left, k) != Get(right, k)
      :: DiffEntry(Get(left, k), Get(right, k))
  }

  /** Go's mapString: a pass over `left`, then a pass over `right`, each
      visiting the keys in an unspecified order. */
  method MapString(left: map<string, string>, right: map<string, string>)
    returns (result: map<string, DiffEntry>)
    ensures result == Diff(left, right)
  {
    result := map[];
    var todo := left.Keys;
    while todo != {}
      invariant todo <= left.Keys
      invariant forall k :: k in result <==>
        k in left && k !in todo && !(k in right && left[k] == right[k])
      invariant forall k :: k in result ==> result[k] == DiffEntry(Get(left, k), Get(right, k))
      decreases todo
    {
      var k :| k in todo;
      var v := left[k];
      if k in right {
        if v != right[k] {
          result := result[k := DiffEntry(Some(v), Some(right[k]))];
        }
      } else {
        result := result[k := DiffEntry(Some(v), None)];
      }
      todo := todo - {k};
    }
    todo := right.Keys;
    while todo != {}
      invariant todo <= right.Keys
      invariant forall k :: k in result <==>
        (k in left && !(k in right && left[k] == right[k])) ||
        (k in right && k !in left && k !in todo)
      invariant forall k :: k in result ==> result[k] == DiffEntry(Get(left, k), Get(right, k))
      decreases todo
    {
      var k :| k in todo;
      var v := right[k];
      if k !in left {
        result := result[k := DiffEntry(None, Some(v))];
      }
      todo := todo - {k};
    }
    assert result.Keys == Diff(left, right).Keys;
  }

  /** A key both maps hold with different values appears with both values. */
  lemma DiffBothDiffer(left: map<string, string>, right: map<string, string>, k: string)
    requires k in left && k in right && left[k] != right[k]
    ensures k in Diff(left, right)
    ensures Diff(left, right)[k] == DiffEntry(Some(left[k]), Some(right[k]))
  {
  }

  /** A key only `left` holds appears with its right side unset. */
  lemma DiffLeftOnly(left: map<string, string>, right: map<string, string>, k: string)
    requires k in left && k !in right
    ensures k in Diff(left, right)
    ensures Diff(left, right)[k] == DiffEntry(Some(left[k]), None)
  {
  }

  /** A key only `right` holds appears with its left side unset. */
  lemma DiffRightOnly(left: map<string, string>, right: map<string, string>, k: string)
    requires k !in left && k in right
    ensures k in Diff(left, right)
    ensures Diff(left, right)[k] == DiffEntry(None, Some(right[k]))
  {
  }

  /** The keys of the difference are exactly the keys of either map on which
      the maps disagree; keys with equal values on both sides are left out. */
  lemma DiffKeys(left: map<string, string>, right: map<string, string>)
    ensures Diff(left, right).Keys ==
      set k | k in left.Keys + right.Keys && !(k in left && k in right && left[k] == right[k])
    ensures forall k :: k in left && k in right && left[k] == right[k] ==> k !in Diff(left, right)
  {
  }

  /** No entry has both sides unset, and no entry has two equal sides. */
  lemma DiffEntriesDisagree(left: map<string, string>, right: map<string, string>)
    ensures forall k :: k in Diff(left, right) ==>
      Diff(left, right)[k].left != Diff(left, right)[k].right
  {
  }

  /** A map does not differ from itself. */
  lemma DiffOfSelf(m: map<string, string>)
    ensures Diff(m, m) == map[]
  {
  }

  /** Swapping the arguments swaps the sides of every entry. */
  lemma DiffSwap(left: map<string, string>, right: map<string, string>)
    ensures Diff(right, left).Keys == Diff(left, right).Keys
    ensures forall k :: k in Diff(left, right) ==> Diff(right, left)[k] == Swap(Diff(left, right)[k])
  {
  }

  /** Maps with no key in common differ on every key, each entry having
      exactly one side set. */
  lemma DiffDisjoint(left: map<string, string>, right: map<string, string>)
    requires left.Keys !! right.Keys
    ensures |Diff(left, right)| == |left| + |right|
    ensures forall k :: k in Diff(left, right) ==>
      Diff(left, right)[k].left.Some? != Diff(left, right)[k].right.Some?
  {
    assert Diff(left, right).Keys == left.Keys + right.Keys;
    assert |left.Keys + right.Keys| == |left.Keys| + |right.Keys|;
  }

  /** Go's paramMapToStringMap: the display string of every value, under the
      same keys. `show` stands for param.Value's String method. */
  method ParamMapToStringMap<V>(params: map<string, V>, show: V -> string)
    returns (result: map<string, string>)
    ensures result.Keys == params.Keys
    ensures forall k :: k in result ==> result[k] == show(params[k])
    ensures result == Displayed(params, show)
  {
    result := map[];
    var todo := params.Keys;
    while todo != {}
      invariant todo <= params.Keys
      invariant result.Keys == params.Keys - todo
      invariant forall k :: k in result ==> result[k] == show(params[k])
      decreases todo
    {
      var k :| k in todo;
      result := result[k := show(params[k])];
      todo := todo - {k};
    }
  }

  /** The display map ParamMapToStringMap computes, as a value. */
  function Displayed<V>(params: map<string, V>, show: V -> string): map<string, string>
  {
    map k | k in params :: show(params[k])
  }

  /** Two values whose display strings agree are not a difference, whatever
      their typed values. */
  lemma DisplayedDiffIgnoresEqualStrings<V>(p1: map<string, V>, p2: map<string, V>, show: V -> string, k: string)
    requires k in p1 && k in p2 && show(p1[k]) == show(p2[k])
    ensures k !in Diff(Displayed(p1, show), Displayed(p2, show))
  {
  }
}
