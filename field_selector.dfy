/**
 * Field selection extraction: the list of paths the gateway puts in the downstream
 * field mask is the names of the plain-field nodes of one selection set, in source order,
 * duplicates included. Every other node kind is skipped without error, and the nested
 * selection sets of fields and fragments are not looked into.
 */
module FieldSelector {
  import opened GraphQLAst

  /** Specification: the names of the plain-field nodes of `sels`, left to right. */
  function FieldNames(sels: seq<Selection>): (names: seq<string>)
  {
    if sels == [] then []
    else if sels[0].FieldSelection? then [sels[0].field.name] + FieldNames(sels[1..])
    else FieldNames(sels[1..])
  }

  /** Reference count: how many nodes of `sels` are plain fields (names play no part). */
  function CountFields(sels: seq<Selection>): (count: nat)
  {
    if sels == [] then 0
    else (if sels[0].FieldSelection? then 1 else 0) + CountFields(sels[1..])
  }

  /** The extraction loop: one pass over the selections, appending each plain field's name. */
  method ExtractFields(selectionSet: SelectionSet) returns (fields: seq<string>)
    ensures fields == FieldNames(selectionSet.selections)
  {
    var sels := selectionSet.selections;
    fields := [];
    for i := 0 to |sels|
      invariant fields == FieldNames(sels[..i])
    {
      assert sels[..i + 1] == sels[..i] + [sels[i]];
      FieldNamesAppend(sels[..i], [sels[i]]);
      if sels[i].FieldSelection? {
        fields := fields + [sels[i].field.name];
      }
    }
    assert sels[..|sels|] == sels;
  }

  /** Extraction distributes over concatenation of selection lists. */
  lemma {:induction false} FieldNamesAppend(a: seq<Selection>, b: seq<Selection>)
    ensures FieldNames(a + b) == FieldNames(a) + FieldNames(b)
  {
    if a == [] {
      assert a + b == b;
    } else {
      assert (a + b)[1..] == a[1..] + b;
      FieldNamesAppend(a[1..], b);
    }
  }

  /** Counting distributes over concatenation of selection lists. */
  lemma {:induction false} CountFieldsAppend(a: seq<Selection>, b: seq<Selection>)
    ensures CountFields(a + b) == CountFields(a) + CountFields(b)
  {
    if a == [] {
      assert a + b == b;
    } else {
      assert (a + b)[1..] == a[1..] + b;
      CountFieldsAppend(a[1..], b);
    }
  }

  /** One path per plain-field node and none for any other node. */
  lemma {:induction false} FieldNamesLength(sels: seq<Selection>)
    ensures |FieldNames(sels)| == CountFields(sels)
  {
    if sels != [] {
      FieldNamesLength(sels[1..]);
    }
  }

  /** A selection set has at most as many plain-field nodes as nodes. */
  lemma {:induction false} CountFieldsAtMostLength(sels: seq<Selection>)
    ensures CountFields(sels) <= |sels|
  {
    if sels != [] {
      CountFieldsAtMostLength(sels[1..]);
    }
  }

  /**
   * Every plain-field node at index i yields its own name (not its alias) at the position
   * given by the number of plain-field nodes before it.
   */
  lemma FieldNamesPlacement(sels: seq<Selection>, i: nat)
    requires i < |sels| && sels[i].FieldSelection?
    ensures CountFields(sels[..i]) < |FieldNames(sels)|
    ensures FieldNames(sels)[CountFields(sels[..i])] == sels[i].field.name
  {
    var before, rest := sels[..i], sels[i + 1..];
    assert sels == before + ([sels[i]] + rest);
    FieldNamesAppend(before, [sels[i]] + rest);
    FieldNamesLength(before);
    assert ([sels[i]] + rest)[1..] == rest;
  }

  /**
   * Every path comes from a plain-field node: the k-th path is the name of the plain-field
   * node that has exactly k plain-field nodes before it.
   */
  lemma {:induction false} FieldNamesOrigin(sels: seq<Selection>, k: nat)
    requires k < |FieldNames(sels)|
    ensures exists i :: 0 <= i < |sels| && sels[i].FieldSelection?
                     && CountFields(sels[..i]) == k && sels[i].field.name == FieldNames(sels)[k]
  {
    var tail := sels[1..];
    if sels[0].FieldSelection? && k == 0 {
      assert sels[..0] == [];
      assert sels[0].field.name == FieldNames(sels)[0];
    } else {
      var k' := if sels[0].FieldSelection? then k - 1 else k;
      assert FieldNames(tail)[k'] == FieldNames(sels)[k];
      FieldNamesOrigin(tail, k');
      var j :| 0 <= j < |tail| && tail[j].FieldSelection?
               && CountFields(tail[..j]) == k' && tail[j].field.name == FieldNames(tail)[k'];
      assert sels[..j + 1] == [sels[0]] + tail[..j];
      assert sels[..j + 1][1..] == tail[..j];
      assert sels[j + 1] == tail[j];
    }
  }

  /**
   * Order and duplicates are kept: two plain-field nodes at i < j occupy two different
   * positions, the one from i first, even when they carry the same name.
   */
  lemma OrderAndDuplicatesKept(sels: seq<Selection>, i: nat, j: nat)
    requires i < j < |sels| && sels[i].FieldSelection? && sels[j].FieldSelection?
    ensures CountFields(sels[..i]) < CountFields(sels[..j]) < |FieldNames(sels)|
    ensures FieldNames(sels)[CountFields(sels[..i])] == sels[i].field.name
    ensures FieldNames(sels)[CountFields(sels[..j])] == sels[j].field.name
  {
    assert sels[..j] == sels[..i] + sels[i..j];
    CountFieldsAppend(sels[..i], sels[i..j]);
    assert sels[i..j][0] == sels[i];
    FieldNamesPlacement(sels, i);
    FieldNamesPlacement(sels, j);
  }

  /** A selection set yields no path exactly when none of its nodes is a plain field. */
  lemma {:induction false} NoPathsIffNoFields(sels: seq<Selection>)
    ensures FieldNames(sels) == [] <==> forall i :: 0 <= i < |sels| ==> !sels[i].FieldSelection?
  {
    if sels != [] {
      NoPathsIffNoFields(sels[1..]);
      assert forall i :: 1 <= i < |sels| ==> sels[i] == sels[1..][i - 1];
    }
  }

  /** A node that is not a plain field contributes nothing, wherever it stands. */
  lemma NonFieldContributesNothing(before: seq<Selection>, node: Selection, after: seq<Selection>)
    requires !node.FieldSelection?
    ensures FieldNames(before + [node] + after) == FieldNames(before + after)
  {
    FieldNamesAppend(before + [node], after);
    FieldNamesAppend(before, [node]);
    FieldNamesAppend(before, after);
  }

  /**
   * `paths` lists exactly the plain-field nodes of `sels`: one path per such node, holding
   * its name at the rank of the node among them, and every path coming from such a node.
   */
  ghost predicate EnumeratesFields(sels: seq<Selection>, paths: seq<string>)
  {
    && |paths| == CountFields(sels)
    && (forall i :: 0 <= i < |sels| && sels[i].FieldSelection? ==>
          CountFields(sels[..i]) < |paths| && paths[CountFields(sels[..i])] == sels[i].field.name)
    && (forall k :: 0 <= k < |paths| ==> ComesFromField(sels, paths, k))
  }

  /** The k-th path is the name of the plain-field node with exactly k such nodes before it. */
  ghost predicate ComesFromField(sels: seq<Selection>, paths: seq<string>, k: nat)
    requires k < |paths|
  {
    exists i :: 0 <= i < |sels| && sels[i].FieldSelection?
             && CountFields(sels[..i]) == k && sels[i].field.name == paths[k]
  }

  /** The extracted paths enumerate the plain-field nodes, in the sense above. */
  lemma FieldNamesEnumerateFields(sels: seq<Selection>)
    ensures EnumeratesFields(sels, FieldNames(sels))
  {
    FieldNamesLength(sels);
    forall i | 0 <= i < |sels| && sels[i].FieldSelection?
      ensures CountFields(sels[..i]) < |FieldNames(sels)|
      ensures FieldNames(sels)[CountFields(sels[..i])] == sels[i].field.name
    {
      FieldNamesPlacement(sels, i);
    }
    var paths := FieldNames(sels);
    forall k | 0 <= k < |paths|
      ensures ComesFromField(sels, paths, k)
    {
      FieldNamesOrigin(sels, k);
    }
  }
}
