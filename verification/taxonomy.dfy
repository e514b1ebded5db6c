/**
 * The label taxonomy the evaluation is parameterised by: an immutable table
 * of label records, and the lookups the scoring code makes into it
 * (`id2label`, `category2labels` and the list of evaluated ids).
 */
module Taxonomy {
  import opened Wrappers
  import opened SeqMath

  /** One label definition; ids may be negative for special labels. */
  datatype Label = Label(id: int, name: string, category: string, hasInstances: bool, ignoreInEval: bool)

  /** No two labels share an id. */
  ghost predicate UniqueIds(labels: seq<Label>) {
    forall i, j :: 0 <= i < j < |labels| ==> labels[i].id != labels[j].id
  }

  /** A taxonomy table: ids and names are unique. */
  ghost predicate WellFormed(labels: seq<Label>) {
    && UniqueIds(labels)
    && (forall i, j :: 0 <= i < j < |labels| ==> labels[i].name != labels[j].name)
  }

  /** The non-negative ids of `labels`, in table order (negative ids are never evaluated). */
  function NonNegativeIds(labels: seq<Label>): (ids: seq<nat>)
    ensures |ids| <= |labels|
    ensures forall x: nat :: x in ids <==> exists l :: l in labels && l.id == x
  {
    if |labels| == 0 then []
    else
      var init, last := labels[..|labels| - 1], labels[|labels| - 1];
      assert labels == init + [last];
      NonNegativeIds(init) + (if last.id >= 0 then [last.id] else [])
  }

  lemma {:induction false} NonNegativeIdsDistinct(labels: seq<Label>)
    requires UniqueIds(labels)
    ensures Distinct(NonNegativeIds(labels))
  {
    if |labels| > 0 {
      var init, last := labels[..|labels| - 1], labels[|labels| - 1];
      assert UniqueIds(init);
      NonNegativeIdsDistinct(init);
      forall x | x in NonNegativeIds(init)
        ensures x != last.id
      {
        var l :| l in init && l.id == x;
        var k :| 0 <= k < |init| && init[k] == l;
        assert labels[k] == l;
      }
      if last.id >= 0 {
        DistinctAppend(NonNegativeIds(init), last.id);
      }
    }
  }

  /** `id2label[id]`: the label with that id, if any. */
  function LabelOf(labels: seq<Label>, id: int): (r: Option<Label>)
    ensures r.Some? ==> r.value in labels && r.value.id == id
    ensures r.None? <==> forall l :: l in labels ==> l.id != id
  {
    if |labels| == 0 then None
    else if labels[0].id == id then Some(labels[0])
    else
      assert forall l :: l in labels ==> l == labels[0] || l in labels[1..];
      LabelOf(labels[1..], id)
  }

  /** With unique ids, looking a label up by its own id finds it. */
  lemma {:induction false} LabelOfFinds(labels: seq<Label>, l: Label)
    requires UniqueIds(labels) && l in labels
    ensures LabelOf(labels, l.id) == Some(l)
  {
    if labels[0] != l {
      assert labels[0].id != l.id by {
        var k :| 0 <= k < |labels| && labels[k] == l;
        assert k != 0;
      }
      assert l in labels[1..];
      assert UniqueIds(labels[1..]) by {
        forall i, j | 0 <= i < j < |labels[1..]|
          ensures labels[1..][i].id != labels[1..][j].id
        {
          assert labels[1..][i] == labels[i + 1] && labels[1..][j] == labels[j + 1];
        }
      }
      LabelOfFinds(labels[1..], l);
    }
  }

  /**
   * In a table with unique ids and names, the evaluated ids belong to labels
   * with pairwise distinct names: a dictionary keyed by the label name of
   * each evaluated id has exactly one entry per id.
   */
  lemma EvaluatedNamesDistinct(labels: seq<Label>, a: nat, b: nat)
    requires WellFormed(labels) && a < b < |NonNegativeIds(labels)|
    ensures LabelOf(labels, NonNegativeIds(labels)[a]).Some? && LabelOf(labels, NonNegativeIds(labels)[b]).Some?
    ensures LabelOf(labels, NonNegativeIds(labels)[a]).value.name != LabelOf(labels, NonNegativeIds(labels)[b]).value.name
  {
    var ids := NonNegativeIds(labels);
    NonNegativeIdsDistinct(labels);
    assert ids[a] in ids && ids[b] in ids;
    var la, lb := LabelOf(labels, ids[a]).value, LabelOf(labels, ids[b]).value;
    var i :| 0 <= i < |labels| && labels[i] == la;
    var j :| 0 <= j < |labels| && labels[j] == lb;
    assert i != j;
  }

  /** The id belongs to a label that takes part in scoring. */
  predicate Counted(labels: seq<Label>, id: int) {
    LabelOf(labels, id).Some? && !LabelOf(labels, id).value.ignoreInEval
  }

  /** `category2labels[c]`: the labels of category `c`, in table order. */
  function CategoryMembers(labels: seq<Label>, c: string): (ms: seq<Label>)
    ensures |ms| <= |labels|
    ensures forall l :: l in ms <==> l in labels && l.category == c
  {
    if |labels| == 0 then []
    else
      var init, last := labels[..|labels| - 1], labels[|labels| - 1];
      assert labels == init + [last];
      CategoryMembers(init, c) + (if last.category == c then [last] else [])
  }

  /** The keys of `category2labels`: every category once, in order of first appearance. */
  function Categories(labels: seq<Label>): (cs: seq<string>)
    ensures forall c :: c in cs <==> exists l :: l in labels && l.category == c
    ensures forall i, j :: 0 <= i < j < |cs| ==> cs[i] != cs[j]
  {
    if |labels| == 0 then []
    else
      var init, last := labels[..|labels| - 1], labels[|labels| - 1];
      assert labels == init + [last];
      var prev := Categories(init);
      if last.category in prev then prev else prev + [last.category]
  }
}
