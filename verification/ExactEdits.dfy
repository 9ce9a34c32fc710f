/** The edit loop of workspace_tools.py: each `old_text` must occur exactly once, overlaps counted,
  * and only that occurrence is replaced. */
module ExactEdits {
  import opened Basics

  type Text = seq<char>

  datatype ExactEdit = ExactEdit(oldText: Text, newText: Text)

  predicate OccursAt(text: Text, pattern: Text, i: int) {
    0 <= i <= |text| - |pattern| && text[i..i + |pattern|] == pattern
  }

  /** `str.find` from position `i` on. */
  function Find(text: Text, pattern: Text, i: nat): (r: int)
    requires i <= |text|
    ensures r == -1 || (i <= r && OccursAt(text, pattern, r))
    ensures forall j :: i <= j && OccursAt(text, pattern, j) ==> 0 <= r <= j
    decreases |text| - i
  {
    if OccursAt(text, pattern, i) then i
    else if i == |text| then -1
    else Find(text, pattern, i + 1)
  }

  /** `str.rfind` up to position `i`. */
  function FindLast(text: Text, pattern: Text, i: nat): (r: int)
    ensures r == -1 || (r <= i && OccursAt(text, pattern, r))
    ensures forall j :: j <= i && OccursAt(text, pattern, j) ==> j <= r
  {
    if OccursAt(text, pattern, i) then i
    else if i == 0 then -1
    else FindLast(text, pattern, i - 1)
  }

  ghost predicate OnlyOccurrence(text: Text, pattern: Text, i: int) {
    OccursAt(text, pattern, i) && forall j :: OccursAt(text, pattern, j) ==> j == i
  }

  /** First and last match agree exactly when there is one occurrence, overlapping ones included. */
  lemma FirstIsLastMeansUnique(text: Text, pattern: Text)
    ensures var first := Find(text, pattern, 0);
            (first >= 0 && first == FindLast(text, pattern, |text|)) <==> exists i :: OnlyOccurrence(text, pattern, i)
    ensures var first := Find(text, pattern, 0);
            first >= 0 && first == FindLast(text, pattern, |text|) ==> OnlyOccurrence(text, pattern, first)
  {
    var first, last := Find(text, pattern, 0), FindLast(text, pattern, |text|);
    if first >= 0 && first == last {
      assert OnlyOccurrence(text, pattern, first);
    }
    if i :| OnlyOccurrence(text, pattern, i) {
      assert first == i && last == i;
    }
  }

  /** The text with the occurrence at `i` replaced. */
  function ReplacedAt(text: Text, e: ExactEdit, i: int): Text
    requires OccursAt(text, e.oldText, i)
  {
    text[..i] + e.newText + text[i + |e.oldText|..]
  }

  /** One edit turns `before` into `after`: stated without the search that finds the place. */
  ghost predicate EditStep(before: Text, e: ExactEdit, after: Text) {
    exists i :: OnlyOccurrence(before, e.oldText, i) && after == ReplacedAt(before, e, i)
  }

  /** `stages` are the texts between the edits, from the file's own text to the published one. */
  ghost predicate EditChain(stages: seq<Text>, edits: seq<ExactEdit>) {
    |stages| == |edits| + 1 && forall k :: 0 <= k < |edits| ==> EditStep(stages[k], edits[k], stages[k + 1])
  }

  /** The text after all edits, or nothing when some edit's context is not unique. */
  function Edited(text: Text, edits: seq<ExactEdit>): Option<Text>
    decreases |edits|
  {
    if edits == [] then Some(text)
    else
      match Edited(text, edits[..|edits| - 1])
      case None => None
      case Some(t) => EditedOnce(t, edits[|edits| - 1])
  }

  function EditedOnce(text: Text, e: ExactEdit): Option<Text> {
    var first := Find(text, e.oldText, 0);
    if first < 0 || first != FindLast(text, e.oldText, |text|) then None
    else Some(ReplacedAt(text, e, first))
  }

  lemma EditedOnceIsTheStep(text: Text, e: ExactEdit, after: Text)
    ensures EditedOnce(text, e) == Some(after) <==> EditStep(text, e, after)
  {
    FirstIsLastMeansUnique(text, e.oldText);
    var first := Find(text, e.oldText, 0);
    if EditStep(text, e, after) {
      var i :| OnlyOccurrence(text, e.oldText, i) && after == ReplacedAt(text, e, i);
      assert first == i;
    }
  }

  ghost predicate Leads(text: Text, edits: seq<ExactEdit>, stages: seq<Text>, after: Text) {
    EditChain(stages, edits) && stages[0] == text && stages[|edits|] == after
  }

  lemma ChainGrows(text: Text, edits: seq<ExactEdit>, e: ExactEdit, stages: seq<Text>, middle: Text, after: Text)
    requires Leads(text, edits, stages, middle) && EditStep(middle, e, after)
    ensures Leads(text, edits + [e], stages + [after], after)
  {
    hide EditStep;
    var longer, all := stages + [after], edits + [e];
    forall k | 0 <= k < |all|
      ensures EditStep(longer[k], all[k], longer[k + 1])
    {
      assert k < |edits| ==> EditStep(stages[k], edits[k], stages[k + 1]);
    }
  }

  lemma ChainShrinks(text: Text, edits: seq<ExactEdit>, e: ExactEdit, stages: seq<Text>, after: Text)
    requires Leads(text, edits + [e], stages, after)
    ensures |stages| == |edits| + 2 && Leads(text, edits, stages[..|edits| + 1], stages[|edits|])
    ensures EditStep(stages[|edits|], e, after)
  {
    hide EditStep;
    var all, shorter := edits + [e], stages[..|edits| + 1];
    assert EditStep(stages[|edits|], all[|edits|], stages[|all|]);
    forall k | 0 <= k < |edits|
      ensures EditStep(shorter[k], edits[k], shorter[k + 1])
    {
      assert EditStep(stages[k], all[k], stages[k + 1]);
    }
  }

  /** The loop succeeds with a text exactly when the edits lead to it one unique replacement at a time;
    * so it fails exactly when no such chain exists. */
  lemma {:induction false} EditedIsTheChain(text: Text, edits: seq<ExactEdit>, after: Text)
    ensures Edited(text, edits) == Some(after) <==> exists stages :: Leads(text, edits, stages, after)
    decreases |edits|
  {
    if edits == [] {
      if Edited(text, edits) == Some(after) {
        assert Leads(text, edits, [text], after);
      }
    } else {
      hide EditStep, EditedOnce, Leads;
      var init, last := edits[..|edits| - 1], edits[|edits| - 1];
      assert edits == init + [last];
      if Edited(text, edits) == Some(after) {
        var middle := Edited(text, init).value;
        EditedIsTheChain(text, init, middle);
        var stages :| Leads(text, init, stages, middle);
        EditedOnceIsTheStep(middle, last, after);
        ChainGrows(text, init, last, stages, middle, after);
      }
      if stages :| Leads(text, edits, stages, after) {
        assert EditChain(stages, edits) by {
          LeadsIsAChain(text, edits, stages, after);
        }
        ChainShrinks(text, init, last, stages, after);
        EditedIsTheChain(text, init, stages[|init|]);
        EditedOnceIsTheStep(stages[|init|], last, after);
      }
    }
  }

  lemma LeadsIsAChain(text: Text, edits: seq<ExactEdit>, stages: seq<Text>, after: Text)
    requires Leads(text, edits, stages, after)
    ensures EditChain(stages, edits)
  {
  }

  /** The loop over the edits of one file. */
  method ApplyEdits(text: Text, edits: seq<ExactEdit>) returns (result: Option<Text>)
    ensures result == Edited(text, edits)
  {
    var current := text;
    assert edits[..0] == [];
    for i := 0 to |edits|
      invariant Edited(text, edits[..i]) == Some(current)
    {
      var e := edits[i];
      assert edits[..i + 1][..i] == edits[..i];
      var first := Find(current, e.oldText, 0);
      if first < 0 || first != FindLast(current, e.oldText, |current|) {
        FailureStays(text, edits, i + 1);
        return None;
      }
      current := current[..first] + e.newText + current[first + |e.oldText|..];
    }
    assert edits[..|edits|] == edits;
    result := Some(current);
  }

  lemma {:induction false} FailureStays(text: Text, edits: seq<ExactEdit>, i: nat)
    requires i <= |edits| && Edited(text, edits[..i]).None?
    ensures Edited(text, edits).None?
    decreases |edits|
  {
    if i == |edits| {
      assert edits[..i] == edits;
    } else {
      assert edits[..|edits| - 1][..i] == edits[..i];
      FailureStays(text, edits[..|edits| - 1], i);
    }
  }
}
