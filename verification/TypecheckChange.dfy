/** The verdict of scripts/typecheck_change.py: which diagnostics of the changed tree block the change,
  * and which source regions count as changed. */
module TypecheckChange {
  import opened Basics

  type Text(==, !new)

  type Fingerprint = (Text, Text, Text, Text, Text)

  datatype Diagnostic = Diagnostic(
    checker: Text, scope: Text, path: Text, line: int, column: int, code: Text, message: Text, sourceLine: Text)
  {
    /** Everything but the position, so that a diagnostic keeps it when its line moves. */
    function Fingerprint(): Fingerprint {
      (scope, path, code, message, sourceLine)
    }
  }

  datatype Reason = NewDiagnostic | InAffectedDeclaration

  datatype Reported = Reported(diagnostic: Diagnostic, reason: Reason)

  type Region = (int, int)
  type Regions = map<Text, seq<Region>>

  /** How many of the diagnostics have the fingerprint. */
  function Count(diagnostics: seq<Diagnostic>, f: Fingerprint): nat {
    if diagnostics == [] then 0
    else
      var last := diagnostics[|diagnostics| - 1];
      Count(diagnostics[..|diagnostics| - 1], f) + if last.Fingerprint() == f then 1 else 0
  }

  predicate Intersects(d: Diagnostic, regions: Regions) {
    d.path in regions && exists r :: r in regions[d.path] && r.0 <= d.line <= r.1
  }

  /** A current diagnostic is new when the base has no more of its fingerprint than come before it. */
  predicate IsNew(base: seq<Diagnostic>, current: seq<Diagnostic>, i: nat)
    requires i < |current|
  {
    Count(current[..i], current[i].Fingerprint()) >= Count(base, current[i].Fingerprint())
  }

  function Fresh(base: seq<Diagnostic>, current: seq<Diagnostic>, i: nat): seq<Diagnostic>
    requires i < |current|
  {
    if IsNew(base, current, i) then [current[i]] else []
  }

  function Kept(base: seq<Diagnostic>, current: seq<Diagnostic>, regions: Regions, i: nat): seq<Diagnostic>
    requires i < |current|
  {
    if !IsNew(base, current, i) && Intersects(current[i], regions) then [current[i]] else []
  }

  function NewOnes(base: seq<Diagnostic>, current: seq<Diagnostic>, n: nat): seq<Diagnostic>
    requires n <= |current|
  {
    if n == 0 then []
    else NewOnes(base, current, n - 1) + Fresh(base, current, n - 1)
  }

  function Remaining(base: seq<Diagnostic>, current: seq<Diagnostic>, regions: Regions, n: nat): seq<Diagnostic>
    requires n <= |current|
  {
    if n == 0 then []
    else Remaining(base, current, regions, n - 1) + Kept(base, current, regions, n - 1)
  }

  function Labelled(diagnostics: seq<Diagnostic>, reason: Reason): (reported: seq<Reported>)
    ensures |reported| == |diagnostics|
    ensures forall i :: 0 <= i < |diagnostics| ==> reported[i] == Reported(diagnostics[i], reason)
  {
    seq(|diagnostics|, i requires 0 <= i < |diagnostics| => Reported(diagnostics[i], reason))
  }

  /** The report, as a function of the two runs and the regions. */
  function Report(base: seq<Diagnostic>, current: seq<Diagnostic>, regions: Regions): seq<Reported> {
    Labelled(NewOnes(base, current, |current|), NewDiagnostic)
    + Labelled(Remaining(base, current, regions, |current|), InAffectedDeclaration)
  }

  /** `_blocking_diagnostics`: a pass that uses up the base's counts, then a pass over the regions. */
  method BlockingDiagnostics(base: seq<Diagnostic>, current: seq<Diagnostic>, regions: Regions)
    returns (reported: seq<Reported>)
    ensures reported == Report(base, current, regions)
  {
    hide Count, Intersects;
    CountNothing();
    var remaining := CountAll(base);
    reported := [];
    var indexes: set<nat> := {};
    for i := 0 to |current|
      invariant forall f :: remaining[f] == Left(base, current[..i], f)
      invariant reported == Labelled(NewOnes(base, current, i), NewDiagnostic)
      invariant forall k :: k in indexes <==> 0 <= k < i && IsNew(base, current, k)
    {
      var f := current[i].Fingerprint();
      CountOneMore(current, i);
      if remaining[f] > 0 {
        remaining := remaining[f := remaining[f] - 1];
      } else {
        reported := reported + [Reported(current[i], NewDiagnostic)];
        indexes := indexes + {i};
      }
    }
    assert current[..|current|] == current;
    ghost var added := reported;
    for i := 0 to |current|
      invariant reported == added + Labelled(Remaining(base, current, regions, i), InAffectedDeclaration)
    {
      if i !in indexes && Intersects(current[i], regions) {
        reported := reported + [Reported(current[i], InAffectedDeclaration)];
      }
    }
  }

  lemma CountNothing()
    ensures forall f :: Count([], f) == 0
  {
  }

  lemma CountOneMore(diagnostics: seq<Diagnostic>, i: nat)
    requires i < |diagnostics|
    ensures forall f :: Count(diagnostics[..i + 1], f)
                        == Count(diagnostics[..i], f) + if diagnostics[i].Fingerprint() == f then 1 else 0
  {
    assert diagnostics[..i + 1][..i] == diagnostics[..i];
  }

  /** What the counter has left of the base after some of the current diagnostics. */
  function Left(base: seq<Diagnostic>, seen: seq<Diagnostic>, f: Fingerprint): nat {
    if Count(seen, f) >= Count(base, f) then 0 else Count(base, f) - Count(seen, f)
  }

  /** `Counter` over the base's fingerprints. */
  method CountAll(diagnostics: seq<Diagnostic>) returns (counts: multiset<Fingerprint>)
    ensures forall f :: counts[f] == Count(diagnostics, f)
  {
    counts := multiset{};
    for i := 0 to |diagnostics|
      invariant forall f :: counts[f] == Count(diagnostics[..i], f)
    {
      assert diagnostics[..i + 1][..i] == diagnostics[..i];
      counts := counts + multiset{diagnostics[i].Fingerprint()};
    }
    assert diagnostics[..|diagnostics|] == diagnostics;
  }

  // --- the verdict -----------------------------------------------------------------------------

  /** Of each fingerprint, exactly the surplus over the base is reported as new. */
  lemma {:induction false} NewOnesAreTheSurplus(base: seq<Diagnostic>, current: seq<Diagnostic>, n: nat, f: Fingerprint)
    requires n <= |current|
    ensures var grown := Count(current[..n], f) - Count(base, f);
            Count(NewOnes(base, current, n), f) == if grown > 0 then grown else 0
  {
    if n > 0 {
      var i := n - 1;
      NewOnesAreTheSurplus(base, current, i, f);
      CountOneMore(current, i);
      hide Count, Intersects;
      CountFresh(base, current, i, f);
    } else {
      assert current[..n] == [];
    }
  }

  lemma CountFresh(base: seq<Diagnostic>, current: seq<Diagnostic>, i: nat, f: Fingerprint)
    requires i < |current|
    ensures Count(NewOnes(base, current, i + 1), f)
         == Count(NewOnes(base, current, i), f)
            + if IsNew(base, current, i) && current[i].Fingerprint() == f then 1 else 0
  {
    hide IsNew;
    var fewer := NewOnes(base, current, i);
    assert (fewer + [current[i]])[..|fewer|] == fewer;
    assert fewer + [] == fewer;
  }

  lemma ReportGrows(base: seq<Diagnostic>, current: seq<Diagnostic>, regions: Regions, i: nat)
    requires i < |current|
    ensures NewOnes(base, current, i + 1) == NewOnes(base, current, i) + Fresh(base, current, i)
    ensures Remaining(base, current, regions, i + 1)
         == Remaining(base, current, regions, i) + Kept(base, current, regions, i)
    ensures current[..i + 1] == current[..i] + [current[i]]
  {
  }

  /** A current diagnostic is reported at most once: the report is a part of the current ones. */
  lemma {:induction false} ReportedAtMostOnce(base: seq<Diagnostic>, current: seq<Diagnostic>, regions: Regions, n: nat)
    requires n <= |current|
    ensures multiset(NewOnes(base, current, n)) + multiset(Remaining(base, current, regions, n)) <= multiset(current[..n])
  {
    if n > 0 {
      var i := n - 1;
      ReportedAtMostOnce(base, current, regions, i);
      ReportGrows(base, current, regions, i);
      hide NewOnes, Remaining, IsNew, Intersects;
      StillAPart(NewOnes(base, current, i), Remaining(base, current, regions, i), current[..i],
                 Fresh(base, current, i), Kept(base, current, regions, i), current[i]);
    }
  }

  lemma StillAPart(a: seq<Diagnostic>, b: seq<Diagnostic>, all: seq<Diagnostic>,
                   added: seq<Diagnostic>, left: seq<Diagnostic>, x: Diagnostic)
    requires multiset(a) + multiset(b) <= multiset(all)
    requires (added == [] && left in {[], [x]}) || (left == [] && added == [x])
    ensures multiset(a + added) + multiset(b + left) <= multiset(all + [x])
  {
  }

  /** Everything in a changed region is reported, for one reason or the other. */
  lemma {:induction false} ChangedRegionsAreClean(base: seq<Diagnostic>, current: seq<Diagnostic>, regions: Regions,
                                                 n: nat, i: nat)
    requires i < n <= |current| && Intersects(current[i], regions)
    ensures current[i] in NewOnes(base, current, n) || current[i] in Remaining(base, current, regions, n)
  {
    if i < n - 1 {
      ChangedRegionsAreClean(base, current, regions, n - 1, i);
    }
  }

  lemma {:induction false} RemainingIntersect(base: seq<Diagnostic>, current: seq<Diagnostic>, regions: Regions, n: nat)
    requires n <= |current|
    ensures forall d :: d in Remaining(base, current, regions, n) ==> d in current && Intersects(d, regions)
  {
    if n > 0 {
      RemainingIntersect(base, current, regions, n - 1);
    }
  }

  lemma CountOfMember(diagnostics: seq<Diagnostic>, i: nat)
    requires i < |diagnostics|
    ensures Count(diagnostics, diagnostics[i].Fingerprint()) > 0
    decreases |diagnostics|
  {
    if i < |diagnostics| - 1 {
      CountOfMember(diagnostics[..|diagnostics| - 1], i);
    }
  }

  /** THE VERDICT: the change passes exactly when no fingerprint has become more frequent and no
    * diagnostic lies in a changed region. */
  lemma PassesExactlyWhenClean(base: seq<Diagnostic>, current: seq<Diagnostic>, regions: Regions)
    ensures Report(base, current, regions) == [] <==>
              && (forall f :: Count(current, f) <= Count(base, f))
              && (forall d :: d in current ==> !Intersects(d, regions))
  {
    var n := |current|;
    var added, remaining := NewOnes(base, current, n), Remaining(base, current, regions, n);
    assert current[..n] == current;
    assert Report(base, current, regions) == [] <==> added == [] && remaining == [];
    forall f
      ensures added == [] ==> Count(current, f) <= Count(base, f)
    {
      NewOnesAreTheSurplus(base, current, n, f);
    }
    if added != [] {
      NewOnesAreTheSurplus(base, current, n, added[0].Fingerprint());
      CountOfMember(added, 0);
    }
    forall d | d in current && Intersects(d, regions)
      ensures added != [] || remaining != []
    {
      var i :| 0 <= i < n && current[i] == d;
      ChangedRegionsAreClean(base, current, regions, n, i);
    }
    RemainingIntersect(base, current, regions, n);
    assert remaining != [] ==> remaining[0] in remaining;
  }

  // --- changed regions -------------------------------------------------------------------------

  datatype Declaration = Declaration(identity: seq<Text>, start: int, end: int)

  predicate Encloses(d: Declaration, line: int) {
    d.start <= line <= d.end
  }

  function Width(d: Declaration): int {
    d.end - d.start
  }

  /** `min` over the enclosing declarations: the narrowest, and the first of those. */
  function SmallestEnclosing(line: int, declarations: seq<Declaration>): (r: Option<Declaration>)
    ensures r.None? <==> forall d :: d in declarations ==> !Encloses(d, line)
    ensures r.Some? ==>
              exists i :: 0 <= i < |declarations| && declarations[i] == r.value && Encloses(r.value, line)
                && (forall k :: 0 <= k < |declarations| && Encloses(declarations[k], line) ==>
                      Width(r.value) <= Width(declarations[k]))
                && (forall k :: 0 <= k < i && Encloses(declarations[k], line) ==>
                      Width(r.value) < Width(declarations[k]))
    decreases |declarations|
  {
    if declarations == [] then None
    else
      var init, last := declarations[..|declarations| - 1], declarations[|declarations| - 1];
      var before := SmallestEnclosing(line, init);
      assert forall k :: 0 <= k < |init| ==> init[k] == declarations[k];
      assert forall d :: d in declarations ==> d in init || d == last;
      if Encloses(last, line) && (before.None? || Width(last) < Width(before.value)) then
        assert declarations[|init|] == last;
        Some(last)
      else before
  }

  function RegionOf(line: int, declarations: seq<Declaration>): Region {
    match SmallestEnclosing(line, declarations)
    case None => (line, line)
    case Some(d) => (d.start, d.end)
  }

  /** `_expand_current_lines`: every changed line's region, and no other. */
  method ExpandCurrentLines(lines: set<int>, declarations: seq<Declaration>) returns (expanded: set<Region>)
    ensures forall line :: line in lines ==> RegionOf(line, declarations) in expanded
    ensures forall r :: r in expanded ==> exists line :: line in lines && r == RegionOf(line, declarations)
  {
    var left := lines;
    expanded := {};
    while left != {}
      invariant left <= lines
      invariant forall line :: line in lines - left ==> RegionOf(line, declarations) in expanded
      invariant forall r :: r in expanded ==> exists line :: line in lines && r == RegionOf(line, declarations)
      decreases |left|
    {
      assert (forall line: int :: line !in left) ==> left == {};
      var line: int :| line in left;
      expanded := expanded + {RegionOf(line, declarations)};
      left := left - {line};
    }
  }

  /** A changed line lies in its region; and a region that is wider than the line is its narrowest
    * enclosing declaration. */
  lemma LinesLieInTheirRegions(line: int, declarations: seq<Declaration>)
    ensures RegionOf(line, declarations).0 <= line <= RegionOf(line, declarations).1
    ensures RegionOf(line, declarations) == (line, line)
            || exists d :: d in declarations && RegionOf(line, declarations) == (d.start, d.end)
    ensures forall d :: d in declarations && Encloses(d, line) ==>
              RegionOf(line, declarations).1 - RegionOf(line, declarations).0 <= Width(d)
  {
    var smallest := SmallestEnclosing(line, declarations);
    forall d | d in declarations && Encloses(d, line)
      ensures smallest.Some? && Width(smallest.value) <= Width(d)
    {
      var k :| 0 <= k < |declarations| && declarations[k] == d;
    }
  }

  function Group(identity: seq<Text>, declarations: seq<Declaration>): (group: seq<Declaration>)
    ensures forall d :: d in group <==> d in declarations && d.identity == identity
    decreases |declarations|
  {
    if declarations == [] then []
    else
      var init, last := declarations[..|declarations| - 1], declarations[|declarations| - 1];
      assert forall d :: d in declarations <==> d in init || d == last;
      Group(identity, init) + if last.identity == identity then [last] else []
  }

  predicate Touched(d: Declaration, deleted: set<int>) {
    exists line :: line in deleted && Encloses(d, line)
  }

  /** A deletion touched the `i`-th base declaration of an identity that as many current declarations
    * still have; `r` is where the `i`-th of those is now. */
  ghost predicate Survives(deleted: set<int>, base: seq<Declaration>, current: seq<Declaration>,
                           identity: seq<Text>, i: nat, r: Region)
  {
    var was, now := Group(identity, base), Group(identity, current);
    |was| == |now| && i < |was| && Touched(was[i], deleted) && r == (now[i].start, now[i].end)
  }

  /** `_deletion_regions`: exactly the current places of the touched declarations that survive. */
  method DeletionRegions(deleted: set<int>, base: seq<Declaration>, current: seq<Declaration>)
    returns (regions: set<Region>)
    ensures forall r :: r in regions <==> exists identity, i :: Survives(deleted, base, current, identity, i, r)
  {
    regions := {};
    if deleted == {} {
      return;
    }
    var baseGroups := Grouped(base);
    var currentGroups := Grouped(current);
    var left := baseGroups.Keys;
    while left != {}
      invariant left <= baseGroups.Keys
      invariant forall identity, i, r ::
                  identity !in left && Survives(deleted, base, current, identity, i, r) ==> r in regions
      invariant forall r :: r in regions ==> exists identity, i :: Survives(deleted, base, current, identity, i, r)
      decreases |left|
    {
      var identity :| identity in left;
      var was := baseGroups[identity];
      var now := if identity in currentGroups then currentGroups[identity] else [];
      if |was| == |now| {
        var more := RegionsOfGroup(deleted, was, now);
        forall r | r in more
          ensures exists identity, i :: Survives(deleted, base, current, identity, i, r)
        {
          var i :| 0 <= i < |was| && Touched(was[i], deleted) && r == (now[i].start, now[i].end);
          assert Survives(deleted, base, current, identity, i, r);
        }
        regions := regions + more;
      }
      left := left - {identity};
    }
  }

  method RegionsOfGroup(deleted: set<int>, was: seq<Declaration>, now: seq<Declaration>) returns (regions: set<Region>)
    requires |was| == |now|
    ensures forall i :: 0 <= i < |was| && Touched(was[i], deleted) ==> (now[i].start, now[i].end) in regions
    ensures forall r :: r in regions ==>
              exists i :: 0 <= i < |was| && Touched(was[i], deleted) && r == (now[i].start, now[i].end)
  {
    regions := {};
    for i := 0 to |was|
      invariant forall k :: 0 <= k < i && Touched(was[k], deleted) ==> (now[k].start, now[k].end) in regions
      invariant forall r :: r in regions ==>
                  exists k :: 0 <= k < i && Touched(was[k], deleted) && r == (now[k].start, now[k].end)
    {
      if Touched(was[i], deleted) {
        regions := regions + {(now[i].start, now[i].end)};
      }
    }
  }

  lemma GroupOfNothing()
    ensures forall identity :: Group(identity, []) == []
  {
  }

  lemma GroupOneMore(declarations: seq<Declaration>, i: nat)
    requires i < |declarations|
    ensures forall identity :: Group(identity, declarations[..i + 1])
              == Group(identity, declarations[..i]) + if declarations[i].identity == identity then [declarations[i]] else []
  {
    assert declarations[..i + 1][..i] == declarations[..i];
  }

  /** The dictionary of declarations by identity, each group in source order. */
  method Grouped(declarations: seq<Declaration>) returns (groups: map<seq<Text>, seq<Declaration>>)
    ensures forall identity :: identity in groups ==> groups[identity] == Group(identity, declarations)
    ensures forall identity :: identity !in groups ==> Group(identity, declarations) == []
  {
    hide Group;
    GroupOfNothing();
    groups := map[];
    for i := 0 to |declarations|
      invariant forall identity :: identity in groups ==> groups[identity] == Group(identity, declarations[..i])
      invariant forall identity :: identity !in groups ==> Group(identity, declarations[..i]) == []
    {
      var d := declarations[i];
      GroupOneMore(declarations, i);
      groups := groups[d.identity := (if d.identity in groups then groups[d.identity] else []) + [d]];
    }
    assert declarations[..|declarations|] == declarations;
  }
}
