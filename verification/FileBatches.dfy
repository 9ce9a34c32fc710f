/** `_file_batch` and `_publish` of workspace_tools.py over a file system that other programs may
  * change, whose calls may fail, and while a stop may be requested at any moment. */
module FileBatches {
  import opened Basics
  import opened ExactEdits

  const MAX_FILE_BYTES: nat := 4_000_000

  type RawPath(==, !new)
  type Path(==, !new)

  /** A regular file, or anything else a path can name. */
  datatype Node = Regular(content: Bytes) | Special

  type Files = map<Path, Node>

  datatype Item = NewFile(path: RawPath, content: Text) | EditedFile(path: RawPath, edits: seq<ExactEdit>)

  /** The receipt's digests stand for the contents they are digests of. */
  datatype Receipt = Receipt(path: Path, before: Option<Bytes>, after: Bytes)

  datatype Failure =
    | Cancelled | PathRefused | FileExists | MissingFile | FileTooLarge | InvalidEncoding
    | ContextMismatch | ContextChanged | FilesystemError | StagingCleanupFailed

  /** What happens up to one call: what other programs did, whether the call fails, whether a stop is
    * seen, and the name a temporary file would get, if one is free. */
  datatype Moment = Moment(outside: seq<(Path, Option<Node>)>, fails: bool, stop: bool, temporary: Option<Path>)

  function ContentAt(files: Files, path: Path): Option<Bytes> {
    if path in files && files[path].Regular? then Some(files[path].content) else None
  }

  // --- the file system -------------------------------------------------------------------------

  /** The files, and the staged file of the publication under way, which no other program touches. */
  datatype World = World(files: Files, own: Option<Path>)

  /** Everything that changes the files: other programs, and the calls `_publish` makes. */
  datatype Call =
    | Pass(now: Moment)
    | MakeStaged(staged: Path)
    | FillStaged(staged: Path, content: Bytes)
    | LinkStaged(staged: Path, path: Path)
    | ReplaceByStaged(staged: Path, path: Path)
    | UnlinkStaged(staged: Path)
    | AbandonStaged(staged: Path)

  function After(files: Files, outside: seq<(Path, Option<Node>)>, own: Option<Path>): Files
    decreases |outside|
  {
    if outside == [] then files
    else
      var (path, node) := outside[0];
      var next :=
        if Some(path) == own then files
        else match node case Some(n) => files[path := n] case None => files - {path};
      After(next, outside[1..], own)
  }

  /** What the system lets happen: a temporary file gets a name nobody has, and a link is refused
    * where something is. */
  predicate Allowed(w: World, c: Call) {
    match c
    case Pass(_) => true
    case MakeStaged(staged) => w.own.None? && staged !in w.files
    case FillStaged(staged, _) => w.own == Some(staged) && staged in w.files
    case LinkStaged(staged, path) => w.own == Some(staged) && ContentAt(w.files, staged).Some? && path !in w.files
    case ReplaceByStaged(staged, path) =>
      w.own == Some(staged) && ContentAt(w.files, staged).Some? && (path in w.files ==> w.files[path].Regular?)
    case UnlinkStaged(staged) => w.own == Some(staged)
    case AbandonStaged(staged) => w.own == Some(staged)
  }

  function Do(w: World, c: Call): World
    requires Allowed(w, c)
  {
    match c
    case Pass(now) => w.(files := After(w.files, now.outside, w.own))
    case MakeStaged(staged) => World(w.files[staged := Regular([])], Some(staged))
    case FillStaged(staged, content) => w.(files := w.files[staged := Regular(content)])
    case LinkStaged(staged, path) => w.(files := w.files[path := w.files[staged]])
    case ReplaceByStaged(staged, path) => w.(files := (w.files - {staged})[path := w.files[staged]])
    case UnlinkStaged(staged) => World(w.files - {staged}, None)
    case AbandonStaged(staged) => w.(own := None)
  }

  /** The state a sequence of calls leads to, if each was allowed. */
  function Ran(w: World, calls: seq<Call>): Option<World> {
    if calls == [] then Some(w)
    else
      var last := calls[|calls| - 1];
      match Ran(w, calls[..|calls| - 1])
      case Some(v) => if Allowed(v, last) then Some(Do(v, last)) else None
      case None => None
  }

  /** A publication: what its path held, nothing at all for a creation, and what it holds now. */
  datatype Effect = Created(path: Path, after: Bytes) | Exchanged(path: Path, found: Option<Bytes>, after: Bytes)

  function OneEffect(w: World, c: Call): seq<Effect>
    requires Allowed(w, c)
  {
    match c
    case LinkStaged(staged, path) => [Created(path, w.files[staged].content)]
    case ReplaceByStaged(staged, path) => [Exchanged(path, ContentAt(w.files, path), w.files[staged].content)]
    case _ => []
  }

  /** The publications among the calls, in order. */
  function EffectsOf(w: World, calls: seq<Call>): seq<Effect>
    requires Ran(w, calls).Some?
  {
    if calls == [] then []
    else
      var init := calls[..|calls| - 1];
      EffectsOf(w, init) + OneEffect(Ran(w, init).value, calls[|calls| - 1])
  }

  /** The moments that passed between the calls. */
  function Moments(calls: seq<Call>): seq<Moment> {
    if calls == [] then []
    else
      var last := calls[|calls| - 1];
      Moments(calls[..|calls| - 1]) + (if last.Pass? then [last.now] else [])
  }

  lemma OneMore(w: World, calls: seq<Call>, c: Call)
    requires Ran(w, calls).Some? && Allowed(Ran(w, calls).value, c)
    ensures Ran(w, calls + [c]) == Some(Do(Ran(w, calls).value, c))
    ensures EffectsOf(w, calls + [c]) == EffectsOf(w, calls) + OneEffect(Ran(w, calls).value, c)
    ensures Moments(calls + [c]) == Moments(calls) + (if c.Pass? then [c.now] else [])
  {
    assert (calls + [c])[..|calls|] == calls;
  }

  lemma {:induction false} PrefixRan(w: World, calls: seq<Call>, k: nat)
    requires k <= |calls| && Ran(w, calls).Some?
    ensures Ran(w, calls[..k]).Some?
    decreases |calls|
  {
    if k == |calls| {
      assert calls[..k] == calls;
    } else {
      var init := calls[..|calls| - 1];
      PrefixRan(w, init, k);
      assert init[..k] == calls[..k];
    }
  }

  /** Creation never overwrites: whatever came before a link, its path held nothing, and afterwards it
    * holds the staged content. */
  lemma CreationsFindNothing(w: World, calls: seq<Call>, k: nat)
    requires Ran(w, calls).Some? && k < |calls| && calls[k].LinkStaged?
    ensures Ran(w, calls[..k]).Some? && Ran(w, calls[..k + 1]).Some?
    ensures calls[k].path !in Ran(w, calls[..k]).value.files
    ensures ContentAt(Ran(w, calls[..k + 1]).value.files, calls[k].path).Some?
    ensures ContentAt(Ran(w, calls[..k + 1]).value.files, calls[k].path)
            == ContentAt(Ran(w, calls[..k]).value.files, calls[k].staged)
  {
    PrefixRan(w, calls, k);
    PrefixRan(w, calls, k + 1);
    assert calls[..k + 1][..k] == calls[..k];
  }

  /** The place of a publication among the calls. */
  ghost predicate HappensAt(w: World, calls: seq<Call>, k: nat, e: Effect) {
    && k < |calls| && Ran(w, calls[..k]).Some? && Ran(w, calls[..k + 1]).Some?
    && (if e.Created? then e.path !in Ran(w, calls[..k]).value.files
        else ContentAt(Ran(w, calls[..k]).value.files, e.path) == e.found)
    && ContentAt(Ran(w, calls[..k + 1]).value.files, e.path) == Some(e.after)
  }

  /** Every publication happened: at one of the calls its path went from what it says was found, nothing
    * for a creation, to the content it says. */
  lemma {:induction false} EffectsHappened(w: World, calls: seq<Call>, e: Effect) returns (k: nat)
    requires Ran(w, calls).Some? && e in EffectsOf(w, calls)
    ensures HappensAt(w, calls, k, e)
    decreases |calls|
  {
    var n := |calls| - 1;
    var init := calls[..n];
    assert calls[..n + 1] == calls;
    if e in OneEffect(Ran(w, init).value, calls[n]) {
      k := n;
    } else {
      k := EffectsHappened(w, init, e);
      assert init[..k] == calls[..k] && init[..k + 1] == calls[..k + 1];
    }
  }

  /** What a call writes. */
  predicate Writes(c: Call, p: Path) {
    match c
    case Pass(now) => exists i :: 0 <= i < |now.outside| && now.outside[i].0 == p
    case MakeStaged(staged) => staged == p
    case FillStaged(staged, _) => staged == p
    case LinkStaged(_, path) => path == p
    case ReplaceByStaged(staged, path) => staged == p || path == p
    case UnlinkStaged(staged) => staged == p
    case AbandonStaged(_) => false
  }

  ghost predicate SameAt(files: Files, now: Files, p: Path) {
    (p in files <==> p in now) && (p in files ==> files[p] == now[p])
  }

  /** Nothing else changes: a path that no other program wrote, that was not staged and to which nothing
    * was published is as it was. */
  lemma {:induction false} UnwrittenStays(w: World, calls: seq<Call>, p: Path)
    requires Ran(w, calls).Some?
    requires forall i :: 0 <= i < |calls| ==> !Writes(calls[i], p)
    ensures SameAt(w.files, Ran(w, calls).value.files, p)
    decreases |calls|
  {
    if calls != [] {
      var init := calls[..|calls| - 1];
      forall i | 0 <= i < |init|
        ensures !Writes(init[i], p)
      {
        assert init[i] == calls[i];
      }
      UnwrittenStays(w, init, p);
      var last := calls[|calls| - 1];
      assert !Writes(last, p);
      if last.Pass? {
        OthersElsewhere(Ran(w, init).value.files, last.now.outside, Ran(w, init).value.own, p);
      }
    }
  }

  lemma {:induction false} OthersElsewhere(files: Files, outside: seq<(Path, Option<Node>)>, own: Option<Path>, p: Path)
    requires Some(p) == own || forall i :: 0 <= i < |outside| ==> outside[i].0 != p
    ensures SameAt(files, After(files, outside, own), p)
    decreases |outside|
  {
    if outside != [] {
      var (path, node) := outside[0];
      var next :=
        if Some(path) == own then files
        else match node case Some(n) => files[path := n] case None => files - {path};
      forall i | 0 <= i < |outside[1..]|
        ensures outside[1..][i] == outside[i + 1]
      {
      }
      assert Some(p) == own || outside[0].0 != p;
      OthersElsewhere(next, outside[1..], own, p);
    }
  }

  // --- what receipts say -----------------------------------------------------------------------

  /** A publication is what its receipt says: same path, same content, and a creation made it exactly
    * when the receipt says that there was nothing before. */
  ghost predicate Witnesses(e: Effect, r: Receipt) {
    e.path == r.path && e.after == r.after && (e.Created? <==> r.before.None?)
  }

  /** The receipt tells what its publication found, too. */
  function Meant(r: Receipt): Effect {
    if r.before.None? then Created(r.path, r.after) else Exchanged(r.path, r.before, r.after)
  }

  /** The publications since `before` are those of the receipts, in order and no others. */
  ghost predicate Witnessed(before: seq<Effect>, effects: seq<Effect>, receipts: seq<Receipt>) {
    && |effects| == |before| + |receipts| && effects[..|before|] == before
    && forall i :: 0 <= i < |receipts| ==> Witnesses(effects[|before| + i], receipts[i])
  }

  ghost predicate WitnessedExactly(before: seq<Effect>, effects: seq<Effect>, receipts: seq<Receipt>) {
    && |effects| == |before| + |receipts| && effects[..|before|] == before
    && forall i :: 0 <= i < |receipts| ==> effects[|before| + i] == Meant(receipts[i])
  }

  lemma WitnessedGrows(before: seq<Effect>, effects: seq<Effect>, receipts: seq<Receipt>, e: Effect, r: Receipt)
    requires Witnessed(before, effects, receipts) && Witnesses(e, r)
    ensures Witnessed(before, effects + [e], receipts + [r])
    ensures WitnessedExactly(before, effects, receipts) && e == Meant(r) ==>
              WitnessedExactly(before, effects + [e], receipts + [r])
  {
  }

  /** The effects of publishing the receipts' contents in order, on files nobody else touches. */
  function Replay(files: Files, receipts: seq<Receipt>): Files
    decreases |receipts|
  {
    if receipts == [] then files
    else
      var last := receipts[|receipts| - 1];
      Replay(files, receipts[..|receipts| - 1])[last.path := Regular(last.after)]
  }

  /** Every receipt says what its path held when its turn came: nothing at all for a creation. */
  ghost predicate Truthful(files: Files, receipts: seq<Receipt>) {
    forall i :: 0 <= i < |receipts| ==>
      var then' := Replay(files, receipts[..i]);
      match receipts[i].before
      case None => receipts[i].path !in then'
      case Some(content) => ContentAt(then', receipts[i].path) == Some(content)
  }

  /** The content an item asks for, or why it asks for nothing that can be done. */
  datatype Change = Change(after: Bytes) | NoChange(failure: Failure)

  datatype Publication = Published | Unpublished(failure: Failure) | PublishedUncleaned

  class Workspace {
    /** `_admit_path`, and the UTF-8 codec. */
    const resolve: RawPath -> Option<Path>
    const encode: Text -> Bytes
    const decode: Bytes -> Option<Text>
    /** What happens before each call, one after another. */
    const script: nat -> Moment
    var clock: nat
    var files: Files
    ghost const origin: Files
    var own: Option<Path>
    /** Every change made to the files since the start, by whomever. */
    ghost var calls: seq<Call>

    /** The files are what allowed calls made of them; what other programs did is what the script says. */
    ghost predicate Valid()
      reads `clock, `files, `own, `calls
    {
      && Ran(World(origin, None), calls) == Some(World(files, own))
      && |Moments(calls)| == clock
      && forall i :: 0 <= i < clock ==> Moments(calls)[i] == script(i)
    }

    /** What has been published. */
    ghost function Effects(): seq<Effect>
      requires Valid()
      reads `clock, `files, `own, `calls
    {
      EffectsOf(World(origin, None), calls)
    }

    constructor (resolve: RawPath -> Option<Path>, encode: Text -> Bytes, decode: Bytes -> Option<Text>,
                 files: Files, script: nat -> Moment)
      ensures Valid() && this.files == files && this.script == script && clock == 0 && own.None? && Effects() == []
      ensures this.resolve == resolve && this.encode == encode && this.decode == decode
    {
      this.resolve, this.encode, this.decode := resolve, encode, decode;
      this.files, this.script, clock := files, script, 0;
      origin, own, calls := files, None, [];
    }

    /** No other program writes. */
    ghost predicate Quiet() {
      forall i: nat :: script(i).outside == []
    }

    /** Besides, no call fails, no stop is requested, and a temporary file gets a name outside `paths`. */
    ghost predicate Smooth(paths: set<Path>) {
      forall i: nat :: Smoothly(i, paths)
    }

    ghost predicate Smoothly(i: nat, paths: set<Path>) {
      var now := script(i);
      now.outside == [] && !now.fails && !now.stop && now.temporary.Some? && now.temporary.value !in paths
    }

    /** A stop was requested at one of these moments. */
    ghost predicate StopSeen(from: nat, to: nat) {
      exists i: nat :: from <= i < to && script(i).stop
    }

    /** The content is text, and the edits lead from it to `text`, each replacing the only place it fits. */
    ghost predicate LeadsTo(content: Bytes, edits: seq<ExactEdit>, text: Text) {
      exists t, stages :: decode(content) == Some(t) && Leads(t, edits, stages, text)
    }

    /** The receipt an item may produce: a new file holds its text; an edited one held text, and holds what the edits
      * make of it, both within the limit. */
    ghost predicate Names(item: Item, r: Receipt) {
      && resolve(item.path) == Some(r.path)
      && match item
         case NewFile(_, content) => r.before.None? && r.after == encode(content)
         case EditedFile(_, edits) =>
           && r.before.Some? && |r.before.value| <= MAX_FILE_BYTES && |r.after| <= MAX_FILE_BYTES
           && exists text :: LeadsTo(r.before.value, edits, text) && r.after == encode(text)
    }

    /** Why an item cannot be done in these files. */
    ghost predicate Refuses(item: Item, files: Files, failure: Failure) {
      match resolve(item.path)
      case None => failure.PathRefused?
      case Some(path) =>
        match item
        case NewFile(_, _) => failure.FileExists? && path in files
        case EditedFile(_, edits) =>
          match ContentAt(files, path)
          case None => failure.MissingFile?
          case Some(content) =>
            if |content| > MAX_FILE_BYTES then failure.FileTooLarge?
            else if decode(content).None? then failure.InvalidEncoding?
            else if exists text :: LeadsTo(content, edits, text) then
              failure.FileTooLarge? && exists text :: LeadsTo(content, edits, text) && |encode(text)| > MAX_FILE_BYTES
            else failure.ContextMismatch?
    }

    /** What an item asks for in these files. */
    ghost predicate Asks(item: Item, files: Files, change: Change) {
      match change
      case Change(after) =>
        && resolve(item.path).Some? && (item.NewFile? ==> resolve(item.path).value !in files)
        && Names(item, Receipt(resolve(item.path).value, ContentAt(files, resolve(item.path).value), after))
      case NoChange(failure) => Refuses(item, files, failure)
    }

    /** The edit loop finds the chain if there is one. */
    lemma EditedLeads(content: Bytes, edits: seq<ExactEdit>)
      requires decode(content).Some?
      ensures forall text :: LeadsTo(content, edits, text) <==> Edited(decode(content).value, edits) == Some(text)
    {
      var t := decode(content).value;
      forall text
        ensures LeadsTo(content, edits, text) <==> Edited(t, edits) == Some(text)
      {
        EditedIsTheChain(t, edits, text);
      }
    }

    // --- when a stop is looked for ---

    /** No stop is seen by an item that starts at moment `from` and succeeds: before it is looked at, after that, and
      * in `_publish` once the content is staged and once more before a file is replaced. */
    ghost predicate Unstopped(item: Item, from: nat) {
      if item.NewFile? then !script(from).stop && !script(from + 2).stop && !script(from + 5).stop
      else !script(from).stop && !script(from + 3).stop && !script(from + 6).stop && !script(from + 8).stop
    }

    /** When the `i`-th item of a batch starts, after those before it succeeded. */
    ghost function StartOf(items: seq<Item>, i: nat, from: nat): nat
      requires i <= |items|
    {
      if i == 0 then from else StartOf(items, i - 1, from) + if items[i - 1].NewFile? then 8 else 11
    }

    /** The receipts are those of the first items of the batch, in order. */
    ghost predicate NamesPrefix(items: seq<Item>, receipts: seq<Receipt>) {
      |receipts| <= |items| && forall i :: 0 <= i < |receipts| ==> Names(items[i], receipts[i])
    }

    /** No stop was seen by the first `n` items of a batch. */
    ghost predicate NoStopSeen(items: seq<Item>, n: nat, from: nat)
      requires n <= |items|
    {
      forall i :: 0 <= i < n ==> Unstopped(items[i], StartOf(items, i, from))
    }

    lemma FirstStarts(items: seq<Item>, from: nat)
      ensures NoStopSeen(items, 0, from) && StartOf(items, 0, from) == from
    {
    }

    lemma OneMoreStarts(items: seq<Item>, n: nat, from: nat)
      requires n <= |items| && NoStopSeen(items, n, from)
      ensures n < |items| ==>
                && StartOf(items, n + 1, from) == StartOf(items, n, from) + (if items[n].NewFile? then 8 else 11)
                && (Unstopped(items[n], StartOf(items, n, from)) ==> NoStopSeen(items, n + 1, from))
    {
    }

    // --- the calls ---

    /** One more call is on record. */
    ghost method Record(c: Call)
      requires Ran(World(origin, None), calls).Some? && Allowed(Ran(World(origin, None), calls).value, c)
      modifies `calls
      ensures calls == old(calls) + [c]
      ensures Ran(World(origin, None), calls) == Some(Do(Ran(World(origin, None), old(calls)).value, c))
      ensures EffectsOf(World(origin, None), calls)
              == EffectsOf(World(origin, None), old(calls)) + OneEffect(Ran(World(origin, None), old(calls)).value, c)
      ensures Moments(calls) == Moments(old(calls)) + (if c.Pass? then [c.now] else [])
    {
      OneMore(World(origin, None), calls, c);
      calls := calls + [c];
    }

    /** Time passes up to the next call. */
    method Tick() returns (now: Moment)
      requires Valid()
      modifies `clock, `files, `calls
      ensures Valid() && Effects() == old(Effects())
      ensures now == script(old(clock)) && clock == old(clock) + 1
      ensures files == After(old(files), now.outside, own)
      ensures now.outside == [] ==> files == old(files)
      ensures own.Some? ==> SameAt(old(files), files, own.value)
    {
      now := script(clock);
      Record(Pass(now));
      if own.Some? {
        OthersElsewhere(files, now.outside, own, own.value);
      }
      files, clock := After(files, now.outside, own), clock + 1;
    }

    /** `mkstemp`. */
    method OsMake(staged: Path)
      requires Valid() && own.None? && staged !in files
      modifies `files, `own, `calls
      ensures Valid() && Effects() == old(Effects())
      ensures own == Some(staged) && files == old(files)[staged := Regular([])]
    {
      Record(MakeStaged(staged));
      files, own := files[staged := Regular([])], Some(staged);
    }

    /** Writing to the staged file. */
    method OsFill(staged: Path, content: Bytes)
      requires Valid() && own == Some(staged) && staged in files
      modifies `files, `calls
      ensures Valid() && Effects() == old(Effects()) && files == old(files)[staged := Regular(content)]
    {
      Record(FillStaged(staged, content));
      files := files[staged := Regular(content)];
    }

    /** `os.link`. */
    method OsLink(staged: Path, path: Path)
      requires Valid() && own == Some(staged) && ContentAt(files, staged).Some? && path !in files
      modifies `files, `calls
      ensures Valid() && files == old(files)[path := old(files)[staged]]
      ensures Effects() == old(Effects()) + [Created(path, ContentAt(old(files), staged).value)]
    {
      Record(LinkStaged(staged, path));
      files := files[path := files[staged]];
    }

    /** `os.replace`. */
    method OsReplace(staged: Path, path: Path)
      requires Valid() && own == Some(staged) && ContentAt(files, staged).Some?
      requires path in files ==> files[path].Regular?
      modifies `files, `calls
      ensures Valid() && files == (old(files) - {staged})[path := old(files)[staged]]
      ensures Effects() == old(Effects()) + [Exchanged(path, ContentAt(old(files), path),
                                                       ContentAt(old(files), staged).value)]
    {
      Record(ReplaceByStaged(staged, path));
      files := (files - {staged})[path := files[staged]];
    }

    /** `unlink`, of the staged file if it is still there; a call that fails leaves it. */
    method OsUnlink(staged: Path, fails: bool)
      requires Valid() && own == Some(staged)
      modifies `files, `own, `calls
      ensures Valid() && Effects() == old(Effects()) && own.None?
      ensures files == if fails then old(files) else old(files) - {staged}
    {
      Record(if fails then AbandonStaged(staged) else UnlinkStaged(staged));
      files, own := if fails then files else files - {staged}, None;
    }

    // --- publication ---

    /** `_publish`: stage the content, then link or replace, then remove the staged file. `left` is a
      * staged file that could not be removed. */
    method Publish(path: Path, before: Option<Bytes>, after: Bytes) returns (r: Publication, left: Option<Path>)
      requires Valid() && own.None?
      modifies `clock, `files, `own, `calls
      ensures Valid() && own.None?
      ensures r.Unpublished? ==> Effects() == old(Effects()) && r.failure != StagingCleanupFailed
      ensures clock >= old(clock) && (r == Unpublished(Cancelled) ==> StopSeen(old(clock), clock))
      ensures !r.Unpublished? ==>
                && |Effects()| == |old(Effects())| + 1 && Effects()[..|old(Effects())|] == old(Effects())
                && Witnesses(Effects()[|old(Effects())|], Receipt(path, before, after))
      ensures left.Some? ==> r == PublishedUncleaned || r == Unpublished(FilesystemError)
      ensures !r.Unpublished? ==>
                && clock == old(clock) + (if before.None? then 5 else 7) && !script(old(clock) + 2).stop
                && (before.Some? ==> !script(old(clock) + 4).stop)
      ensures Quiet() && (before.Some? ==> path in old(files)) ==>
                && (!r.Unpublished? && before.None? ==> path !in old(files))
                && (!r.Unpublished? ==> Effects() == old(Effects()) + [Meant(Receipt(path, before, after))])
                && files == Leaving(if r.Unpublished? then old(files) else old(files)[path := Regular(after)],
                                    left, files)
      ensures Smooth(old(files).Keys + {path})
              && (if before.None? then path !in old(files) else ContentAt(old(files), path) == before) ==>
                r == Published && left.None?
    {
      hide Valid, Effects, Quiet, Smooth, Witnesses, Meant, Leaving;
      left := None;
      ghost var was, paths := files, files.Keys + {path};
      SmoothAt(paths, clock);
      var start := Tick();
      if start.fails || start.temporary.None? || start.temporary.value in files {
        NothingLeft(was, files);
        return Unpublished(FilesystemError), None;
      }
      var staged := start.temporary.value;
      OsMake(staged);
      var failure := Stage(staged, after);
      if failure.None? {
        failure := Commit(staged, path, before, after);
      }
      ghost var clean := if failure.None? then was[path := Regular(after)] else was;
      ghost var staging := files;
      if Quiet() && (before.Some? ==> path in was) {
        assert staged !in clean && files - {staged} == clean;
      }
      SmoothAt(paths, clock);
      r, left := CleanUp(staged, failure);
      if Quiet() && (before.Some? ==> path in was) {
        CleanedUp(clean, staging, staged, left);
      }
    }

    /** The `finally` block of `_publish`. */
    method CleanUp(staged: Path, failure: Option<Failure>) returns (r: Publication, left: Option<Path>)
      requires Valid() && own == Some(staged)
      modifies `clock, `files, `own, `calls
      ensures Valid() && own.None? && Effects() == old(Effects()) && clock == old(clock) + 1
      ensures r.Unpublished? <==> failure.Some?
      ensures r.Unpublished? ==> r == Unpublished(if script(old(clock)).fails then FilesystemError else failure.value)
      ensures r == PublishedUncleaned <==> failure.None? && script(old(clock)).fails
      ensures left.Some? ==> script(old(clock)).fails && left.value == staged && staged in files
      ensures Quiet() ==>
                files == if left.Some? then old(files) else old(files) - {staged}
    {
      hide Valid, Effects;
      var finish := Tick();
      OsUnlink(staged, finish.fails);
      left := None;
      if finish.fails {
        left := if staged in files then Some(staged) else None;
        r := if failure.None? then PublishedUncleaned else Unpublished(FilesystemError);
      } else {
        r := if failure.None? then Published else Unpublished(failure.value);
      }
    }

    /** The middle of `_publish`: the staged file is linked or put in place. */
    method Commit(staged: Path, path: Path, before: Option<Bytes>, after: Bytes) returns (failure: Option<Failure>)
      requires Valid() && own == Some(staged) && staged in files && files[staged] == Regular(after)
      modifies `clock, `files, `calls
      ensures Valid()
      ensures failure.Some? ==> failure.value != StagingCleanupFailed && Effects() == old(Effects())
      ensures failure.None? ==> clock == old(clock) + if before.None? then 1 else 3
      ensures failure.None? && before.Some? ==> !script(old(clock) + 1).stop
      ensures clock >= old(clock) && (failure == Some(Cancelled) ==> StopSeen(old(clock), clock))
      ensures failure.None? ==>
                && |Effects()| == |old(Effects())| + 1 && Effects()[..|old(Effects())|] == old(Effects())
                && Witnesses(Effects()[|old(Effects())|], Receipt(path, before, after))
      ensures Quiet() && (before.Some? ==> path in old(files) && path != staged) ==>
                && (failure.None? ==>
                      && path != staged && (before.None? ==> path !in old(files))
                      && Effects()[|old(Effects())|] == Meant(Receipt(path, before, after)))
                && files - {staged} == if failure.Some? then old(files) - {staged}
                                       else (old(files) - {staged})[path := Regular(after)]
      ensures Smooth({}) && (if before.None? then path !in old(files) else ContentAt(old(files), path) == before) ==>
                failure.None?
    {
      hide Valid, Effects;
      assert Smooth({}) ==> Smoothly(clock, {});
      if before.None? {
        failure := Link(staged, path, after);
      } else {
        failure := Exchange(staged, path, before.value, after);
      }
    }

    /** Write the staged file. */
    method Stage(staged: Path, after: Bytes) returns (failure: Option<Failure>)
      requires Valid() && own == Some(staged) && staged in files
      modifies `clock, `files, `calls
      ensures Valid() && Effects() == old(Effects())
      ensures staged in files && (failure.None? ==> files[staged] == Regular(after))
      ensures failure.Some? ==> failure.value in {FilesystemError, Cancelled}
      ensures failure.None? ==> clock == old(clock) + 2 && !script(old(clock) + 1).stop
      ensures clock >= old(clock) && (failure == Some(Cancelled) ==> StopSeen(old(clock), clock))
      ensures Quiet() ==> files == old(files)[staged := files[staged]]
      ensures Smooth({}) ==> failure.None?
    {
      hide Valid, Effects;
      var write := Tick();
      if write.fails {
        assert Smooth({}) ==> Smoothly(old(clock), {});
        return Some(FilesystemError);
      }
      OsFill(staged, after);
      assert Smooth({}) ==> Smoothly(clock, {});
      var check := Tick();
      failure := if check.stop then Some(Cancelled) else None;
    }

    /** Creation: a link never replaces what is there, not even what appeared since it was looked for. */
    method Link(staged: Path, path: Path, after: Bytes) returns (failure: Option<Failure>)
      requires Valid() && own == Some(staged) && staged in files && files[staged] == Regular(after)
      modifies `clock, `files, `calls
      ensures Valid() && staged in files && files[staged] == Regular(after) && clock == old(clock) + 1
      ensures var then' := After(old(files), script(old(clock)).outside, own);
              && (failure == if path in then' then Some(FileExists)
                             else if script(old(clock)).fails then Some(FilesystemError) else None)
              && files == if failure.Some? then then' else then'[path := Regular(after)]
      ensures Effects() == old(Effects()) + (if failure.None? then [Created(path, after)] else [])
    {
      hide Valid, Effects;
      var now := Tick();
      if path in files {
        return Some(FileExists);
      }
      if now.fails {
        return Some(FilesystemError);
      }
      OsLink(staged, path);
      failure := None;
    }

    /** Why an exchange fails, given the files when it begins and what happens before each of its three calls: reading the
      * path, reading its mode and replacing it. */
    ghost function ExchangeFails(files: Files, own: Option<Path>, from: nat, path: Path, before: Bytes): Option<Failure> {
      var first := After(files, script(from).outside, own);
      var second := After(first, script(from + 1).outside, own);
      var third := After(second, script(from + 2).outside, own);
      if script(from).fails || ContentAt(first, path).None? then Some(FilesystemError)
      else if ContentAt(first, path) != Some(before) then Some(ContextChanged)
      else if script(from + 1).fails || path !in second then Some(FilesystemError)
      else if script(from + 1).stop then Some(Cancelled)
      else if script(from + 2).fails || (path in third && third[path].Special?) then Some(FilesystemError)
      else None
    }

    /** An edit compares the content once more and then replaces the file. */
    method Exchange(staged: Path, path: Path, before: Bytes, after: Bytes) returns (failure: Option<Failure>)
      requires Valid() && own == Some(staged) && staged in files && files[staged] == Regular(after)
      modifies `clock, `files, `calls
      ensures Valid()
      ensures failure.Some? ==> failure.value in {FilesystemError, ContextChanged, Cancelled} && Effects() == old(Effects())
      ensures failure.None? ==> clock == old(clock) + 3 && !script(old(clock) + 1).stop
      ensures clock >= old(clock) && (failure == Some(Cancelled) ==> StopSeen(old(clock), clock))
      ensures failure.None? ==>
                && |Effects()| == |old(Effects())| + 1 && Effects()[..|old(Effects())|] == old(Effects())
                && Effects()[|old(Effects())|].Exchanged? && Effects()[|old(Effects())|].path == path
                && Effects()[|old(Effects())|].after == after && ContentAt(files, path) == Some(after)
      ensures failure == ExchangeFails(old(files), own, old(clock), path, before)
      ensures Quiet() ==>
                && (failure.None? ==> path in old(files) && Effects()[|old(Effects())|].found == Some(before))
                && files == if failure.Some? then old(files) else (old(files) - {staged})[path := Regular(after)]
      ensures Smooth({}) ==>
                failure == if ContentAt(old(files), path).None? then Some(FilesystemError)
                           else if ContentAt(old(files), path) != Some(before) then Some(ContextChanged) else None
    {
      hide Valid, Effects;
      assert Smooth({}) ==> Smoothly(clock, {}) && Smoothly(clock + 1, {}) && Smoothly(clock + 2, {});
      var read := Tick();
      if read.fails || path !in files || files[path].Special? {
        return Some(FilesystemError);
      }
      if files[path].content != before {
        return Some(ContextChanged);
      }
      var mode := Tick();
      if mode.fails || path !in files {
        return Some(FilesystemError);
      }
      if mode.stop {
        return Some(Cancelled);
      }
      var now := Tick();
      if now.fails || (path in files && files[path].Special?) {
        return Some(FilesystemError);
      }
      OsReplace(staged, path);
      failure := None;
    }

    /** The part of one batch item before its publication: what the path holds, and what the item
      * makes of it. Unless a call failed or the file vanished between two of them, the answer is what
      * the item asks for in the files as they are when it is given. */
    method Prepare(item: Item) returns (before: Option<Bytes>, change: Change)
      requires Valid() && resolve(item.path).Some?
      modifies `clock, `files, `calls
      ensures Valid() && Effects() == old(Effects())
      ensures Asks(item, files, change) || change == NoChange(FilesystemError)
      ensures change == NoChange(FilesystemError) ==>
                || script(old(clock)).fails
                || (item.EditedFile? &&
                      (script(old(clock) + 1).fails || ContentAt(files, resolve(item.path).value).None?))
      ensures script(old(clock)).fails ==> change == NoChange(FilesystemError)
      ensures change.NoChange? ==> change.failure != StagingCleanupFailed && change.failure != Cancelled
      ensures clock >= old(clock)
      ensures change.Change? ==> (before.None? <==> item.NewFile?) && clock == old(clock) + if item.NewFile? then 1 else 2
      ensures change.Change? ==>
                && Names(item, Receipt(resolve(item.path).value, before, change.after))
                && (if before.None? then resolve(item.path).value !in files
                    else ContentAt(files, resolve(item.path).value) == before)
      ensures Quiet() ==> files == old(files)
      ensures Smooth({}) ==> Asks(item, old(files), change)
    {
      hide Valid, Effects, Edited, LeadsTo;
      assert Smooth({}) ==> Smoothly(clock, {}) && Smoothly(clock + 1, {});
      var path := resolve(item.path).value;
      var look := Tick();
      before := None;
      if look.fails {
        return None, NoChange(FilesystemError);
      }
      if item.NewFile? {
        change := if path in files then NoChange(FileExists) else Change(encode(item.content));
        return;
      }
      if path !in files || files[path].Special? {
        return None, NoChange(MissingFile);
      }
      if |files[path].content| > MAX_FILE_BYTES {
        return None, NoChange(FileTooLarge);
      }
      var read := Tick();
      if read.fails || path !in files || files[path].Special? {
        return None, NoChange(FilesystemError);
      }
      before := Some(files[path].content);
      if |before.value| > MAX_FILE_BYTES {
        return before, NoChange(FileTooLarge);
      }
      var text := decode(before.value);
      if text.None? {
        return before, NoChange(InvalidEncoding);
      }
      EditedLeads(before.value, item.edits);
      var edited := ApplyEdits(text.value, item.edits);
      if edited.None? {
        return before, NoChange(ContextMismatch);
      }
      change := if |encode(edited.value)| > MAX_FILE_BYTES then NoChange(FileTooLarge)
                else Change(encode(edited.value));
    }

    /** The paths a batch may publish to. */
    function Paths(items: seq<Item>): set<Path> {
      set i | 0 <= i < |items| && resolve(items[i].path).Some? :: resolve(items[i].path).value
    }

    /** `_file_batch`. The receipts name a prefix of the batch and are exactly what was published, whatever
      * other programs do. With no outside writer they say what was there before, and replaying them on the
      * files at the start gives the files at the end, but for one staged file that a failed cleanup leaves.
      * With no failing call and no stop either, the batch ends at the first item that asks for nothing
      * that can be done, with that item's failure, or at its end. */
    method FileBatch(items: seq<Item>) returns (receipts: seq<Receipt>, failure: Option<Failure>, left: Option<Path>)
      requires Valid() && own.None?
      modifies `clock, `files, `own, `calls
      ensures Valid() && own.None?
      ensures NamesPrefix(items, receipts)
      ensures Witnessed(old(Effects()), Effects(), receipts)
      ensures failure.None? ==> |receipts| == |items|
      ensures failure.Some? && failure.value != StagingCleanupFailed ==> |receipts| < |items|
      ensures left.Some? ==> failure in {Some(StagingCleanupFailed), Some(FilesystemError)}
      ensures clock >= old(clock) && (failure == Some(Cancelled) ==> StopSeen(old(clock), clock))
      ensures NoStopSeen(items, |receipts|, old(clock))
      ensures |receipts| < |items| && failure != Some(StagingCleanupFailed)
              && script(StartOf(items, |receipts|, old(clock))).stop ==>
                failure == Some(Cancelled)
      ensures Quiet() ==>
                && Truthful(old(files), receipts)
                && WitnessedExactly(old(Effects()), Effects(), receipts)
                && files == Leaving(Replay(old(files), receipts), left, files)
      ensures Smooth(old(files).Keys + Paths(items)) ==>
                && left.None? && files == Replay(old(files), receipts)
                && (failure.Some? ==> |receipts| < |items| && Refuses(items[|receipts|], files, failure.value))
    {
      receipts, failure, left := [], None, None;
      hide Names, Replay, Truthful, Quiet, Smooth, Valid, Effects, Refuses, Unstopped, NoStopSeen, StartOf;
      NothingYet(files);
      assert NoStopSeen(items, 0, clock) && StartOf(items, 0, clock) == clock by {
        FirstStarts(items, clock);
      }
      SmoothIsQuiet(files.Keys + Paths(items));
      for i := 0 to |items|
        invariant |receipts| == i && failure.None? && left.None?
        invariant Valid() && own.None? && clock >= old(clock)
        invariant NamesPrefix(items, receipts) && clock == StartOf(items, i, old(clock))
        invariant NoStopSeen(items, i, old(clock))
        invariant Witnessed(old(Effects()), Effects(), receipts)
        invariant Quiet() ==>
                    && Truthful(old(files), receipts)
                    && WitnessedExactly(old(Effects()), Effects(), receipts)
                    && files == Replay(old(files), receipts)
        invariant Quiet() ==> files.Keys <= old(files).Keys + Paths(items)
      {
        OneMoreStarts(items, i, old(clock));
        var more;
        more, failure, left := OneItem(items[i], receipts, old(files), old(Effects()), old(files).Keys + Paths(items));
        receipts := more;
        if failure.Some? {
          return;
        }
      }
    }

    /** One round of the batch loop. */
    method OneItem(item: Item, receipts: seq<Receipt>, ghost start: Files, ghost from: seq<Effect>,
                   ghost paths: set<Path>)
      returns (more: seq<Receipt>, failure: Option<Failure>, left: Option<Path>)
      requires Valid() && own.None?
      requires Witnessed(from, Effects(), receipts)
      requires Quiet() ==>
                 Truthful(start, receipts) && WitnessedExactly(from, Effects(), receipts) && files == Replay(start, receipts)
      requires Quiet() ==> files.Keys <= paths
      requires resolve(item.path).Some? ==> resolve(item.path).value in paths
      modifies `clock, `files, `own, `calls
      ensures Valid() && own.None?
      ensures Witnessed(from, Effects(), more)
      ensures more == receipts
              || (|more| == |receipts| + 1 && more[..|receipts|] == receipts && Names(item, more[|receipts|]))
      ensures failure.None? ==> |more| > |receipts| && left.None?
      ensures failure.Some? ==> (failure.value == StagingCleanupFailed <==> |more| > |receipts|)
      ensures left.Some? ==> failure in {Some(StagingCleanupFailed), Some(FilesystemError)}
      ensures clock >= old(clock) && (failure == Some(Cancelled) ==> StopSeen(old(clock), clock))
      ensures |more| > |receipts| ==> Unstopped(item, old(clock))
      ensures failure.None? ==> clock == old(clock) + if item.NewFile? then 8 else 11
      ensures script(old(clock)).stop ==> failure == Some(Cancelled)
      ensures Quiet() ==>
                && Truthful(start, more) && WitnessedExactly(from, Effects(), more)
                && files == Leaving(Replay(start, more), left, files)
                && (failure.None? ==> files == Replay(start, more) && files.Keys <= paths)
      ensures Smooth(paths) ==>
                left.None? && (failure.Some? ==> more == receipts && Refuses(item, old(files), failure.value))
    {
      hide Valid, Effects, Truthful, Replay, Witnessed, WitnessedExactly, Names, Meant, Witnesses;
      SmoothIsQuiet(paths);
      assert forall i: nat {:trigger script(i)} :: Smooth(paths) ==> Smoothly(i, paths);
      if Smooth(paths) {
        FewerPaths(paths, {});
      }
      more, left := receipts, None;
      var check := Tick();
      if check.stop {
        return receipts, Some(Cancelled), None;
      }
      var path := resolve(item.path);
      if path.None? {
        return receipts, Some(PathRefused), None;
      }
      var before, change := Prepare(item);
      if change.NoChange? {
        return receipts, Some(change.failure), None;
      }
      var again := Tick();
      if again.stop {
        return receipts, Some(Cancelled), None;
      }
      ghost var was := Effects();
      if Smooth(paths) {
        FewerPaths(paths, files.Keys + {path.value});
      }
      var published;
      published, left := Publish(path.value, before, change.after);
      if published.Unpublished? {
        return receipts, Some(published.failure), left;
      }
      var receipt := Receipt(path.value, before, change.after);
      more := receipts + [receipt];
      assert Effects() == was + [Effects()[|was|]];
      WitnessedGrows(from, was, receipts, Effects()[|was|], receipt);
      if Quiet() {
        ReplayGrows(start, receipts, receipt);
      }
      failure := if published.PublishedUncleaned? then Some(StagingCleanupFailed) else None;
    }

    lemma SmoothIsQuiet(paths: set<Path>)
      ensures Smooth(paths) ==> Quiet()
    {
      if Smooth(paths) {
        forall i: nat
          ensures script(i).outside == []
        {
          assert Smoothly(i, paths);
        }
      }
    }

    /** What an undisturbed schedule says of one moment. */
    lemma SmoothAt(paths: set<Path>, i: nat)
      ensures Quiet() ==> script(i).outside == []
      ensures Smooth(paths) ==> Smoothly(i, paths) && Smooth({}) && Quiet()
    {
      SmoothIsQuiet(paths);
      if Smooth(paths) {
        FewerPaths(paths, {});
      }
    }

    lemma FewerPaths(paths: set<Path>, fewer: set<Path>)
      requires Smooth(paths) && fewer <= paths
      ensures Smooth(fewer)
    {
      forall i: nat
        ensures Smoothly(i, fewer)
      {
        assert Smoothly(i, paths);
      }
    }
  }

  lemma NothingYet(files: Files)
    ensures Replay(files, []) == files && Truthful(files, [])
  {
  }

  /** `clean`, but for the staged file that was left in `now`. */
  ghost function Leaving(clean: Files, left: Option<Path>, now: Files): Files {
    if left.Some? && left.value in now && left.value !in clean then clean[left.value := now[left.value]] else clean
  }

  lemma NothingLeft(clean: Files, now: Files)
    ensures Leaving(clean, None, now) == clean
  {
  }

  lemma CleanedUp(clean: Files, staging: Files, staged: Path, left: Option<Path>)
    requires staged !in clean && staging - {staged} == clean
    requires left.Some? ==> left.value == staged && staged in staging
    ensures Leaving(clean, left, if left.Some? then staging else staging - {staged})
            == if left.Some? then staging else staging - {staged}
  {
  }

  lemma ReplayGrows(files: Files, receipts: seq<Receipt>, receipt: Receipt)
    requires Truthful(files, receipts)
    requires match receipt.before
             case None => receipt.path !in Replay(files, receipts)
             case Some(content) => ContentAt(Replay(files, receipts), receipt.path) == Some(content)
    ensures Truthful(files, receipts + [receipt])
    ensures Replay(files, receipts + [receipt]) == Replay(files, receipts)[receipt.path := Regular(receipt.after)]
  {
    var more := receipts + [receipt];
    assert more[..|receipts|] == receipts;
    forall i | 0 <= i < |receipts|
      ensures more[..i] == receipts[..i]
    {
    }
  }
}
