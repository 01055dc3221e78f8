/** The multiset grading of a pinned test file declared as several. */
module SplitGrading {
  import opened Common

  type File = string
  type Title = string
  type Files = map<File, seq<Title>>

  datatype Kind = Collides | Dropped | MovedOutside | Added | Duplicated | BadRecord

  datatype Difference = Difference(kind: Kind, file: File, title: Title)

  // ---------- the record ----------

  predicate PartsOk(parts: seq<File>) {
    |parts| >= 2 && forall i | 0 <= i < |parts| :: parts[i] != ""
  }

  /** Every part read, in record order; a list that is no list of two paths is skipped. */
  function PartsRead(olds: seq<File>, splits: map<File, seq<File>>): seq<File>
    requires forall o | o in olds :: o in splits
  {
    if olds == [] then []
    else
      var o := olds[|olds| - 1];
      PartsRead(olds[..|olds| - 1], splits) + if PartsOk(splits[o]) then splits[o] else []
  }

  predicate ListsOk(olds: seq<File>, splits: map<File, seq<File>>)
    requires forall o | o in olds :: o in splits
  {
    forall o | o in olds :: PartsOk(splits[o])
  }

  lemma OneMoreList(olds: seq<File>, o: File, splits: map<File, seq<File>>)
    requires (forall q | q in olds :: q in splits) && o in splits
    ensures forall q | q in olds + [o] :: q in splits
    ensures ListsOk(olds + [o], splits) <==> ListsOk(olds, splits) && PartsOk(splits[o])
    ensures PartsRead(olds + [o], splits) == PartsRead(olds, splits) + if PartsOk(splits[o]) then splits[o] else []
  {
    assert (olds + [o])[..|olds|] == olds;
    assert forall q :: q in olds + [o] <==> q in olds || q == o;
  }

  predicate NoRepeats(s: seq<File>) {
    forall i, j | 0 <= i < j < |s| :: s[i] != s[j]
  }

  /** `part` is named by `o`. */
  ghost predicate PartOf(splits: map<File, seq<File>>, o: File, part: File) {
    o in splits && part in splits[o]
  }

  /** Every list names two paths or more, no path twice in all, and no part is itself split unless it keeps the old path. */
  ghost predicate Usable(olds: seq<File>, splits: map<File, seq<File>>)
    requires forall o | o in olds :: o in splits
  {
    && ListsOk(olds, splits) && NoRepeats(PartsRead(olds, splits))
    && forall o, part | o in olds && PartOf(splits, o, part) && part in splits :: part == o
  }

  lemma {:induction false} PartsReadContents(olds: seq<File>, splits: map<File, seq<File>>, part: File)
    requires forall o | o in olds :: o in splits
    ensures part in PartsRead(olds, splits) <==> exists o :: o in olds && PartsOk(splits[o]) && PartOf(splits, o, part)
  {
    if olds != [] {
      var n := |olds| - 1;
      PartsReadContents(olds[..n], splits, part);
      assert olds == olds[..n] + [olds[n]];
      if part in PartsRead(olds[..n], splits) {
        var o :| o in olds[..n] && PartsOk(splits[o]) && PartOf(splits, o, part);
      }
      if o :| o in olds && PartsOk(splits[o]) && PartOf(splits, o, part) {
        assert o in olds[..n] || o == olds[n];
      }
    }
  }

  /** The paths with an owner are the parts read. */
  ghost predicate Covers(owner: map<File, File>, parts: seq<File>) {
    forall p :: p in owner <==> p in parts
  }

  /** Records one part's owner, or the problem that it has one already. */
  method ClaimPart(owner: map<File, File>, whole: File, part: File, ghost before: seq<File>)
    returns (owner': map<File, File>, problem: bool)
    requires Covers(owner, before)
    ensures Covers(owner', before + [part])
    ensures problem == (part in before)
    ensures owner' == if part in owner then owner else owner[part := whole]
  {
    problem := part in owner;
    owner' := if part in owner then owner else owner[part := whole];
  }

  lemma NoRepeatsAppend(s: seq<File>, p: File)
    ensures NoRepeats(s + [p]) <==> NoRepeats(s) && p !in s
  {
    var r := s + [p];
    assert forall i | 0 <= i < |s| :: r[i] == s[i];
    if NoRepeats(r) {
      assert forall i | 0 <= i < |s| :: r[i] != r[|s|];
    }
  }

  /** Every recorded owner is one of `olds` and names the part. */
  ghost predicate OwnersAmong(owner: map<File, File>, olds: seq<File>, splits: map<File, seq<File>>) {
    forall p | p in owner :: owner[p] in olds && PartOf(splits, owner[p], p)
  }

  lemma OwnersAdded(start: map<File, File>, owner: map<File, File>, olds: seq<File>, o: File, splits: map<File, seq<File>>)
    requires OwnersAmong(start, olds, splits) && o in splits
    requires forall p | p in owner :: if p in start then owner[p] == start[p] else owner[p] == o && p in splits[o]
    ensures OwnersAmong(owner, olds + [o], splits)
  {
  }

  /** The owners of all parts; `problems` counts the ill-formed lists and the paths named again. */
  method OwnersOf(olds: seq<File>, splits: map<File, seq<File>>) returns (owner: map<File, File>, problems: nat)
    requires forall o | o in olds :: o in splits
    ensures Covers(owner, PartsRead(olds, splits))
    ensures OwnersAmong(owner, olds, splits)
    ensures problems == 0 <==> ListsOk(olds, splits) && NoRepeats(PartsRead(olds, splits))
  {
    owner, problems := map[], 0;
    var n := 0;
    while n < |olds|
      invariant 0 <= n <= |olds|
      invariant Covers(owner, PartsRead(olds[..n], splits))
      invariant OwnersAmong(owner, olds[..n], splits)
      invariant problems == 0 <==> ListsOk(olds[..n], splits) && NoRepeats(PartsRead(olds[..n], splits))
    {
      var o := olds[n];
      ghost var before := PartsRead(olds[..n], splits);
      assert olds[..n + 1] == olds[..n] + [o];
      OneMoreList(olds[..n], o, splits);
      hide ListsOk; hide PartsRead; hide NoRepeats; hide Covers; hide OwnersAmong;
      if !PartsOk(splits[o]) {
        problems := problems + 1;
        assert before + [] == before;
        OwnersAdded(owner, owner, olds[..n], o, splits);
      } else {
        ghost var start := owner;
        var again;
        owner, again := OwnersOfList(owner, o, splits[o], before);
        problems := problems + again;
        OwnersAdded(start, owner, olds[..n], o, splits);
      }
      n := n + 1;
    }
    assert olds[..n] == olds;
  }

  /** The owners with one list's parts added, and how many of them had an owner already. */
  method OwnersOfList(start: map<File, File>, whole: File, parts: seq<File>, ghost before: seq<File>)
    returns (owner: map<File, File>, problems: nat)
    requires Covers(start, before)
    ensures Covers(owner, before + parts)
    ensures forall p | p in owner :: if p in start then owner[p] == start[p] else owner[p] == whole && p in parts
    ensures problems == 0 && NoRepeats(before) <==> NoRepeats(before + parts)
  {
    owner, problems := start, 0;
    var k := 0;
    assert before + parts[..0] == before;
    while k < |parts|
      invariant 0 <= k <= |parts|
      invariant Covers(owner, before + parts[..k])
      invariant forall p | p in owner :: if p in start then owner[p] == start[p] else owner[p] == whole && p in parts
      invariant problems == 0 && NoRepeats(before) <==> NoRepeats(before + parts[..k])
    {
      assert before + parts[..k + 1] == before + parts[..k] + [parts[k]];
      NoRepeatsAppend(before + parts[..k], parts[k]);
      hide NoRepeats;
      var again;
      owner, again := ClaimPart(owner, whole, parts[k], before + parts[..k]);
      if again { problems := problems + 1; }
      k := k + 1;
    }
    assert before + parts[..k] == before + parts;
  }

  /** What is wrong with a record before any title is read: nothing, exactly when it is usable. */
  method ValidateSplits(olds: seq<File>, splits: map<File, seq<File>>) returns (problems: nat)
    requires NoRepeats(olds) && forall o :: o in olds <==> o in splits
    ensures problems == 0 <==> Usable(olds, splits)
  {
    var owner;
    owner, problems := OwnersOf(olds, splits);
    ghost var bad := problems;
    var todo := owner.Keys;
    while todo != {}
      invariant todo <= owner.Keys
      invariant problems == 0 <==> bad == 0 && forall p | p in owner && p !in todo :: p == owner[p] || p !in splits
      decreases todo
    {
      var part :| part in todo;
      if part != owner[part] && part in splits { problems := problems + 1; }
      todo := todo - {part};
    }
    if bad == 0 { OwnersAreParts(olds, splits, owner); }
  }

  /** With no path named twice, a part has the one owner recorded. */
  lemma OwnersAreParts(olds: seq<File>, splits: map<File, seq<File>>, owner: map<File, File>)
    requires NoRepeats(olds) && (forall o | o in olds :: o in splits) && ListsOk(olds, splits) && NoRepeats(PartsRead(olds, splits))
    requires Covers(owner, PartsRead(olds, splits))
    requires OwnersAmong(owner, olds, splits)
    ensures (forall p | p in owner :: p == owner[p] || p !in splits)
            <==> forall o, part | o in olds && PartOf(splits, o, part) && part in splits :: part == o
  {
    forall o, part | o in olds && PartOf(splits, o, part) ensures part in owner && owner[part] == o {
      PartsReadContents(olds, splits, part);
      OneOwner(olds, splits, o, owner[part], part);
    }
  }

  lemma {:induction false} OneOwner(olds: seq<File>, splits: map<File, seq<File>>, o: File, q: File, part: File)
    requires (forall x | x in olds :: x in splits && PartsOk(splits[x])) && NoRepeats(PartsRead(olds, splits))
    requires o in olds && q in olds && PartOf(splits, o, part) && PartOf(splits, q, part)
    ensures o == q
  {
    var n := |olds| - 1;
    var before, parts := PartsRead(olds[..n], splits), splits[olds[n]];
    assert olds == olds[..n] + [olds[n]];
    assert NoRepeats(before) by { assert forall i | 0 <= i < |before| :: (before + parts)[i] == before[i]; }
    if o in olds[..n] && q in olds[..n] {
      OneOwner(olds[..n], splits, o, q, part);
    } else if o in olds[..n] || q in olds[..n] {
      PartsReadContents(olds[..n], splits, part);
      if part in before { Disjoint(before, parts, part); }
    }
  }

  lemma Disjoint(a: seq<File>, b: seq<File>, p: File)
    requires NoRepeats(a + b) && p in a
    ensures p !in b
  {
    var i :| 0 <= i < |a| && a[i] == p;
    forall j | 0 <= j < |b| ensures b[j] != p { assert (a + b)[i] != (a + b)[|a| + j]; }
  }

  // ---------- counting ----------

  function Concat(lists: seq<seq<Title>>): seq<Title> {
    if lists == [] then [] else Concat(lists[..|lists| - 1]) + lists[|lists| - 1]
  }

  method CountTitles(lists: seq<seq<Title>>) returns (counts: map<Title, nat>)
    ensures Counts(counts, multiset(Concat(lists)))
  {
    counts := map[];
    for i := 0 to |lists|
      invariant Counts(counts, multiset(Concat(lists[..i])))
    {
      assert lists[..i + 1][..i] == lists[..i];
      counts := CountList(counts, lists[i], multiset(Concat(lists[..i])));
    }
    assert lists[..|lists|] == lists;
  }

  method CountList(start: map<Title, nat>, list: seq<Title>, ghost before: multiset<Title>) returns (counts: map<Title, nat>)
    requires Counts(start, before)
    ensures Counts(counts, before + multiset(list))
  {
    counts := start;
    for j := 0 to |list|
      invariant Counts(counts, before + multiset(list[..j]))
    {
      assert list[..j + 1] == list[..j] + [list[j]];
      counts := counts[list[j] := Count(counts, list[j]) + 1];
    }
    assert list[..|list|] == list;
  }

  // ---------- grading one split ----------

  datatype Split = Split(whole: File, parts: seq<File>, mapped: Files, after: Files)

  function TitlesIn(files: Files, f: File): seq<Title> {
    if f in files then files[f] else []
  }

  function PartLists(s: Split): (r: seq<seq<Title>>)
    ensures |r| == |s.parts|
  {
    seq(|s.parts|, i requires 0 <= i < |s.parts| => TitlesIn(s.after, s.parts[i]))
  }

  /** The old file's titles, and its parts' taken together. */
  function Expected(s: Split): multiset<Title> {
    multiset(TitlesIn(s.mapped, s.whole))
  }

  function Got(s: Split): multiset<Title> {
    multiset(Concat(PartLists(s)))
  }

  predicate CollidingPart(s: Split, i: nat) {
    i < |s.parts| && s.parts[i] != s.whole && s.parts[i] in s.mapped
  }

  function Collisions(s: Split, n: nat): nat
    requires n <= |s.parts|
  {
    if n == 0 then 0 else Collisions(s, n - 1) + if CollidingPart(s, n - 1) then 1 else 0
  }

  predicate HeldElsewhere(s: Split, t: Title) {
    exists f :: f in s.after && f !in s.parts && t in s.after[f]
  }

  function TitleBag(ds: seq<Difference>): multiset<Title> {
    if ds == [] then multiset{} else TitleBag(ds[..|ds| - 1]) + multiset{ds[|ds| - 1].title}
  }

  lemma {:induction false} TitleBagConcat(a: seq<Difference>, b: seq<Difference>)
    ensures TitleBag(a + b) == TitleBag(a) + TitleBag(b)
  {
    if b == [] {
      assert a + b == a;
    } else {
      assert (a + b)[..|a + b| - 1] == a + b[..|b| - 1];
      TitleBagConcat(a, b[..|b| - 1]);
    }
  }

  lemma {:induction false} TitleBagSize(ds: seq<Difference>)
    ensures |TitleBag(ds)| == |ds|
  {
    if ds != [] { TitleBagSize(ds[..|ds| - 1]); }
  }

  function Copies(d: Difference, n: nat): (r: seq<Difference>)
    ensures |r| == n && forall i | 0 <= i < n :: r[i] == d
  {
    seq(n, _ => d)
  }

  lemma {:induction false} CopiesBag(d: Difference, n: nat)
    ensures TitleBag(Copies(d, n)) == multiset{}[d.title := n]
  {
    if n > 0 {
      assert Copies(d, n)[..n - 1] == Copies(d, n - 1);
      CopiesBag(d, n - 1);
    }
  }

  lemma AddCopies(out: seq<Difference>, d: Difference, n: nat)
    ensures TitleBag(out + Copies(d, n)) == TitleBag(out)[d.title := TitleBag(out)[d.title] + n]
    ensures forall e | e in out + Copies(d, n) :: e in out || e == d
  {
    TitleBagConcat(out, Copies(d, n));
    CopiesBag(d, n);
  }

  function MissingKind(s: Split, t: Title): Kind {
    if HeldElsewhere(s, t) then MovedOutside else Dropped
  }

  function SurplusKind(s: Split, t: Title): Kind {
    if t in Expected(s) then Duplicated else Added
  }

  function Count(m: map<Title, nat>, t: Title): nat {
    if t in m then m[t] else 0
  }

  /** The counting map of a bag. */
  ghost predicate Counts(m: map<Title, nat>, bag: multiset<Title>) {
    forall t :: Count(m, t) == bag[t]
  }

  /** Titles the parts carry fewer times than the old file did, one finding for each time. */
  method MissingTitles(s: Split, expected: map<Title, nat>, got: map<Title, nat>) returns (out: seq<Difference>)
    requires Counts(expected, Expected(s)) && Counts(got, Got(s))
    ensures TitleBag(out) == Expected(s) - Got(s)
    ensures forall d | d in out :: d.kind == MissingKind(s, d.title)
  {
    hide HeldElsewhere; hide TitleBag; hide Copies; hide Expected; hide Got;
    out := [];
    EmptyBag();
    var todo := expected.Keys;
    while todo != {}
      invariant todo <= expected.Keys
      invariant forall t :: TitleBag(out)[t] == if t in todo then 0 else (Expected(s) - Got(s))[t]
      invariant forall d | d in out :: d.kind == MissingKind(s, d.title)
      decreases todo
    {
      var title :| title in todo;
      var want, have := expected[title], Count(got, title);
      if have < want {
        var d := Difference(MissingKind(s, title), s.whole, title);
        AddCopies(out, d, want - have);
        out := out + Copies(d, want - have);
      }
      todo := todo - {title};
    }
  }

  /** Titles the parts carry more times than the old file did. */
  method SurplusTitles(s: Split, expected: map<Title, nat>, got: map<Title, nat>) returns (out: seq<Difference>)
    requires Counts(expected, Expected(s)) && Counts(got, Got(s))
    ensures TitleBag(out) == Got(s) - Expected(s)
    ensures forall d | d in out :: d.kind == SurplusKind(s, d.title)
  {
    hide TitleBag; hide Copies; hide Expected; hide Got;
    out := [];
    EmptyBag();
    var todo := got.Keys;
    while todo != {}
      invariant todo <= got.Keys
      invariant forall t :: TitleBag(out)[t] == if t in todo then 0 else (Got(s) - Expected(s))[t]
      invariant forall d | d in out :: d.kind == SurplusKind(s, d.title)
      decreases todo
    {
      var title :| title in todo;
      var want, have := Count(expected, title), got[title];
      if have > want {
        var d := Difference(if want > 0 then Duplicated else Added, s.whole, title);
        AddCopies(out, d, have - want);
        out := out + Copies(d, have - want);
      }
      todo := todo - {title};
    }
  }

  lemma EmptyBag()
    ensures TitleBag([]) == multiset{}
  {
  }

  /** Exactly what a split may be said to have done: nothing lost, added or carried twice, and no pinned file taken over. */
  predicate Agrees(s: Split) {
    Expected(s) == Got(s) && forall i | 0 <= i < |s.parts| :: !CollidingPart(s, i)
  }

  method CollidingParts(s: Split) returns (out: seq<Difference>)
    ensures |out| == Collisions(s, |s.parts|)
    ensures forall d | d in out :: Says(s, d)
  {
    out := [];
    for i := 0 to |s.parts|
      invariant |out| == Collisions(s, i) && forall d | d in out :: Says(s, d)
    {
      if s.parts[i] != s.whole && s.parts[i] in s.mapped { out := out + [Difference(Collides, s.parts[i], "")]; }
    }
  }

  lemma ConcatOne(list: seq<Title>)
    ensures Concat([list]) == list
  {
    assert [list][..0] == [];
  }

  /**
   What each finding says of the split. A title the parts lack was dropped, unless some file that
   is no part now has it; one they have too often was added, unless the old file had it too.
   */
  ghost predicate Says(s: Split, d: Difference) {
    match d.kind
    case Collides => d.file != s.whole && d.file in s.parts && d.file in s.mapped
    case Dropped => d.title in Expected(s) - Got(s) && forall f | f in s.after && d.title in s.after[f] :: f in s.parts
    case MovedOutside => d.title in Expected(s) - Got(s) && exists f :: f in s.after && f !in s.parts && d.title in s.after[f]
    case Added => d.title in Got(s) - Expected(s) && d.title !in Expected(s)
    case Duplicated => d.title in Got(s) - Expected(s) && d.title in Expected(s)
    case BadRecord => false
  }

  lemma {:induction false} InBag(ds: seq<Difference>, d: Difference)
    requires d in ds
    ensures d.title in TitleBag(ds)
  {
    var n := |ds| - 1;
    if d != ds[n] { InBag(ds[..n], d); }
  }

  lemma MissingSay(s: Split, ds: seq<Difference>)
    requires TitleBag(ds) == Expected(s) - Got(s) && forall d | d in ds :: d.kind == MissingKind(s, d.title)
    ensures forall d | d in ds :: Says(s, d)
  {
    forall d | d in ds ensures Says(s, d) {
      InBag(ds, d);
      hide TitleBag; hide Expected; hide Got;
    }
  }

  lemma SurplusSay(s: Split, ds: seq<Difference>)
    requires TitleBag(ds) == Got(s) - Expected(s) && forall d | d in ds :: d.kind == SurplusKind(s, d.title)
    ensures forall d | d in ds :: Says(s, d)
  {
    forall d | d in ds ensures Says(s, d) {
      InBag(ds, d);
      hide TitleBag; hide Expected; hide Got;
    }
  }

  /** The number of findings is the collisions plus the size of the multiset difference, both ways, and each says why. */
  method GradeSplit(s: Split) returns (out: seq<Difference>)
    ensures forall d | d in out :: Says(s, d)
    ensures |out| == Collisions(s, |s.parts|) + |Expected(s) - Got(s)| + |Got(s) - Expected(s)|
    ensures out == [] <==> Agrees(s)
  {
    var collisions := CollidingParts(s);
    ConcatOne(TitlesIn(s.mapped, s.whole));
    var expected := CountTitles([TitlesIn(s.mapped, s.whole)]);
    var got := CountTitles(PartLists(s));
    assert Counts(expected, Expected(s)) && Counts(got, Got(s));
    hide Expected; hide Got; hide TitleBag; hide Collisions; hide Counts; hide Concat;
    var missing := MissingTitles(s, expected, got);
    var surplus := SurplusTitles(s, expected, got);
    TitleBagSize(missing);
    TitleBagSize(surplus);
    MissingSay(s, missing);
    SurplusSay(s, surplus);
    hide Says;
    NoCollisions(s, |s.parts|);
    EqualWhenNoDifference(Expected(s), Got(s));
    out := collisions + missing + surplus;
  }

  lemma {:induction false} NoCollisions(s: Split, n: nat)
    requires n <= |s.parts|
    ensures Collisions(s, n) == 0 <==> forall i | 0 <= i < n :: !CollidingPart(s, i)
  {
    if n > 0 { NoCollisions(s, n - 1); }
  }

  lemma EqualWhenNoDifference(a: multiset<Title>, b: multiset<Title>)
    ensures |a - b| + |b - a| == 0 <==> a == b
  {
    if |a - b| == 0 && |b - a| == 0 {
      assert a - b == multiset{} && b - a == multiset{};
      forall t ensures a[t] == b[t] { assert (a - b)[t] == 0 && (b - a)[t] == 0; }
    }
  }

  // ---------- a whole comparison ----------

  /** The files of each script, None where a script collected none; renames are applied already. */
  type Pin = map<string, Option<Files>>

  predicate Graded(pin: Pin, tree: Pin, name: string) {
    name in pin && name in tree && pin[name].Some? && tree[name].Some?
  }

  predicate Applies(pin: Pin, tree: Pin, name: string, o: File) {
    Graded(pin, tree, name) && o in pin[name].value
  }

  function SplitOf(pin: Pin, tree: Pin, splits: map<File, seq<File>>, name: string, o: File): Split
    requires Applies(pin, tree, name, o) && o in splits
  {
    Split(o, splits[o], pin[name].value, tree[name].value)
  }

  /** The pin without the files that were split, and the tree without their parts, in the scripts where that happened. */
  function PinLeft(pin: Pin, tree: Pin, splits: map<File, seq<File>>): Pin {
    map n | n in pin :: if Graded(pin, tree, n) then Some(pin[n].value - splits.Keys) else pin[n]
  }

  function TreeLeft(pin: Pin, tree: Pin, splits: map<File, seq<File>>): Pin {
    map n | n in tree ::
      if Graded(pin, tree, n) then Some(tree[n].value - (set o, p | o in splits && o in pin[n].value && p in splits[o] :: p)) else tree[n]
  }

  /** `f` is a part of a file that was split in this script. */
  ghost predicate PartHere(pin: Pin, tree: Pin, splits: map<File, seq<File>>, name: string, f: File) {
    exists o :: o in splits && Applies(pin, tree, name, o) && f in splits[o]
  }

  /**
   Every file is graded once. In a script both sides have, a pinned file is graded as a split or
   left to the ordinary comparison, and so is a file of the tree, with the titles it has; the
   other scripts are left whole.
   */
  lemma EveryFileIsGradedOnce(pin: Pin, tree: Pin, splits: map<File, seq<File>>, name: string)
    ensures PinLeft(pin, tree, splits).Keys == pin.Keys && TreeLeft(pin, tree, splits).Keys == tree.Keys
    ensures Graded(pin, tree, name) ==>
              var p, t := PinLeft(pin, tree, splits)[name], TreeLeft(pin, tree, splits)[name];
              && p.Some? && t.Some?
              && (forall f | f in pin[name].value :: f in p.value <==> !(f in splits && Applies(pin, tree, name, f)))
              && (forall f | f in p.value :: f in pin[name].value && p.value[f] == pin[name].value[f])
              && (forall f | f in tree[name].value :: f in t.value <==> !PartHere(pin, tree, splits, name, f))
              && (forall f | f in t.value :: f in tree[name].value && t.value[f] == tree[name].value[f])
    ensures !Graded(pin, tree, name) ==>
              && (name in pin ==> PinLeft(pin, tree, splits)[name] == pin[name])
              && (name in tree ==> TreeLeft(pin, tree, splits)[name] == tree[name])
  {
    if Graded(pin, tree, name) {
      var parts := set o, p | o in splits && o in pin[name].value && p in splits[o] :: p;
      assert TreeLeft(pin, tree, splits)[name] == Some(tree[name].value - parts);
      forall f ensures f in parts <==> PartHere(pin, tree, splits, name, f) {
        if PartHere(pin, tree, splits, name, f) {
          var o :| o in splits && Applies(pin, tree, name, o) && f in splits[o];
        }
        if f in parts {
          var o :| o in splits && o in pin[name].value && f in splits[o];
          assert Applies(pin, tree, name, o);
        }
      }
    }
  }

  ghost predicate AllAgree(pin: Pin, tree: Pin, splits: map<File, seq<File>>) {
    forall n, o | o in splits && Applies(pin, tree, n, o) :: Agrees(SplitOf(pin, tree, splits, n, o))
  }

  /** Grades every split one script saw. */
  method GradeScript(pin: Pin, tree: Pin, splits: map<File, seq<File>>, name: string) returns (out: seq<Difference>)
    requires Graded(pin, tree, name)
    ensures out == [] <==> forall o | o in splits && Applies(pin, tree, name, o) :: Agrees(SplitOf(pin, tree, splits, name, o))
    ensures splits == map[] ==> out == []
  {
    out := [];
    hide Agrees;
    var todo := splits.Keys;
    while todo != {}
      invariant todo <= splits.Keys
      invariant out == [] <==> forall o | o in splits && o !in todo && Applies(pin, tree, name, o) ::
                                 Agrees(SplitOf(pin, tree, splits, name, o))
      decreases todo
    {
      var o :| o in todo;
      if o in pin[name].value {
        var found := GradeSplit(SplitOf(pin, tree, splits, name, o));
        out := out + found;
      }
      todo := todo - {o};
    }
  }

  /** Grades every split of every script the two sides share. */
  method GradeScripts(pin: Pin, tree: Pin, splits: map<File, seq<File>>) returns (out: seq<Difference>)
    ensures out == [] <==> AllAgree(pin, tree, splits)
    ensures splits == map[] ==> out == []
  {
    out := [];
    var todo := pin.Keys;
    while todo != {}
      invariant todo <= pin.Keys
      invariant out == [] <==> forall n, o | n !in todo && o in splits && Applies(pin, tree, n, o) ::
                                 Agrees(SplitOf(pin, tree, splits, n, o))
      invariant splits == map[] ==> out == []
      decreases todo
    {
      var name :| name in todo;
      if Graded(pin, tree, name) {
        var found := GradeScript(pin, tree, splits, name);
        out := out + found;
      }
      todo := todo - {name};
    }
  }

  /**
   The ordinary comparison with the splits in front of it, `olds` being the record's keys in
   its order. A record that is not usable is refused whole. Otherwise nothing is found exactly
   when every split agrees and the ordinary comparison of what is left finds nothing. With no
   splits it is the ordinary comparison.
   */
  method CompareWithSplits(pin: Pin, tree: Pin, olds: seq<File>, splits: map<File, seq<File>>, compare: (Pin, Pin) -> seq<Difference>)
    returns (out: seq<Difference>)
    requires NoRepeats(olds) && forall o :: o in olds <==> o in splits
    ensures !Usable(olds, splits) ==> out != [] && forall d | d in out :: d.kind == BadRecord
    ensures out == [] <==> && Usable(olds, splits) && AllAgree(pin, tree, splits)
                           && compare(PinLeft(pin, tree, splits), TreeLeft(pin, tree, splits)) == []
    ensures splits == map[] ==> out == compare(pin, tree)
  {
    if splits == map[] { NoSplitsUsable(olds, splits); }
    var problems := ValidateSplits(olds, splits);
    if problems > 0 {
      return Copies(Difference(BadRecord, "*", ""), problems);
    }
    hide Usable; hide AllAgree;
    out := GradeScripts(pin, tree, splits);
    if splits == map[] { NothingTaken(pin, tree); }
    out := out + compare(PinLeft(pin, tree, splits), TreeLeft(pin, tree, splits));
  }

  lemma NoSplitsUsable(olds: seq<File>, splits: map<File, seq<File>>)
    requires splits == map[] && forall o :: o in olds <==> o in splits
    ensures Usable(olds, splits)
  {
    SomeElement(olds);
  }

  lemma SomeElement(s: seq<File>)
    ensures s == [] || exists f :: f in s
  {
    if s != [] { assert s[0] in s; }
  }

  lemma NothingTaken(pin: Pin, tree: Pin)
    ensures PinLeft(pin, tree, map[]) == pin && TreeLeft(pin, tree, map[]) == tree
  {
    var none: map<File, seq<File>> := map[];
    var left, kept := TreeLeft(pin, tree, none), PinLeft(pin, tree, none);
    forall n | n in tree ensures left[n] == tree[n] {
      if Graded(pin, tree, n) { assert left[n].value == tree[n].value; }
    }
    forall n | n in pin ensures kept[n] == pin[n] {
      if Graded(pin, tree, n) { assert kept[n].value == pin[n].value; }
    }
  }
}
